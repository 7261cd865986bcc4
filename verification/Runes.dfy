/** Characters and lines of streamed text. A text is a sequence of Unicode scalar values and every
    offset counts characters, not bytes. */
module Runes {

  /** The Unicode tables for letters, decimal digits and punctuation, left open: every result holds for
      any tables, and the few results that need a fact about them say so with `Sane`. */
  datatype Tables = Tables(letter: char -> bool, digit: char -> bool, punct: char -> bool)

  /** What a scanner sees instead of a neighbour that is not there. */
  const NONE: char := '\0'

  const NEWLINE: char := '\n'

  predicate IsSpace(c: char) {
    || c in {'\t', '\n', '\U{0B}', '\U{0C}', '\r', ' ', '\U{85}', '\U{A0}', '\U{1680}'}
    || '\U{2000}' <= c <= '\U{200A}'
    || c in {'\U{2028}', '\U{2029}', '\U{202F}', '\U{205F}', '\U{3000}'}
  }

  /** No space, and no missing neighbour, is a letter or a digit. */
  ghost predicate Sane(u: Tables) {
    forall c: char {:trigger u.letter(c)} {:trigger u.digit(c)} ::
      IsSpace(c) || c == NONE ==> !u.letter(c) && !u.digit(c)
  }

  predicate IsAsciiDigit(c: char) {
    '0' <= c <= '9'
  }

  predicate IsBlank(c: char) {
    c == ' ' || c == '\t'
  }

  predicate AllSpace(s: string) {
    forall c :: c in s ==> IsSpace(c)
  }

  predicate AllDigits(s: string) {
    forall c :: c in s ==> IsAsciiDigit(c)
  }

  predicate AllBlank(s: string) {
    forall c :: c in s ==> IsBlank(c)
  }

  function TrimLeft(s: string): string {
    if s != "" && IsSpace(s[0]) then TrimLeft(s[1..]) else s
  }

  function TrimRight(s: string): string {
    if s != "" && IsSpace(s[|s| - 1]) then TrimRight(s[..|s| - 1]) else s
  }

  function TrimSpace(s: string): string {
    TrimRight(TrimLeft(s))
  }

  /** The end of the line that holds offset `i`: the next line feed, or the end of the text. */
  function LineEnd(text: string, i: nat): (e: nat)
    requires i <= |text|
    ensures i <= e <= |text|
    ensures NEWLINE !in text[i..e]
    ensures e < |text| ==> text[e] == NEWLINE
    decreases |text| - i
  {
    if i == |text| || text[i] == NEWLINE then i else LineEnd(text, i + 1)
  }

  /** The start of the line that holds offset `i`. */
  function LineStart(text: string, i: nat): (b: nat)
    requires i <= |text|
    ensures b <= i
    ensures NEWLINE !in text[b..i]
    ensures AtLineStart(text, b)
  {
    if AtLineStart(text, i) then i else LineStart(text, i - 1)
  }

  predicate AtLineStart(text: string, i: nat)
    requires i <= |text|
  {
    i == 0 || text[i - 1] == NEWLINE
  }

  /** The text between the start of the line and offset `i`. */
  function LinePrefix(text: string, i: nat): string
    requires i <= |text|
  {
    text[LineStart(text, i)..i]
  }

  /** The end of the run of `c` that starts at offset `i`. */
  function RunEnd(text: string, i: nat, c: char): (e: nat)
    requires i <= |text|
    ensures i <= e <= |text|
    ensures forall k :: i <= k < e ==> text[k] == c
    ensures e < |text| ==> text[e] != c
    decreases |text| - i
  {
    if i < |text| && text[i] == c then RunEnd(text, i + 1, c) else i
  }

  /** The end of the blanks that start at offset `i`. */
  function BlankEnd(text: string, i: nat): (e: nat)
    requires i <= |text|
    ensures i <= e <= |text|
    ensures forall k :: i <= k < e ==> IsBlank(text[k])
    ensures e < |text| ==> !IsBlank(text[e])
    decreases |text| - i
  {
    if i < |text| && IsBlank(text[i]) then BlankEnd(text, i + 1) else i
  }

  /** The end of the ASCII digits that start at offset `i`. */
  function DigitEnd(text: string, i: nat): (e: nat)
    requires i <= |text|
    ensures i <= e <= |text|
    ensures forall k :: i <= k < e ==> IsAsciiDigit(text[k])
    ensures e < |text| ==> !IsAsciiDigit(text[e])
    decreases |text| - i
  {
    if i < |text| && IsAsciiDigit(text[i]) then DigitEnd(text, i + 1) else i
  }

  /** The number of bytes of the UTF-8 encoding. */
  function Bytes(s: string): (n: nat)
    ensures n >= |s|
  {
    if s == "" then 0 else Bytes(s[..|s| - 1]) + CharBytes(s[|s| - 1])
  }

  function CharBytes(c: char): (n: nat)
    ensures 1 <= n <= 4
  {
    if c < '\U{80}' then 1 else if c < '\U{800}' then 2 else if c < '\U{10000}' then 3 else 4
  }

  predicate FollowsOn(b: int) {
    0x80 <= b < 0xC0
  }

  /** The bytes encode the character, as section 3 of RFC 3629 says. */
  predicate Encodes(b: seq<int>, c: char) {
    var v := c as int;
    || (|b| == 1 && v < 0x80 && b[0] == v)
    || (|b| == 2 && 0xC2 <= b[0] < 0xE0 && FollowsOn(b[1]) && v == (b[0] - 0xC0) * 0x40 + (b[1] - 0x80))
    || (|b| == 3 && 0xE0 <= b[0] < 0xF0 && FollowsOn(b[1]) && FollowsOn(b[2]) && v >= 0x800
        && v == (b[0] - 0xE0) * 0x1000 + (b[1] - 0x80) * 0x40 + (b[2] - 0x80))
    || (|b| == 4 && 0xF0 <= b[0] < 0xF5 && FollowsOn(b[1]) && FollowsOn(b[2]) && FollowsOn(b[3]) && v >= 0x10000
        && v == (b[0] - 0xF0) * 0x40000 + (b[1] - 0x80) * 0x1000 + (b[2] - 0x80) * 0x40 + (b[3] - 0x80))
  }

  /** Sizes count the bytes of the encoding. */
  lemma CharBytesIsUtf8(c: char) returns (b: seq<int>)
    ensures Encodes(b, c) && forall other :: Encodes(other, c) ==> |other| == CharBytes(c)
  {
    var v := c as int;
    if v < 0x80 {
      b := [v];
    } else if v < 0x800 {
      b := [0xC0 + v / 0x40, 0x80 + v % 0x40];
    } else if v < 0x10000 {
      var h := v / 0x40;
      b := [0xE0 + h / 0x40, 0x80 + h % 0x40, 0x80 + v % 0x40];
    } else {
      var h := v / 0x40;
      var g := h / 0x40;
      b := [0xF0 + g / 0x40, 0x80 + g % 0x40, 0x80 + h % 0x40, 0x80 + v % 0x40];
    }
    assert Encodes(b, c);
    forall other | Encodes(other, c) ensures |other| == CharBytes(c) {
      SizeOfEncoding(other, c);
    }
  }

  lemma SizeOfEncoding(b: seq<int>, c: char)
    requires Encodes(b, c)
    ensures |b| == CharBytes(c)
  {
  }

  lemma {:induction false} BytesConcat(s: string, t: string)
    ensures Bytes(s + t) == Bytes(s) + Bytes(t)
  {
    if t == "" {
      assert s + t == s;
    } else {
      var t' := t[..|t| - 1];
      assert (s + t)[..|s + t| - 1] == s + t';
      BytesConcat(s, t');
    }
  }
}
