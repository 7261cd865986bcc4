/** The Markdown scanner that decides where streamed text may be committed, as a one-token step function
    on a state record, and as the loop that the runtime runs. */
module Scanner {
  import opened Runes

  /** `inline`, `fence` and each entry of `emphasis` are the opening markers still waiting for their close. */
  datatype Scan = Scan(
    i: nat,
    fence: string,
    inline: string,
    emphasis: seq<string>,
    brackets: seq<char>,
    valid: bool,
    pending: bool,
    boundaries: seq<nat>)

  const INITIAL := Scan(0, "", "", [], [], true, false, [])

  /** Nothing is open. */
  predicate Quiet(s: Scan) {
    s.fence == "" && s.inline == "" && s.emphasis == [] && s.brackets == []
  }

  predicate Balanced(s: Scan) {
    s.valid && Quiet(s)
  }

  predicate IsDelimiter(c: char) {
    c in {'*', '_', '~'}
  }

  predicate IsFenceChar(c: char) {
    c == '`' || c == '~'
  }

  /** Ends a sentence whatever follows. */
  predicate IsFirmStop(c: char) {
    c in {'\U{3002}', '\U{FF0E}', '!', '\U{FF01}', '?', '\U{FF1F}'}
  }

  predicate IsStop(c: char) {
    c == '.' || IsFirmStop(c)
  }

  predicate IsOpener(c: char) {
    c in {'[', '(', '{', '\U{300C}', '\U{300E}', '\U{FF08}', '\U{3010}', '\U{201C}'}
  }

  predicate IsCloser(c: char) {
    c in {']', ')', '}', '\U{300D}', '\U{300F}', '\U{FF09}', '\U{3011}', '\U{201D}'}
  }

  function OpenerOf(c: char): char {
    match c
    case ']' => '['
    case ')' => '('
    case '}' => '{'
    case '\U{300D}' => '\U{300C}'
    case '\U{300F}' => '\U{300E}'
    case '\U{FF09}' => '\U{FF08}'
    case '\U{3011}' => '\U{3010}'
    case '\U{201D}' => '\U{201C}'
    case _ => NONE
  }

  /** A list marker with nothing after it: one of - + *, or up to nine digits and a dot or parenthesis. */
  predicate EmptyListLine(line: string) {
    var k := BlankEnd(line, 0);
    var d := DigitEnd(line, k);
    || (k < |line| && line[k] in {'-', '+', '*'} && AllBlank(line[k + 1..]))
    || (1 <= d - k <= 9 && d < |line| && line[d] in {'.', ')'} && AllBlank(line[d + 1..]))
  }

  /** Where the fence marker of a line starts: after its leading spaces. */
  function Indent(line: string): (e: nat)
    ensures e <= |line|
  {
    RunEnd(line, 0, ' ')
  }

  /** The fence marker of a line, or "" when the line has none. */
  function FenceMarker(line: string): (m: string)
    ensures m != "" ==> |m| >= 3 && Indent(line) + |m| <= |line|
  {
    var k := Indent(line);
    if k <= 3 && |line| - k >= 3 && IsFenceChar(line[k]) then
      var e := RunEnd(line, k, line[k]);
      if e - k >= 3 then line[k..e] else ""
    else ""
  }

  function CurrentLine(text: string, i: nat): string
    requires i <= |text|
  {
    text[i..LineEnd(text, i)]
  }

  /** The scan position is at the start of a line that is taken whole. */
  predicate LineMode(text: string, s: Scan)
    requires s.i < |text|
  {
    var line := CurrentLine(text, s.i);
    && AtLineStart(text, s.i)
    && (s.fence != "" || (Quiet(s) && (EmptyListLine(line) || FenceMarker(line) != "")))
  }

  function Append(boundaries: seq<nat>, end: nat): seq<nat> {
    if end > 0 && (boundaries == [] || boundaries[|boundaries| - 1] != end) then boundaries + [end] else boundaries
  }

  /** Takes a whole line: an empty list item, or a line inside, opening or closing a fence. */
  function LineStep(text: string, s: Scan): Scan
    requires s.i < |text|
  {
    var lineEnd := LineEnd(text, s.i);
    var line := text[s.i..lineEnd];
    var after := if lineEnd < |text| then lineEnd + 1 else lineEnd;
    if s.fence == "" && EmptyListLine(line) then
      s.(i := after, valid := false)
    else
      var fence := FenceAfter(s.fence, line);
      s.(i := after, fence := fence, pending := false,
         boundaries := if lineEnd < |text| && fence == "" then Append(s.boundaries, after) else s.boundaries)
  }

  function FenceAfter(fence: string, line: string): string {
    var marker := FenceMarker(line);
    if fence == "" then marker
    else if marker != "" && marker[0] == fence[0] && |marker| >= |fence|
            && AllSpace(line[Indent(line) + |marker|..]) then ""
    else fence
  }

  /** What the scan looks at outside whole lines: one character or a run of one delimiter, with its
      neighbours and the text before it on its line. `last` says that the text ends with the token. */
  datatype Token = Token(c: char, marker: string, end: nat, previous: char, next: char, prefix: string, last: bool)

  function TokenAt(text: string, i: nat): (k: Token)
    requires i < |text|
    ensures i < k.end <= |text| && k.c == text[i] && k.marker == text[i..k.end]
  {
    var end := if IsDelimiter(text[i]) then RunEnd(text, i, text[i]) else i + 1;
    Token(text[i], text[i..end], end,
          if i > 0 then text[i - 1] else NONE,
          if end < |text| then text[end] else NONE,
          LinePrefix(text, i), end == |text|)
  }

  predicate NumberPrefix(prefix: string) {
    var trimmed := TrimSpace(prefix);
    trimmed != "" && AllDigits(trimmed)
  }

  predicate Closes(s: Scan, k: Token) {
    s.emphasis != [] && s.emphasis[|s.emphasis| - 1] == k.marker && !IsSpace(k.previous)
  }

  /** The delimiter run is plain text: a list marker, inside a word, or a lone or long tilde run. */
  predicate PlainRun(u: Tables, k: Token) {
    || (k.c == '*' && |k.marker| == 1 && AllSpace(k.prefix) && IsSpace(k.next))
    || ((u.letter(k.previous) || u.digit(k.previous)) && (u.letter(k.next) || u.digit(k.next)))
    || (k.c == '~' && |k.marker| != 2)
  }

  function Emphasize(u: Tables, s: Scan, k: Token): Scan {
    if !IsDelimiter(k.c) || PlainRun(u, k) then s
    else if Closes(s, k) then s.(emphasis := s.emphasis[..|s.emphasis| - 1])
    else if k.next != NONE && !IsSpace(k.next) then s.(emphasis := s.emphasis + [k.marker])
    else if k.next == NONE && (k.previous == NONE || IsSpace(k.previous)) then s.(valid := false)
    else s
  }

  function Bracket(u: Tables, s: Scan, k: Token): Scan {
    if IsOpener(k.c) then s.(brackets := s.brackets + [k.c])
    else if IsCloser(k.c) then
      if k.c == ')' && s.brackets == [] && NumberPrefix(k.prefix) && IsSpace(k.next) then s
      else if s.brackets == [] || s.brackets[|s.brackets| - 1] != OpenerOf(k.c) then s.(valid := false)
      else s.(brackets := s.brackets[..|s.brackets| - 1])
    else if k.c == '"' then
      if s.brackets != [] && s.brackets[|s.brackets| - 1] == '"' then s.(brackets := s.brackets[..|s.brackets| - 1])
      else if k.previous == NONE || IsSpace(k.previous) || u.punct(k.previous) then s.(brackets := s.brackets + ['"'])
      else s
    else s
  }

  /** The stop belongs to a number or to a list number, so it ends no sentence. */
  predicate PlainStop(u: Tables, k: Token) {
    k.c == '.' && ((u.digit(k.previous) && u.digit(k.next)) || (NumberPrefix(k.prefix) && IsSpace(k.next)))
  }

  function Sentence(u: Tables, s: Scan, k: Token): Scan {
    if IsStop(k.c) && !PlainStop(u, k) then s.(pending := true) else s
  }

  /** Inside running text the fence is always closed, so `balanced` does not look at it. */
  function Commit(s: Scan, k: Token): Scan {
    var balanced := s.valid && s.inline == "" && s.brackets == [] && s.emphasis == [];
    if balanced && k.c == NEWLINE then s.(boundaries := Append(s.boundaries, k.end), pending := false)
    else if balanced && s.pending && ((!k.last && IsSpace(k.next)) || IsFirmStop(k.c)) then
      s.(boundaries := Append(s.boundaries, k.end), pending := false)
    else s
  }

  function TextStep(u: Tables, s: Scan, k: Token): Scan {
    Commit(Sentence(u, Bracket(u, Emphasize(u, s, k), k), k), k).(i := k.end)
  }

  function RuneStep(u: Tables, text: string, s: Scan): Scan
    requires s.i < |text|
  {
    var c := text[s.i];
    if c == '\\' && s.inline == "" && s.i + 1 < |text| then s.(i := s.i + 2)
    else if c == '`' then
      var end := RunEnd(text, s.i, c);
      var marker := text[s.i..end];
      s.(i := end, inline := if s.inline == "" then marker else if s.inline == marker then "" else s.inline)
    else if s.inline != "" then s.(i := s.i + 1)
    else TextStep(u, if c == '\\' then s.(valid := false) else s, TokenAt(text, s.i))
  }

  function Step(u: Tables, text: string, s: Scan): (s': Scan)
    requires s.i < |text|
    ensures s.i < s'.i <= |text|
  {
    if LineMode(text, s) then LineStep(text, s) else RuneStep(u, text, s)
  }

  function ScanFrom(u: Tables, text: string, s: Scan): Scan
    decreases |text| - s.i
  {
    if s.i >= |text| then s else ScanFrom(u, text, Step(u, text, s))
  }

  function Scanned(u: Tables, text: string): Scan {
    ScanFrom(u, text, INITIAL)
  }

  /** The offsets at which a text may be committed while more may follow. */
  function Boundaries(u: Tables, text: string): seq<nat> {
    Scanned(u, text).boundaries
  }

  predicate BalancedText(u: Tables, text: string) {
    Balanced(Scanned(u, text))
  }

  /** A finished, balanced text may be committed to its end. */
  function FinalBoundaries(u: Tables, text: string, allowTail: bool): seq<nat> {
    var s := Scanned(u, text);
    if allowTail && Balanced(s) then Append(s.boundaries, |text|) else s.boundaries
  }
}
