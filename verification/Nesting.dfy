/** What it means for a text to close what it opens, read from the text itself: a grammar for brackets and quotes, the
    same grammar for emphasis, and the places where a sentence or a line ends with nothing open. */
module Nesting {
  import opened Runes

  /** The closing bracket that each opening bracket names. */
  predicate Names(open: char, close: char) {
    || (open == '(' && close == ')') || (open == '[' && close == ']') || (open == '{' && close == '}')
    || (open == '\U{300C}' && close == '\U{300D}') || (open == '\U{300E}' && close == '\U{300F}')
    || (open == '\U{FF08}' && close == '\U{FF09}') || (open == '\U{3010}' && close == '\U{3011}')
    || (open == '\U{201C}' && close == '\U{201D}')
  }

  predicate OpensBracket(c: char) {
    c in {'(', '[', '{', '\U{300C}', '\U{300E}', '\U{FF08}', '\U{3010}', '\U{201C}'}
  }

  predicate ClosesBracket(c: char) {
    c in {')', ']', '}', '\U{300D}', '\U{300F}', '\U{FF09}', '\U{3011}', '\U{201D}'}
  }

  predicate EmphasisChar(c: char) {
    c == '*' || c == '_' || c == '~'
  }

  function Before(f: string, i: nat): char
    requires i <= |f|
  {
    if i == 0 then '\0' else f[i - 1]
  }

  function After(f: string, j: nat): char
    requires j <= |f|
  {
    if j == |f| then '\0' else f[j]
  }

  /** A run of one character that does not go on. */
  ghost predicate Repeats(f: string, i: nat, j: nat, c: char) {
    i < j <= |f| && (forall k :: i <= k < j ==> f[k] == c) && (j < |f| ==> f[j] != c)
  }

  /** Inline code: a run of backticks, up to the next run that is as long. */
  ghost predicate CodeSpan(f: string, i: nat, n: nat, j: nat) {
    && n > 0 && Repeats(f, i, i + n, '`') && i + n + n < j && Repeats(f, j - n, j, '`') && f[j - n - 1] != '`'
    && forall k :: i + n < k < j - n && f[k] == '`' && f[k - 1] != '`' ==> !Repeats(f, k, k + n, '`')
  }

  /** The pieces of a text: an escaped character, inline code, a run of an emphasis character, or any other character.
      A backslash at the end and code that is not closed are no pieces. */
  ghost predicate Piece(f: string, i: nat, j: nat) {
    && i < j <= |f|
    && if f[i] == '\\' then j == i + 2
       else if f[i] == '`' then exists n: nat :: CodeSpan(f, i, n, j)
       else if EmphasisChar(f[i]) then Repeats(f, i, j, f[i])
       else j == i + 1
  }

  /** Only white space stands before `i` on its line. */
  ghost predicate FirstOnLine(f: string, i: nat)
    requires i <= |f|
  {
    exists b: nat :: b <= i && AtLineStart(f, b) && NEWLINE !in f[b..i] && AllSpace(f[b..i])
  }

  /** Only a number stands before `i` on its line. */
  ghost predicate AfterNumber(f: string, i: nat)
    requires i <= |f|
  {
    exists b: nat, c: nat, d: nat ::
      && b <= c < d <= i && AtLineStart(f, b) && NEWLINE !in f[b..i]
      && AllSpace(f[b..c]) && AllDigits(f[c..d]) && AllSpace(f[d..i])
  }

  datatype Layer = Brackets | Emphasis

  datatype Role = Opens | Closes | Plain | Breaks

  /** What a bracket or a quote does inside `top`. A closing parenthesis after a list number is plain text when nothing
      is open. A quote closes a quote, and opens one after white space, punctuation or nothing. */
  ghost function BracketRole(u: Tables, f: string, i: nat, j: nat, top: string): Role
    requires i < j <= |f|
  {
    var c, previous := f[i], Before(f, i);
    if c == '"' then
      if top == ['"'] then Closes
      else if previous == '\0' || IsSpace(previous) || u.punct(previous) then Opens
      else Plain
    else if OpensBracket(c) then Opens
    else if ClosesBracket(c) then
      if c == ')' && top == "" && AfterNumber(f, i) && IsSpace(After(f, j)) then Plain
      else if |top| == 1 && Names(top[0], c) then Closes
      else Breaks
    else Plain
  }

  predicate InWord(u: Tables, c: char) {
    u.letter(c) || u.digit(c)
  }

  /** What a run of an emphasis character does inside `top`. A list asterisk, a run inside a word, and tildes other than
      two are plain text. A run closes an equal one unless white space stands before it, and opens one before anything
      but white space. A run with nothing on either side breaks the text. */
  ghost function EmphasisRole(u: Tables, f: string, i: nat, j: nat, top: string): Role
    requires i < j <= |f|
  {
    var marker, previous, next := f[i..j], Before(f, i), After(f, j);
    if !EmphasisChar(f[i]) then Plain
    else if marker == "*" && FirstOnLine(f, i) && IsSpace(next) then Plain
    else if InWord(u, previous) && InWord(u, next) then Plain
    else if f[i] == '~' && marker != "~~" then Plain
    else if top == marker && !IsSpace(previous) then Closes
    else if next != '\0' && !IsSpace(next) then Opens
    else if next == '\0' && (previous == '\0' || IsSpace(previous)) then Breaks
    else Plain
  }

  ghost function RoleOf(layer: Layer, u: Tables, f: string, i: nat, j: nat, top: string): Role
    requires i < j <= |f|
  {
    match layer
    case Brackets => BracketRole(u, f, i, j, top)
    case Emphasis => EmphasisRole(u, f, i, j, top)
  }

  /** How a text is made: nothing more, a plain piece and more, or an opening piece, what it encloses, its closing piece,
      and more. The numbers are the lengths of the pieces. */
  datatype Nest =
    | Done
    | Word(width: nat, rest: Nest)
    | Pair(open: nat, inside: Nest, close: nat, rest: Nest)

  function Span(n: Nest): nat {
    match n
    case Done => 0
    case Word(w, rest) => w + Span(rest)
    case Pair(o, inside, c, rest) => o + Span(inside) + c + Span(rest)
  }

  ghost predicate Plays(role: Role, layer: Layer, u: Tables, f: string, i: nat, j: nat, top: string) {
    Piece(f, i, j) && RoleOf(layer, u, f, i, j, top) == role
  }

  /** The text from `i` on is made in this way, directly inside the piece `top`, or inside none. */
  ghost predicate Made(layer: Layer, u: Tables, f: string, i: nat, n: Nest, top: string)
    decreases n
  {
    match n
    case Done => true
    case Word(w, rest) => Plays(Plain, layer, u, f, i, i + w, top) && Made(layer, u, f, i + w, rest, top)
    case Pair(o, inside, c, rest) =>
      && Plays(Opens, layer, u, f, i, i + o, top) && Made(layer, u, f, i + o, inside, f[i..i + o])
      && var m := i + o + Span(inside);
         Plays(Closes, layer, u, f, m, m + c, f[i..i + o]) && Made(layer, u, f, m + c, rest, top)
  }

  /** The first `e` characters close everything they open. */
  ghost predicate WellNested(layer: Layer, u: Tables, f: string, e: nat) {
    exists n :: Made(layer, u, f, 0, n, "") && Span(n) == e
  }

  ghost predicate Closed(u: Tables, f: string, e: nat) {
    WellNested(Brackets, u, f, e) && WellNested(Emphasis, u, f, e)
  }

  /** Whole pieces lie between two offsets. */
  ghost predicate Path(f: string, a: nat, b: nat)
    decreases b - a
  {
    a == b || exists m: nat :: a < m <= b && Piece(f, a, m) && Path(f, m, b)
  }

  /** A piece of running text: neither escaped nor code. */
  ghost predicate Running(f: string, i: nat, j: nat) {
    Path(f, 0, i) && Piece(f, i, j) && f[i] != '\\' && f[i] != '`'
  }

  /** Ends a sentence whatever follows. */
  predicate EndsFirmly(c: char) {
    c in {'!', '?', '\U{3002}', '\U{FF0E}', '\U{FF01}', '\U{FF1F}'}
  }

  /** A stop that ends a sentence: no point within a number or behind a list number. */
  ghost predicate FullStop(u: Tables, f: string, i: nat)
    requires i < |f|
  {
    || EndsFirmly(f[i])
    || (f[i] == '.' && !(u.digit(Before(f, i)) && u.digit(After(f, i + 1))) && !(AfterNumber(f, i) && IsSpace(After(f, i + 1))))
  }

  /** Everything is closed behind a piece of running text that ends a line, is a firm stop, or stands before white space. */
  ghost predicate Pause(u: Tables, f: string, e: nat) {
    && 0 < e <= |f| && Closed(u, f, e) && (exists i: nat :: Running(f, i, e))
    && (f[e - 1] == NEWLINE || EndsFirmly(f[e - 1]) || (e < |f| && IsSpace(f[e])))
  }

  /** A sentence has ended, and there was no pause since. */
  ghost predicate SentenceWaits(u: Tables, f: string, e: nat) {
    exists j: nat :: j < e && j < |f| && Running(f, j, j + 1) && FullStop(u, f, j) && forall p: nat :: j < p < e ==> !Pause(u, f, p)
  }

  /** Where a text may be committed: at the end of a line, and at a pause after the end of a sentence. */
  ghost predicate MayCommit(u: Tables, f: string, e: nat) {
    Pause(u, f, e) && (f[e - 1] == NEWLINE || SentenceWaits(u, f, e))
  }

  predicate ItemAt(line: string, a: nat, b: nat) {
    && a < b <= |line| && AllBlank(line[..a]) && AllBlank(line[b..])
    && (line[a..b] in {"-", "+", "*"} || (2 <= b - a <= 10 && AllDigits(line[a..b - 1]) && line[b - 1] in {'.', ')'}))
  }

  /** Lines that are taken as a whole: a list marker with nothing behind it, and a fence. */
  ghost predicate BareItem(line: string) {
    exists a: nat, b: nat :: ItemAt(line, a, b)
  }

  predicate FenceAt(line: string, a: nat) {
    && a <= 3 && a + 3 <= |line| && (forall k :: 0 <= k < a ==> line[k] == ' ')
    && (line[a..a + 3] == "```" || line[a..a + 3] == "~~~")
  }

  /** A fence: at most three spaces, and then at least three backticks or tildes. */
  ghost predicate FenceLine(line: string) {
    exists a: nat :: FenceAt(line, a)
  }

  /** The run of fence characters that a fence line begins with. */
  ghost predicate FenceRun(line: string, a: nat, b: nat) {
    FenceAt(line, a) && Repeats(line, a, b, line[a])
  }

  predicate FenceEnd(fence: string, line: string, a: nat, b: nat) {
    && a <= 3 && (forall k :: 0 <= k < a <= |line| ==> line[k] == ' ')
    && fence != "" && a + |fence| <= b <= |line| && (forall k :: a <= k < b ==> line[k] == fence[0]) && AllSpace(line[b..])
  }

  /** The line ends a fence: at most three spaces, at least as many of its characters, and white space. */
  ghost predicate EndsFence(fence: string, line: string) {
    exists a: nat, b: nat :: FenceEnd(fence, line, a, b)
  }

  /** No line of the text is taken as a whole. */
  ghost predicate RunningText(f: string) {
    forall b: nat :: b < |f| && AtLineStart(f, b) ==> !BareItem(f[b..LineEnd(f, b)]) && !FenceLine(f[b..LineEnd(f, b)])
  }
}
