/** The scanner as the runtime runs it: one index loop that updates stacks and flags. The loop's variables
    are the fields of one record. */
module ScannerLoop {
  import opened Runes
  import opened Scanner

  /** Returns the boundaries, and whether every structure of the text is closed. */
  method GenerationBoundaries(u: Tables, text: string, allowTail: bool) returns (boundaries: seq<nat>, balanced: bool)
    ensures boundaries == FinalBoundaries(u, text, allowTail)
    ensures balanced == BalancedText(u, text)
  {
    var s := INITIAL;
    while s.i < |text|
      invariant Scanned(u, text) == ScanFrom(u, text, s)
      decreases |text| - s.i
    {
      var taken, next := TakeLine(text, s);
      if !taken {
        next := TakeRune(u, text, s);
      }
      s := next;
    }
    balanced := s.valid && s.fence == "" && s.inline == "" && |s.brackets| == 0 && |s.emphasis| == 0;
    boundaries := s.boundaries;
    if allowTail && balanced {
      boundaries := Append(boundaries, |text|);
    }
  }

  /** At the start of a line: an empty list item, or a line inside, opening or closing a fence. */
  method TakeLine(text: string, s: Scan) returns (taken: bool, s': Scan)
    requires s.i < |text|
    ensures taken == LineMode(text, s)
    ensures taken ==> s' == LineStep(text, s)
  {
    hide EmptyListLine, FenceMarker, AllSpace;
    if !AtLineStart(text, s.i) {
      return false, s;
    }
    var lineEnd := LineEnd(text, s.i);
    var line := text[s.i..lineEnd];
    var quiet := s.fence == "" && s.inline == "" && |s.emphasis| == 0 && |s.brackets| == 0;
    var i := lineEnd;
    if i < |text| {
      i := i + 1;
    }
    if quiet && EmptyListLine(line) {
      return true, s.(valid := false, i := i);
    }
    var marker := LeadingMarker(line);
    if s.fence == "" && !(marker != "" && quiet) {
      return false, s;
    }
    var fence, boundaries := s.fence, s.boundaries;
    if fence == "" {
      fence := marker;
    } else if marker != "" && marker[0] == fence[0] && |marker| >= |fence| && AllSpace(line[Indent(line) + |marker|..]) {
      fence := "";
    }
    if lineEnd < |text| && fence == "" {
      boundaries := Append(boundaries, i);
    }
    return true, s.(i := i, fence := fence, boundaries := boundaries, pending := false);
  }

  /** An escape, a run of backticks, inline code, or a token of running text. */
  method TakeRune(u: Tables, text: string, s: Scan) returns (s': Scan)
    requires s.i < |text|
    ensures s' == RuneStep(u, text, s)
  {
    s' := s;
    var c := text[s.i];
    if c == '\\' && s.inline == "" {
      if s.i + 1 < |text| {
        return s.(i := s.i + 2);
      }
      s' := s.(valid := false);
    }
    if c == '`' {
      var end := FindRunEnd(text, s.i, c);
      var marker := text[s.i..end];
      if s.inline == "" {
        return s'.(i := end, inline := marker);
      } else if s.inline == marker {
        return s'.(i := end, inline := "");
      }
      return s'.(i := end);
    }
    if s.inline != "" {
      return s'.(i := s.i + 1);
    }
    s' := TakeToken(u, text, s');
  }

  method TakeToken(u: Tables, text: string, s: Scan) returns (s': Scan)
    requires s.i < |text|
    ensures s' == TextStep(u, s, TokenAt(text, s.i))
  {
    var c, end := text[s.i], s.i + 1;
    if c == '*' || c == '_' || c == '~' {
      end := FindRunEnd(text, s.i, c);
    }
    var previous := if s.i > 0 then text[s.i - 1] else NONE;
    var next := if end < |text| then text[end] else NONE;
    var prefix := LinePrefix(text, s.i);
    var k := Token(c, text[s.i..end], end, previous, next, prefix, end == |text|);
    s' := s;
    hide Emphasize, Bracket, Sentence, Commit, LinePrefix;
    var emphasis, valid := TakeDelimiters(u, s, k);
    s' := s'.(emphasis := emphasis, valid := valid);
    var brackets;
    brackets, valid := TakeBracket(u, s', k);
    s' := s'.(brackets := brackets, valid := valid);
    var pending := TakeStop(u, s', k);
    s' := s'.(pending := pending);
    s' := TakeCommit(s', k);
    s' := s'.(i := end);
  }

  method TakeDelimiters(u: Tables, s: Scan, k: Token) returns (emphasis: seq<string>, valid: bool)
    ensures s.(emphasis := emphasis, valid := valid) == Emphasize(u, s, k)
  {
    hide IsSpace;
    emphasis, valid := s.emphasis, s.valid;
    if !IsDelimiter(k.c) {
      return;
    }
    var listMarker := k.c == '*' && |k.marker| == 1 && AllSpace(k.prefix) && IsSpace(k.next);
    var inWord := (u.letter(k.previous) || u.digit(k.previous)) && (u.letter(k.next) || u.digit(k.next));
    if !listMarker && !inWord && (k.c != '~' || |k.marker| == 2) {
      if |emphasis| > 0 && emphasis[|emphasis| - 1] == k.marker && !IsSpace(k.previous) {
        emphasis := emphasis[..|emphasis| - 1];
      } else if k.next != NONE && !IsSpace(k.next) {
        emphasis := emphasis + [k.marker];
      } else if k.next == NONE && (k.previous == NONE || IsSpace(k.previous)) {
        valid := false;
      }
    }
  }

  method TakeBracket(u: Tables, s: Scan, k: Token) returns (brackets: seq<char>, valid: bool)
    ensures s.(brackets := brackets, valid := valid) == Bracket(u, s, k)
  {
    hide IsSpace, NumberPrefix, OpenerOf, IsOpener, IsCloser;
    brackets, valid := s.brackets, s.valid;
    if IsOpener(k.c) {
      brackets := brackets + [k.c];
    } else if IsCloser(k.c) {
      var orderedMarker := k.c == ')' && |brackets| == 0 && NumberPrefix(k.prefix) && IsSpace(k.next);
      if !orderedMarker {
        if |brackets| == 0 || brackets[|brackets| - 1] != OpenerOf(k.c) {
          valid := false;
        } else {
          brackets := brackets[..|brackets| - 1];
        }
      }
    } else if k.c == '"' {
      if |brackets| > 0 && brackets[|brackets| - 1] == '"' {
        brackets := brackets[..|brackets| - 1];
      } else if k.previous == NONE || IsSpace(k.previous) || u.punct(k.previous) {
        brackets := brackets + ['"'];
      }
    }
  }

  method TakeStop(u: Tables, s: Scan, k: Token) returns (pending: bool)
    ensures s.(pending := pending) == Sentence(u, s, k)
  {
    hide NumberPrefix, IsSpace, IsStop;
    pending := s.pending;
    if IsStop(k.c) {
      var decimal := k.c == '.' && u.digit(k.previous) && u.digit(k.next);
      var listNumber := k.c == '.' && NumberPrefix(k.prefix) && IsSpace(k.next);
      if !decimal && !listNumber {
        pending := true;
      }
    }
  }

  method TakeCommit(s: Scan, k: Token) returns (s': Scan)
    ensures s' == Commit(s, k)
  {
    var boundaries, pending := s.boundaries, s.pending;
    var balanced := s.valid && s.inline == "" && |s.brackets| == 0 && |s.emphasis| == 0;
    if balanced && k.c == NEWLINE {
      boundaries := Append(boundaries, k.end);
      pending := false;
    }
    if balanced && pending && ((!k.last && IsSpace(k.next)) || IsFirmStop(k.c)) {
      boundaries := Append(boundaries, k.end);
      pending := false;
    }
    s' := s.(boundaries := boundaries, pending := pending);
  }

  method FindRunEnd(text: string, i: nat, c: char) returns (end: nat)
    requires i < |text| && text[i] == c
    ensures end == RunEnd(text, i, c)
  {
    end := i + 1;
    while end < |text| && text[end] == c
      invariant i < end <= |text|
      invariant RunEnd(text, i, c) == RunEnd(text, end, c)
    {
      end := end + 1;
    }
  }

  method LeadingMarker(line: string) returns (marker: string)
    ensures marker == FenceMarker(line)
  {
    var indent := Indent(line);
    marker := "";
    if indent <= 3 && |line| - indent >= 3 && IsFenceChar(line[indent]) {
      var end := FindRunEnd(line, indent, line[indent]);
      if end - indent >= 3 {
        marker := line[indent..end];
      }
    }
  }
}
