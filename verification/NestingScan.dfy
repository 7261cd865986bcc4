/** How the scanner takes the pieces of a running text. */
module NestingScan {
  import opened Runes
  import opened Scanner
  import opened ScanStructure
  import opened Nesting
  import opened NestingProof

  /** The scanner is between two pieces, in running text. */
  predicate AtText(f: string, s: Scan) {
    s.i <= |f| && s.fence == "" && s.inline == ""
  }

  function Singles(b: seq<char>): seq<string> {
    seq(|b|, k requires 0 <= k < |b| => [b[k]])
  }

  /** The pieces of a layer that are open in a state of the scan. */
  function Open(layer: Layer, s: Scan): seq<string> {
    match layer
    case Brackets => Singles(s.brackets)
    case Emphasis => s.emphasis
  }

  lemma TokenIsPiece(f: string, i: nat)
    requires i < |f| && f[i] != '\\' && f[i] != '`'
    ensures var k := TokenAt(f, i);
            && Piece(f, i, k.end) && k.marker == f[i..k.end] && k.c == f[i]
            && k.previous == Before(f, i) && k.next == After(f, k.end) && k.prefix == LinePrefix(f, i)
            && (!EmphasisChar(f[i]) ==> k.end == i + 1) && k.last == (k.end == |f|)
  {
  }

  /** The emphasis stack after a piece. */
  ghost predicate Turned(role: Role, stack: seq<string>, marker: string, stack': seq<string>) {
    match role
    case Plain => stack' == stack
    case Opens => stack' == stack + [marker]
    case Closes => stack != [] && stack' == stack[..|stack| - 1]
    case Breaks => stack' == stack
  }

  lemma EmphasisTurns(u: Tables, f: string, s: Scan)
    requires s.i < |f| && f[s.i] != '\\' && f[s.i] != '`'
    ensures var k := TokenAt(f, s.i);
            var r, role := Emphasize(u, s, k), EmphasisRole(u, f, s.i, k.end, Top(s.emphasis));
            && r == s.(emphasis := r.emphasis, valid := s.valid && role != Breaks)
            && Turned(role, s.emphasis, f[s.i..k.end], r.emphasis)
  {
    TokenIsPiece(f, s.i);
    FirstIs(f, s.i);
    var k := TokenAt(f, s.i);
    hide LinePrefix, FirstOnLine, AllSpace, IsSpace;
    if EmphasisChar(f[s.i]) {
      MarkerIs(f, s.i, k.end);
    }
  }

  lemma MarkerIs(f: string, i: nat, j: nat)
    requires i < |f| && Repeats(f, i, j, f[i])
    ensures f[i..j] == "*" <==> f[i] == '*' && j == i + 1
    ensures f[i] == '~' ==> (f[i..j] == "~~" <==> j == i + 2)
    ensures f[i..j] != ""
  {
  }

  lemma NamesOpener(open: char, close: char)
    requires ClosesBracket(close)
    ensures Names(open, close) <==> open == OpenerOf(close)
  {
  }

  lemma BracketTurns(u: Tables, f: string, s: Scan)
    requires s.i < |f| && f[s.i] != '\\' && f[s.i] != '`'
    ensures var k := TokenAt(f, s.i);
            var r, role := Bracket(u, s, k), BracketRole(u, f, s.i, k.end, Top(Singles(s.brackets)));
            && r == s.(brackets := r.brackets, valid := s.valid && role != Breaks)
            && Turned(role, Singles(s.brackets), f[s.i..k.end], Singles(r.brackets))
  {
    TokenIsPiece(f, s.i);
    NumberIs(f, s.i);
    var k := TokenAt(f, s.i);
    hide LinePrefix, AfterNumber, NumberPrefix, IsSpace;
    TopOfSingles(s.brackets, k.c);
    if ClosesBracket(k.c) && s.brackets != [] {
      NamesOpener(s.brackets[|s.brackets| - 1], k.c);
    }
    assert IsOpener(k.c) == OpensBracket(k.c) && IsCloser(k.c) == ClosesBracket(k.c);
    assert !EmphasisChar(k.c) ==> f[s.i..k.end] == [k.c];
    hide OpenerOf, Names, IsOpener, IsCloser, OpensBracket, ClosesBracket;
  }

  lemma TopOfSingles(b: seq<char>, c: char)
    ensures Top(Singles(b)) == if b == [] then "" else [b[|b| - 1]]
    ensures Singles(b + [c]) == Singles(b) + [[c]]
    ensures b != [] ==> Singles(b[..|b| - 1]) == Singles(b)[..|b| - 1]
    ensures Singles(b) == [] <==> b == []
  {
  }

  /** The scan from `s` on has nothing open when it has read `e` characters. */
  ghost predicate ClosedAt(u: Tables, f: string, s: Scan, e: nat)
    decreases |f| - s.i
  {
    if s.i >= e then s.i == e && Balanced(s) else s.i < |f| && ClosedAt(u, f, Step(u, f, s), e)
  }

  lemma {:induction false} InvalidStays(u: Tables, f: string, s: Scan, e: nat)
    requires !s.valid
    ensures !ClosedAt(u, f, s, e)
    decreases |f| - s.i
  {
    if s.i >= e || s.i >= |f| {
    } else {
      InvalidStep(u, f, s);
      hide Step;
      InvalidStays(u, f, Step(u, f, s), e);
    }
  }

  lemma InvalidStep(u: Tables, f: string, s: Scan)
    requires s.i < |f| && !s.valid
    ensures !Step(u, f, s).valid
  {
    TextStepFields(u, s, TokenAt(f, s.i));
    TextStepFields(u, s.(valid := false), TokenAt(f, s.i));
    hide TextStep, EmptyListLine, FenceMarker, FenceAfter;
  }

  /** A step over a piece of running text that is neither escaped nor code. */
  lemma TokenStep(u: Tables, f: string, s: Scan)
    requires RunningText(f) && AtText(f, s) && s.i < |f| && f[s.i] != '\\' && f[s.i] != '`'
    ensures var s', k := Step(u, f, s), TokenAt(f, s.i);
            && s' == TextStep(u, s, k) && AtText(f, s') && s'.i == k.end && Piece(f, s.i, s'.i)
    ensures var s' := Step(u, f, s);
            && Turned(EmphasisRole(u, f, s.i, s'.i, Top(s.emphasis)), s.emphasis, f[s.i..s'.i], s'.emphasis)
            && Turned(BracketRole(u, f, s.i, s'.i, Top(Singles(s.brackets))), Singles(s.brackets), f[s.i..s'.i], Singles(s'.brackets))
            && s'.valid == (s.valid && EmphasisRole(u, f, s.i, s'.i, Top(s.emphasis)) != Breaks
                            && BracketRole(u, f, s.i, s'.i, Top(Singles(s.brackets))) != Breaks)
  {
    NoLineMode(f, s);
    var k := TokenAt(f, s.i);
    TokenIsPiece(f, s.i);
    EmphasisTurns(u, f, s);
    var m := Emphasize(u, s, k);
    BracketTurns(u, f, m);
    assert m.i == s.i;
    hide Emphasize, Bracket, EmphasisRole, BracketRole, TokenAt, LineMode, Turned, Piece, RunningText, Singles, Top;
    StagesLeave(u, Bracket(u, m, k), k);
  }

  lemma StagesLeave(u: Tables, s: Scan, k: Token)
    ensures var r := Commit(Sentence(u, s, k), k);
            r == s.(pending := r.pending, boundaries := r.boundaries)
  {
  }

  /** An escaped character is skipped. */
  lemma EscapeStep(u: Tables, f: string, s: Scan)
    requires RunningText(f) && AtText(f, s) && s.i + 1 < |f| && f[s.i] == '\\'
    ensures Step(u, f, s) == s.(i := s.i + 2) && Piece(f, s.i, s.i + 2)
  {
    NoLineMode(f, s);
    hide LineMode, RunningText;
  }

  /** A backslash at the end breaks the text. */
  lemma LastBackslash(u: Tables, f: string, s: Scan)
    requires RunningText(f) && AtText(f, s) && s.i + 1 == |f| && f[s.i] == '\\'
    ensures !Step(u, f, s).valid && Step(u, f, s).i == |f| && Step(u, f, s).boundaries == s.boundaries
    ensures forall j :: !Piece(f, s.i, j)
  {
    NoLineMode(f, s);
    TextStepFields(u, s.(valid := false), TokenAt(f, s.i));
    hide LineMode, RunningText, TextStep;
  }

  // Inline code.

  /** The scan goes from `s` to `p` through code. */
  ghost predicate ThroughCode(u: Tables, f: string, s: Scan, p: Scan)
    decreases |f| - s.i
  {
    s == p || (s.i < |f| && s.i < p.i && s.inline != "" && ThroughCode(u, f, Step(u, f, s), p))
  }

  /** The scan from `s` on never leaves code. */
  ghost predicate LostInCode(u: Tables, f: string, s: Scan)
    decreases |f| - s.i
  {
    s.inline != "" && (s.i < |f| ==> LostInCode(u, f, Step(u, f, s)))
  }

  lemma {:induction false} CodeClosedAt(u: Tables, f: string, s: Scan, p: Scan, e: nat)
    requires ThroughCode(u, f, s, p)
    ensures s.i <= p.i
    ensures if e >= p.i then ClosedAt(u, f, s, e) == ClosedAt(u, f, p, e) else !ClosedAt(u, f, s, e)
    decreases |f| - s.i
  {
    hide Step;
    if s == p {
    } else {
      CodeClosedAt(u, f, Step(u, f, s), p, e);
    }
  }

  lemma {:induction false} CodeScanned(u: Tables, f: string, s: Scan, p: Scan)
    requires ThroughCode(u, f, s, p)
    ensures ScanFrom(u, f, s) == ScanFrom(u, f, p)
    decreases |f| - s.i
  {
    hide Step;
    if s == p {
    } else {
      CodeScanned(u, f, Step(u, f, s), p);
    }
  }

  lemma {:induction false} LostClosedAt(u: Tables, f: string, s: Scan, e: nat)
    requires LostInCode(u, f, s)
    ensures !ClosedAt(u, f, s, e)
    decreases |f| - s.i
  {
    hide Step;
    if s.i >= e || s.i >= |f| {
    } else {
      LostClosedAt(u, f, Step(u, f, s), e);
    }
  }

  /** One step within code. */
  lemma CodeStep(u: Tables, f: string, s: Scan)
    requires s.i < |f| && s.fence == "" && s.inline != ""
    ensures Step(u, f, s) == if f[s.i] != '`' then s.(i := s.i + 1)
                             else var j := RunEnd(f, s.i, '`');
                                  s.(i := j, inline := if f[s.i..j] == s.inline then "" else s.inline)
  {
    hide EmptyListLine, FenceMarker;
  }

  /** Reads the rest of inline code: to its end, or to the end of the text. */
  lemma {:induction false} ReadCode(u: Tables, f: string, s: Scan, i: nat, n: nat) returns (closed: bool, j: nat)
    requires n > 0 && Nesting.Repeats(f, i, i + n, '`') && i + n <= s.i <= |f| && s.fence == "" && s.inline == f[i..i + n]
    requires s.i > i + n && s.i < |f| && f[s.i] == '`' ==> f[s.i - 1] != '`'
    requires forall k :: i + n < k < s.i && f[k] == '`' && f[k - 1] != '`' ==> !Nesting.Repeats(f, k, k + n, '`')
    ensures closed ==> CodeSpan(f, i, n, j) && s.i < j && ThroughCode(u, f, s, s.(i := j, inline := ""))
    ensures !closed ==> LostInCode(u, f, s) && (forall j: nat :: !CodeSpan(f, i, n, j))
    ensures !closed ==> ScanFrom(u, f, s).boundaries == s.boundaries
    decreases |f| - s.i
  {
    hide CodeSpan;
    if s.i == |f| {
      closed, j := false, 0;
      NoCode(f, i, n);
    } else {
      CodeStep(u, f, s);
      var s' := Step(u, f, s);
      hide Step;
      if f[s.i] == '`' && f[s.i..s'.i] == s.inline {
        closed, j := true, s'.i;
        FoundCode(f, i, n, s.i);
      } else {
        if f[s.i] == '`' {
          OtherRun(f, i, n, s.i, s'.i);
        }
        closed, j := ReadCode(u, f, s', i, n);
      }
    }
  }

  lemma FoundCode(f: string, i: nat, n: nat, k: nat)
    requires n > 0 && Nesting.Repeats(f, i, i + n, '`') && i + n <= k < |f|
    requires f[k] == '`' && f[k..RunEnd(f, k, '`')] == f[i..i + n] && (k > i + n ==> f[k - 1] != '`')
    requires forall l :: i + n < l < k && f[l] == '`' && f[l - 1] != '`' ==> !Nesting.Repeats(f, l, l + n, '`')
    ensures CodeSpan(f, i, n, RunEnd(f, k, '`')) && RunEnd(f, k, '`') == k + n
  {
    assert Nesting.Repeats(f, k, k + n, '`');
  }

  lemma NoCode(f: string, i: nat, n: nat)
    requires forall k :: i + n < k < |f| && f[k] == '`' && f[k - 1] != '`' ==> !Nesting.Repeats(f, k, k + n, '`')
    ensures forall j: nat :: !CodeSpan(f, i, n, j)
  {
    forall j: nat ensures !CodeSpan(f, i, n, j) {
      if n < j <= |f| && n > 0 {
        var q: nat := j - n;
        var here, before := f[q], f[q - 1];
      }
    }
  }

  lemma SameRun(f: string, i: nat, k: nat, n: nat)
    requires Nesting.Repeats(f, i, i + n, '`') && Nesting.Repeats(f, k, k + n, '`')
    ensures RunEnd(f, k, '`') == k + n && f[k..k + n] == f[i..i + n]
  {
    RunEndIs(f, k, k + n, '`');
  }

  /** A run of another length does not close the code. */
  lemma OtherRun(f: string, i: nat, n: nat, k: nat, m: nat)
    requires i + n <= k < |f| && f[k] == '`' && m == RunEnd(f, k, '`') && f[k..m] != f[i..i + n]
    requires Nesting.Repeats(f, i, i + n, '`')
    ensures !Nesting.Repeats(f, k, k + n, '`')
    ensures forall l :: k <= l < m ==> f[l] == '`'
  {
    if Nesting.Repeats(f, k, k + n, '`') {
      SameRun(f, i, k, n);
    }
  }

  /** The scan reaches `p`, the next state in running text, and looks at nothing before. */
  ghost predicate Arrives(u: Tables, f: string, s: Scan, p: Scan) {
    && s.i < p.i && AtText(f, p) && ScanFrom(u, f, s) == ScanFrom(u, f, p)
    && forall e: nat :: ClosedAt(u, f, s, e) == (if e >= p.i then ClosedAt(u, f, p, e) else e == s.i && Balanced(s))
  }

  lemma StepArrives(u: Tables, f: string, s: Scan)
    requires s.i < |f| && AtText(f, Step(u, f, s))
    ensures Arrives(u, f, s, Step(u, f, s))
  {
    hide Step, Balanced;
    var p := Step(u, f, s);
    forall e: nat ensures ClosedAt(u, f, s, e) == (if e >= p.i then ClosedAt(u, f, p, e) else e == s.i && Balanced(s)) {
    }
  }

  /** Inline code is skipped as a whole, or never left. */
  lemma SkipCode(u: Tables, f: string, s: Scan) returns (closed: bool, j: nat)
    requires RunningText(f) && AtText(f, s) && s.i < |f| && f[s.i] == '`'
    ensures closed ==> Piece(f, s.i, j) && Arrives(u, f, s, s.(i := j))
    ensures !closed ==> (forall j: nat :: !Piece(f, s.i, j)) && ScanFrom(u, f, s).boundaries == s.boundaries
    ensures !closed ==> forall e: nat :: e > s.i ==> !ClosedAt(u, f, s, e)
  {
    NoLineMode(f, s);
    var m := RunEnd(f, s.i, '`');
    var n := m - s.i;
    var c := s.(i := m, inline := f[s.i..m]);
    assert Step(u, f, s) == c;
    hide Step, LineMode, RunningText;
    closed, j := ReadCode(u, f, c, s.i, n);
    if closed {
      var p := s.(i := j);
      CodeScanned(u, f, c, p);
      forall e: nat ensures ClosedAt(u, f, s, e) == (if e >= p.i then ClosedAt(u, f, p, e) else e == s.i && Balanced(s)) {
        CodeClosedAt(u, f, c, p, e);
      }
    } else {
      forall e: nat | e > s.i ensures !ClosedAt(u, f, s, e) {
        LostClosedAt(u, f, c, e);
      }
      OneLength(f, s.i, n);
    }
  }

  /** Inline code opens with the whole run of backticks. */
  lemma OneLength(f: string, i: nat, n: nat)
    requires i < |f| && f[i] == '`' && Nesting.Repeats(f, i, i + n, '`') && forall j: nat :: !CodeSpan(f, i, n, j)
    ensures forall j: nat :: !Piece(f, i, j)
  {
    forall j: nat, m: nat ensures !CodeSpan(f, i, m, j) {
      CodeLength(f, i, n, m, j);
    }
  }

  lemma CodeLength(f: string, i: nat, n: nat, m: nat, j: nat)
    requires Nesting.Repeats(f, i, i + n, '`')
    ensures CodeSpan(f, i, m, j) ==> m == n
  {
    if CodeSpan(f, i, m, j) {
      RunUnique(f, i, i + m, i + n, '`');
    }
  }

  /** A piece that is plain in both layers: an escaped character or inline code. */
  lemma SkippedIsPlain(u: Tables, f: string, i: nat, j: nat, brackets: string, emphasis: string)
    requires Piece(f, i, j) && (f[i] == '\\' || f[i] == '`')
    ensures Plays(Plain, Brackets, u, f, i, j, brackets) && Plays(Plain, Emphasis, u, f, i, j, emphasis)
  {
    hide CodeSpan;
  }

  /** Both layers unwind. */
  ghost predicate BothUnwind(u: Tables, f: string, s: Scan, e: nat) {
    Unwinds(Brackets, u, f, s.i, e, Singles(s.brackets)) && Unwinds(Emphasis, u, f, s.i, e, s.emphasis)
  }

  /** The scan has nothing open at `e` exactly if the text up to there is made as the grammar says. */
  lemma {:induction false} ClosedFrom(u: Tables, f: string, s: Scan, e: nat)
    requires RunningText(f) && AtText(f, s) && s.valid && e <= |f|
    ensures ClosedAt(u, f, s, e) <==> BothUnwind(u, f, s, e)
    decreases |f| - s.i
  {
    hide Unwinds, Step, RunningText, CodeSpan, Piece;
    if s.i > e {
      if BothUnwind(u, f, s, e) {
        UnwindsForward(Brackets, u, f, s.i, e, Singles(s.brackets));
      }
    } else if s.i == e {
      UnwindsEnd(Brackets, u, f, e, Singles(s.brackets));
      UnwindsEnd(Emphasis, u, f, e, s.emphasis);
    } else if f[s.i] == '`' {
      var closed, j := SkipCode(u, f, s);
      if closed {
        ClosedFrom(u, f, s.(i := j), e);
        SkippedUnwinds(u, f, s, j, e);
      } else {
        UnwindsNoPiece(Brackets, u, f, s.i, e, Singles(s.brackets));
      }
    } else if f[s.i] == '\\' {
      if s.i + 1 < |f| {
        EscapeStep(u, f, s);
        ClosedFrom(u, f, s.(i := s.i + 2), e);
        SkippedUnwinds(u, f, s, s.i + 2, e);
      } else {
        LastBackslash(u, f, s);
        InvalidStays(u, f, Step(u, f, s), e);
        UnwindsNoPiece(Brackets, u, f, s.i, e, Singles(s.brackets));
      }
    } else {
      TokenStep(u, f, s);
      TokenUnwinds(u, f, s, e);
      if Step(u, f, s).valid {
        ClosedFrom(u, f, Step(u, f, s), e);
      } else {
        InvalidStays(u, f, Step(u, f, s), e);
      }
    }
  }

  lemma SkippedUnwinds(u: Tables, f: string, s: Scan, j: nat, e: nat)
    requires s.i < e && Piece(f, s.i, j) && (f[s.i] == '\\' || f[s.i] == '`')
    ensures BothUnwind(u, f, s, e) <==> BothUnwind(u, f, s.(i := j), e)
  {
    SkippedIsPlain(u, f, s.i, j, Top(Singles(s.brackets)), Top(s.emphasis));
    UnwindsPlain(Brackets, u, f, s.i, j, e, Singles(s.brackets));
    UnwindsPlain(Emphasis, u, f, s.i, j, e, s.emphasis);
    hide Unwinds, Piece, Plays;
  }

  /** A piece of running text turns each layer as its role says. */
  lemma TokenUnwinds(u: Tables, f: string, s: Scan, e: nat)
    requires s.i < e && s.i < |f| && s.valid && Piece(f, s.i, Step(u, f, s).i)
    requires var s' := Step(u, f, s);
             && Turned(EmphasisRole(u, f, s.i, s'.i, Top(s.emphasis)), s.emphasis, f[s.i..s'.i], s'.emphasis)
             && Turned(BracketRole(u, f, s.i, s'.i, Top(Singles(s.brackets))), Singles(s.brackets), f[s.i..s'.i], Singles(s'.brackets))
             && s'.valid == (s.valid && EmphasisRole(u, f, s.i, s'.i, Top(s.emphasis)) != Breaks
                             && BracketRole(u, f, s.i, s'.i, Top(Singles(s.brackets))) != Breaks)
    ensures BothUnwind(u, f, s, e) <==> Step(u, f, s).valid && BothUnwind(u, f, Step(u, f, s), e)
  {
    var s' := Step(u, f, s);
    hide Step, EmphasisRole, BracketRole;
    TurnedUnwinds(Brackets, u, f, s.i, s'.i, e, Singles(s.brackets), Singles(s'.brackets));
    TurnedUnwinds(Emphasis, u, f, s.i, s'.i, e, s.emphasis, s'.emphasis);
    hide Unwinds, Piece, Turned, Singles;
  }

  lemma TurnedUnwinds(layer: Layer, u: Tables, f: string, i: nat, j: nat, e: nat, stack: seq<string>, stack': seq<string>)
    requires i < e && Piece(f, i, j) && i < j <= |f|
    requires Turned(RoleOf(layer, u, f, i, j, Top(stack)), stack, f[i..j], stack')
    ensures Unwinds(layer, u, f, i, e, stack)
            <==> RoleOf(layer, u, f, i, j, Top(stack)) != Breaks && Unwinds(layer, u, f, j, e, stack')
  {
    hide RoleOf, Unwinds, Piece;
    match RoleOf(layer, u, f, i, j, Top(stack))
    case Plain => UnwindsPlain(layer, u, f, i, j, e, stack);
    case Opens => UnwindsOpens(layer, u, f, i, j, e, stack);
    case Closes => UnwindsCloses(layer, u, f, i, j, e, stack);
    case Breaks => UnwindsBreaks(layer, u, f, i, j, e, stack);
  }
}
