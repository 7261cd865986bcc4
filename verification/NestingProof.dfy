/** The scanner calls a text balanced exactly when it closes what it opens, and places its boundaries exactly where a
    sentence or a line ends with nothing open. */
module NestingProof {
  import opened Runes
  import opened Scanner
  import opened ScanStructure
  import opened ResumeExact
  import opened Resume
  import opened Nesting

  /** The test for a bare list item, read from the line. */
  lemma BareItemIsEmpty(line: string)
    ensures BareItem(line) <==> EmptyListLine(line)
  {
    if EmptyListLine(line) {
      EmptyIsBare(line);
    }
    if BareItem(line) {
      var a: nat, b: nat :| ItemAt(line, a, b);
      ItemIsEmpty(line, a, b);
    }
  }

  lemma EmptyIsBare(line: string)
    requires EmptyListLine(line)
    ensures BareItem(line)
  {
    var k := BlankEnd(line, 0);
    var d := DigitEnd(line, k);
    assert AllBlank(line[..k]);
    if line[k] in {'-', '+', '*'} && AllBlank(line[k + 1..]) {
      assert line[k..k + 1] == [line[k]];
      assert ItemAt(line, k, k + 1);
    } else {
      assert AllDigits(line[k..d]);
      assert ItemAt(line, k, d + 1);
    }
  }

  lemma ItemIsEmpty(line: string, a: nat, b: nat)
    requires ItemAt(line, a, b)
    ensures EmptyListLine(line)
  {
    var marker := line[a..b];
    assert marker[0] == line[a] && marker[|marker| - 1] == line[b - 1];
    if marker in {"-", "+", "*"} {
      BlankEndIs(line, a);
    } else {
      assert line[a..b - 1][0] in line[a..b - 1];
      BlankEndIs(line, a);
      DigitEndIs(line, a, b - 1);
    }
  }

  lemma BlankEndIs(line: string, a: nat)
    requires a < |line| && AllBlank(line[..a]) && !IsBlank(line[a])
    ensures BlankEnd(line, 0) == a
  {
    forall k | 0 <= k < a ensures IsBlank(line[k]) {
      assert line[..a][k] in line[..a];
    }
  }

  lemma DigitEndIs(line: string, a: nat, d: nat)
    requires a <= d < |line| && AllDigits(line[a..d]) && !IsAsciiDigit(line[d])
    ensures DigitEnd(line, a) == d
  {
    forall k | a <= k < d ensures IsAsciiDigit(line[k]) {
      assert line[a..d][k - a] in line[a..d];
    }
  }

  lemma FenceLineIsMarked(line: string)
    ensures FenceLine(line) <==> FenceMarker(line) != ""
  {
    var k := Indent(line);
    if FenceMarker(line) != "" {
      var m := line[k..k + 3];
      assert m == "```" || m == "~~~";
      assert FenceAt(line, k);
    }
    if FenceLine(line) {
      var a: nat :| FenceAt(line, a);
      assert line[a..a + 3][0] == line[a] && line[a..a + 3][1] == line[a + 1] && line[a..a + 3][2] == line[a + 2];
      assert k == a;
    }
  }

  lemma MarkerIsRun(line: string, a: nat, b: nat)
    requires FenceRun(line, a, b)
    ensures FenceMarker(line) == line[a..b] && Indent(line) == a
  {
    assert line[a..a + 3][0] == line[a] && line[a..a + 3][1] == line[a + 1] && line[a..a + 3][2] == line[a + 2];
    RunEndIs(line, a, b, line[a]);
    hide FenceAt;
  }

  lemma MarkerRun(line: string) returns (b: nat)
    requires FenceMarker(line) != ""
    ensures FenceRun(line, Indent(line), b) && FenceMarker(line) == line[Indent(line)..b]
  {
    var a := Indent(line);
    b := a + |FenceMarker(line)|;
    assert line[a..a + 3] == [line[a], line[a + 1], line[a + 2]];
  }

  /** A fence is closed exactly by a line that ends it. */
  lemma FenceCloses(fence: string, line: string)
    requires |fence| >= 3 && IsFenceChar(fence[0])
    ensures FenceAfter(fence, line) == if EndsFence(fence, line) then "" else fence
  {
    if EndsFence(fence, line) {
      var a: nat, b: nat :| FenceEnd(fence, line, a, b);
      EndIsRun(fence, line, a, b);
      MarkerIsRun(line, a, b);
      hide FenceMarker, Indent;
    }
    if FenceAfter(fence, line) == "" {
      var b := MarkerRun(line);
      assert FenceEnd(fence, line, Indent(line), b) by {
        hide FenceMarker, Indent;
      }
    }
  }

  lemma EndIsRun(fence: string, line: string, a: nat, b: nat)
    requires |fence| >= 3 && IsFenceChar(fence[0]) && FenceEnd(fence, line, a, b)
    ensures FenceRun(line, a, b) && line[a..b][0] == fence[0] && |line[a..b]| >= |fence|
  {
    assert line[a..a + 3] == [fence[0], fence[0], fence[0]];
    if b < |line| {
      assert line[b] in line[b..];
    }
  }

  /** The offset behind the line. */
  function NextLine(f: string, i: nat): nat
    requires i <= |f|
  {
    if LineEnd(f, i) < |f| then LineEnd(f, i) + 1 else |f|
  }

  /** With nothing open, a bare list item breaks the text, and a fence line opens a fence. */
  lemma WholeLine(u: Tables, f: string, s: Scan)
    requires s.i < |f| && AtLineStart(f, s.i) && Quiet(s)
    ensures var line, s' := CurrentLine(f, s.i), Step(u, f, s);
            && (BareItem(line) ==> s' == s.(i := NextLine(f, s.i), valid := false))
            && (!BareItem(line) && FenceLine(line) ==>
                  && s' == s.(i := NextLine(f, s.i), fence := s'.fence, pending := false) && s'.fence != ""
                  && exists b: nat :: FenceRun(line, Indent(line), b) && s'.fence == line[Indent(line)..b])
  {
    var line := CurrentLine(f, s.i);
    BareItemIsEmpty(line);
    FenceLineIsMarked(line);
    hide BareItem, FenceLine, EmptyListLine, Append, Indent;
    if !BareItem(line) && FenceLine(line) {
      var b := MarkerRun(line);
      hide FenceMarker, FenceRun;
      assert Step(u, f, s) == LineStep(f, s);
      assert FenceAfter("", line) == FenceMarker(line);
    }
  }

  /** A fence goes on until a line ends it, and behind that line the text may be committed. */
  lemma FencedLine(u: Tables, f: string, s: Scan)
    requires s.i < |f| && AtLineStart(f, s.i) && |s.fence| >= 3 && IsFenceChar(s.fence[0])
    ensures var line, next := CurrentLine(f, s.i), NextLine(f, s.i);
            Step(u, f, s) == if !EndsFence(s.fence, line) then s.(i := next, pending := false)
                             else s.(i := next, fence := "", pending := false,
                                     boundaries := if LineEnd(f, s.i) < |f| then Append(s.boundaries, next) else s.boundaries)
  {
    FenceCloses(s.fence, CurrentLine(f, s.i));
    hide EndsFence, EmptyListLine, FenceMarker, FenceAfter, Append;
  }

  /** In running text, no line is taken as a whole. */
  lemma NoLineMode(f: string, s: Scan)
    requires RunningText(f) && s.i < |f| && s.fence == ""
    ensures !LineMode(f, s)
  {
    hide EmptyListLine, FenceMarker, BareItem, FenceLine;
    if AtLineStart(f, s.i) {
      BareItemIsEmpty(CurrentLine(f, s.i));
      FenceLineIsMarked(CurrentLine(f, s.i));
    }
  }

  lemma {:induction false} TrimLeftIs(p: string) returns (a: nat)
    ensures a <= |p| && TrimLeft(p) == p[a..] && AllSpace(p[..a])
  {
    if p == "" || !IsSpace(p[0]) {
      a := 0;
    } else {
      var n := TrimLeftIs(p[1..]);
      a := n + 1;
      assert p[..a] == [p[0]] + p[1..][..n] && p[1..][n..] == p[a..];
    }
  }

  lemma {:induction false} TrimRightIs(p: string) returns (n: nat)
    ensures n <= |p| && TrimRight(p) == p[..n] && AllSpace(p[n..])
  {
    if p == "" || !IsSpace(p[|p| - 1]) {
      n := |p|;
    } else {
      var init := p[..|p| - 1];
      n := TrimRightIs(init);
      assert p[n..] == init[n..] + [p[|p| - 1]] && init[..n] == p[..n];
    }
  }

  lemma {:induction false} TrimLeftSpaces(a: string, q: string)
    requires AllSpace(a) && (q == "" || !IsSpace(q[0]))
    ensures TrimLeft(a + q) == q
  {
    if a == "" {
      assert a + q == q;
    } else {
      assert a[0] in a && forall c :: c in a[1..] ==> c in a;
      assert (a + q)[1..] == a[1..] + q;
      TrimLeftSpaces(a[1..], q);
    }
  }

  lemma {:induction false} TrimRightSpaces(q: string, b: string)
    requires AllSpace(b) && (q == "" || !IsSpace(q[|q| - 1]))
    ensures TrimRight(q + b) == q
  {
    if b == "" {
      assert q + b == q;
    } else {
      var init := b[..|b| - 1];
      assert b[|b| - 1] in b && forall c :: c in init ==> c in b;
      assert (q + b)[..|q + b| - 1] == q + init;
      TrimRightSpaces(q, init);
    }
  }

  /** White space around a number, and nothing else, trims to the number. */
  lemma NumberTrims(a: string, digits: string, b: string)
    requires AllSpace(a) && AllSpace(b) && digits != "" && AllDigits(digits)
    ensures NumberPrefix(a + digits + b)
  {
    assert digits[0] in digits && digits[|digits| - 1] in digits;
    assert a + digits + b == a + (digits + b);
    TrimLeftSpaces(a, digits + b);
    TrimRightSpaces(digits, b);
  }

  lemma NumberIs(f: string, i: nat)
    requires i <= |f|
    ensures AfterNumber(f, i) <==> NumberPrefix(LinePrefix(f, i))
  {
    var p := LinePrefix(f, i);
    if NumberPrefix(p) {
      hide NumberPrefix;
      NumberSplits(p);
      NumberAfter(f, i);
    }
    if AfterNumber(f, i) {
      AfterTrims(f, i);
    }
  }

  lemma AfterTrims(f: string, i: nat)
    requires i <= |f| && AfterNumber(f, i)
    ensures NumberPrefix(LinePrefix(f, i))
  {
    hide NumberPrefix, LinePrefix, AllSpace, AllDigits;
    var b: nat, c: nat, d: nat :| b <= c < d <= i && AtLineStart(f, b) && NEWLINE !in f[b..i]
      && AllSpace(f[b..c]) && AllDigits(f[c..d]) && AllSpace(f[d..i]);
    LineStartAt(f, b, i);
    NumberTrims(f[b..c], f[c..d], f[d..i]);
    assert f[b..i] == f[b..c] + f[c..d] + f[d..i];
  }

  lemma LineStartAt(f: string, b: nat, i: nat)
    requires b <= i <= |f| && AtLineStart(f, b) && NEWLINE !in f[b..i]
    ensures LinePrefix(f, i) == f[b..i]
  {
    LineStartIs(f, b, i);
  }

  ghost predicate NumberIn(p: string) {
    exists c: nat, d: nat :: c < d <= |p| && AllSpace(p[..c]) && AllDigits(p[c..d]) && AllSpace(p[d..])
  }

  lemma NumberSplits(p: string)
    requires NumberPrefix(p)
    ensures NumberIn(p)
  {
    var a := TrimLeftIs(p);
    var q := p[a..];
    var n := TrimRightIs(q);
    assert q[..n] == p[a..a + n] && q[n..] == p[a + n..];
    assert TrimSpace(p) == p[a..a + n];
  }

  lemma NumberAfter(f: string, i: nat)
    requires i <= |f| && NumberIn(LinePrefix(f, i))
    ensures AfterNumber(f, i)
  {
    var p, b := LinePrefix(f, i), LineStart(f, i);
    assert p == f[b..i];
    hide AllSpace, AllDigits, LineStart, LinePrefix, AfterNumber;
    var c: nat, d: nat :| c < d <= |p| && AllSpace(p[..c]) && AllDigits(p[c..d]) && AllSpace(p[d..]);
    SliceOf(f, b, i, 0, c);
    SliceOf(f, b, i, c, d);
    SliceOf(f, b, i, d, |p|);
    assert p[..c] == p[0..c] && p[d..] == p[d..|p|];
    AfterNumberBy(f, i, b, b + c, b + d);
  }

  lemma AfterNumberBy(f: string, i: nat, b: nat, c: nat, d: nat)
    requires b <= c < d <= i <= |f| && AtLineStart(f, b) && NEWLINE !in f[b..i]
    requires AllSpace(f[b..c]) && AllDigits(f[c..d]) && AllSpace(f[d..i])
    ensures AfterNumber(f, i)
  {
    hide AllSpace, AllDigits;
  }

  lemma SliceOf(f: string, b: nat, i: nat, c: nat, d: nat)
    requires b + c <= b + d <= i <= |f|
    ensures f[b..i][c..d] == f[b + c..b + d]
  {
    assert forall k :: 0 <= k < d - c ==> f[b..i][c..d][k] == f[b + c + k] == f[b + c..b + d][k];
  }

  lemma FirstIs(f: string, i: nat)
    requires i <= |f|
    ensures FirstOnLine(f, i) <==> AllSpace(LinePrefix(f, i))
  {
    if FirstOnLine(f, i) {
      var b: nat :| b <= i && AtLineStart(f, b) && NEWLINE !in f[b..i] && AllSpace(f[b..i]);
      LineStartIs(f, b, i);
    }
  }

  // Pieces.

  lemma PieceUnique(f: string, i: nat, j: nat, k: nat)
    requires Piece(f, i, j) && Piece(f, i, k)
    ensures j == k
  {
    if f[i] == '`' {
      var n: nat :| CodeSpan(f, i, n, j);
      var m: nat :| CodeSpan(f, i, m, k);
      CodeUnique(f, i, n, j, m, k);
    } else if EmphasisChar(f[i]) {
      RunUnique(f, i, j, k, f[i]);
    }
  }

  lemma CodeUnique(f: string, i: nat, n: nat, j: nat, m: nat, k: nat)
    requires CodeSpan(f, i, n, j) && CodeSpan(f, i, m, k)
    ensures n == m && j == k
  {
    RunUnique(f, i, i + n, i + m, '`');
    CodeFirst(f, i, n, j, k);
    CodeFirst(f, i, n, k, j);
  }

  lemma CodeFirst(f: string, i: nat, n: nat, j: nat, k: nat)
    requires CodeSpan(f, i, n, j) && CodeSpan(f, i, n, k)
    ensures j <= k
  {
    var q := k - n;
    assert f[q] == '`' && Repeats(f, q, q + n, '`');
  }

  lemma RunEndIs(f: string, i: nat, j: nat, c: char)
    requires Repeats(f, i, j, c)
    ensures RunEnd(f, i, c) == j
  {
  }

  lemma RunUnique(f: string, i: nat, j: nat, k: nat, c: char)
    requires Repeats(f, i, j, c) && Repeats(f, i, k, c)
    ensures j == k
  {
    RunEndIs(f, i, j, c);
    RunEndIs(f, i, k, c);
  }

  // The rest of a text, inside the pieces that are open.

  function Top(stack: seq<string>): string {
    if stack == [] then "" else stack[|stack| - 1]
  }

  /** The text between two offsets closes the pieces that are open, from the innermost on, and nothing else is open. */
  ghost predicate Unwinds(layer: Layer, u: Tables, f: string, i: nat, e: nat, stack: seq<string>)
    decreases |stack|, 1
  {
    exists n: Nest :: Made(layer, u, f, i, n, Top(stack)) && Ends(layer, u, f, i + Span(n), e, stack)
  }

  ghost predicate Ends(layer: Layer, u: Tables, f: string, m: nat, e: nat, stack: seq<string>)
    decreases |stack|, 0
  {
    if stack == [] then m == e
    else exists j: nat :: Plays(Closes, layer, u, f, m, j, Top(stack)) && Unwinds(layer, u, f, j, e, stack[..|stack| - 1])
  }

  lemma UnwindsBy(layer: Layer, u: Tables, f: string, i: nat, e: nat, stack: seq<string>, n: Nest, m: nat)
    requires Made(layer, u, f, i, n, Top(stack)) && m == i + Span(n) && Ends(layer, u, f, m, e, stack)
    ensures Unwinds(layer, u, f, i, e, stack)
  {
    hide Made, Ends, Span;
  }

  lemma UnwindsOf(layer: Layer, u: Tables, f: string, i: nat, e: nat, stack: seq<string>) returns (n: Nest, m: nat)
    requires Unwinds(layer, u, f, i, e, stack)
    ensures Made(layer, u, f, i, n, Top(stack)) && m == i + Span(n) && Ends(layer, u, f, m, e, stack)
  {
    hide Made, Ends, Span;
    n :| Made(layer, u, f, i, n, Top(stack)) && Ends(layer, u, f, i + Span(n), e, stack);
    m := i + Span(n);
  }

  lemma EndsBy(layer: Layer, u: Tables, f: string, m: nat, j: nat, e: nat, stack: seq<string>)
    requires stack != [] && Plays(Closes, layer, u, f, m, j, Top(stack)) && Unwinds(layer, u, f, j, e, stack[..|stack| - 1])
    ensures Ends(layer, u, f, m, e, stack)
  {
    hide Plays, Unwinds;
  }

  lemma EndsOf(layer: Layer, u: Tables, f: string, m: nat, e: nat, stack: seq<string>) returns (j: nat)
    requires stack != [] && Ends(layer, u, f, m, e, stack)
    ensures Plays(Closes, layer, u, f, m, j, Top(stack)) && Unwinds(layer, u, f, j, e, stack[..|stack| - 1])
  {
    hide Plays, Unwinds;
    j :| Plays(Closes, layer, u, f, m, j, Top(stack)) && Unwinds(layer, u, f, j, e, stack[..|stack| - 1]);
  }

  lemma EndsEmpty(layer: Layer, u: Tables, f: string, m: nat, e: nat)
    ensures Ends(layer, u, f, m, e, []) <==> m == e
  {
    hide Unwinds;
  }

  lemma MadeDone(layer: Layer, u: Tables, f: string, i: nat, top: string)
    ensures Made(layer, u, f, i, Done, top) && Span(Done) == 0
  {
  }

  lemma MadeWord(layer: Layer, u: Tables, f: string, i: nat, w: nat, rest: Nest, top: string)
    ensures Made(layer, u, f, i, Word(w, rest), top)
            <==> Plays(Plain, layer, u, f, i, i + w, top) && Made(layer, u, f, i + w, rest, top)
    ensures Span(Word(w, rest)) == w + Span(rest)
  {
    hide Plays;
  }

  lemma MadePair(layer: Layer, u: Tables, f: string, i: nat, o: nat, inside: Nest, c: nat, rest: Nest, top: string)
    requires i + o <= |f|
    ensures var m := i + o + Span(inside);
            Made(layer, u, f, i, Pair(o, inside, c, rest), top)
            <==> && Plays(Opens, layer, u, f, i, i + o, top) && Made(layer, u, f, i + o, inside, f[i..i + o])
                 && Plays(Closes, layer, u, f, m, m + c, f[i..i + o]) && Made(layer, u, f, m + c, rest, top)
    ensures Span(Pair(o, inside, c, rest)) == o + Span(inside) + c + Span(rest)
  {
    hide Plays;
  }

  lemma PairFits(layer: Layer, u: Tables, f: string, i: nat, n: Nest, top: string)
    requires n.Pair? && Made(layer, u, f, i, n, top)
    ensures i + n.open <= |f|
  {
    hide RoleOf, CodeSpan;
  }

  lemma PlaysWithin(layer: Layer, u: Tables, f: string, i: nat, j: nat, top: string, role: Role)
    requires Plays(role, layer, u, f, i, j, top)
    ensures i < j <= |f|
  {
    hide RoleOf;
  }

  lemma PlaysUnique(layer: Layer, u: Tables, f: string, i: nat, j: nat, k: nat, top: string, a: Role, b: Role)
    requires Plays(a, layer, u, f, i, j, top) && Plays(b, layer, u, f, i, k, top)
    ensures j == k && a == b
  {
    PieceUnique(f, i, j, k);
    hide RoleOf;
  }

  lemma {:induction false} UnwindsForward(layer: Layer, u: Tables, f: string, i: nat, e: nat, stack: seq<string>)
    requires Unwinds(layer, u, f, i, e, stack)
    ensures i <= e && (i == e ==> stack == [])
    decreases |stack|
  {
    hide Made, Ends, Unwinds, Span, Plays;
    var n, m := UnwindsOf(layer, u, f, i, e, stack);
    if stack == [] {
      EndsEmpty(layer, u, f, m, e);
    } else {
      var j := EndsOf(layer, u, f, m, e, stack);
      PlaysWithin(layer, u, f, m, j, Top(stack), Closes);
      UnwindsForward(layer, u, f, j, e, stack[..|stack| - 1]);
    }
  }

  /** At the end nothing may be open. */
  lemma UnwindsEnd(layer: Layer, u: Tables, f: string, e: nat, stack: seq<string>)
    ensures Unwinds(layer, u, f, e, e, stack) <==> stack == []
  {
    hide Made, Ends, Unwinds, Span;
    if stack == [] {
      MadeDone(layer, u, f, e, "");
      EndsEmpty(layer, u, f, e, e);
      UnwindsBy(layer, u, f, e, e, stack, Done, e);
    } else if Unwinds(layer, u, f, e, e, stack) {
      UnwindsForward(layer, u, f, e, e, stack);
    }
  }

  /** What the first piece does says how the text is made. */
  lemma FirstPiece(layer: Layer, u: Tables, f: string, i: nat, j: nat, e: nat, stack: seq<string>, n: Nest, m: nat, role: Role)
    requires i < e && Plays(role, layer, u, f, i, j, Top(stack))
    requires Made(layer, u, f, i, n, Top(stack)) && m == i + Span(n) && Ends(layer, u, f, m, e, stack)
    ensures role == Plain ==> n.Word? && n.width == j - i
    ensures role == Opens ==> n.Pair? && n.open == j - i
    ensures role == Closes ==> n.Done? && stack != [] && Unwinds(layer, u, f, j, e, stack[..|stack| - 1])
    ensures role != Breaks && i < j
  {
    hide Made, Ends, Unwinds, Span, Plays;
    PlaysWithin(layer, u, f, i, j, Top(stack), role);
    match n
    case Done =>
      MadeDone(layer, u, f, i, Top(stack));
      EndsEmpty(layer, u, f, i, e);
      var k := EndsOf(layer, u, f, i, e, stack);
      PlaysUnique(layer, u, f, i, j, k, Top(stack), role, Closes);
    case Word(w, rest) =>
      MadeWord(layer, u, f, i, w, rest, Top(stack));
      PlaysUnique(layer, u, f, i, j, i + w, Top(stack), role, Plain);
    case Pair(o, inside, c, rest) =>
      PairFits(layer, u, f, i, n, Top(stack));
      MadePair(layer, u, f, i, o, inside, c, rest, Top(stack));
      PlaysUnique(layer, u, f, i, j, i + o, Top(stack), role, Opens);
  }

  /** A plain piece changes nothing. */
  lemma UnwindsPlain(layer: Layer, u: Tables, f: string, i: nat, j: nat, e: nat, stack: seq<string>)
    requires i < e && Plays(Plain, layer, u, f, i, j, Top(stack))
    ensures Unwinds(layer, u, f, i, e, stack) <==> Unwinds(layer, u, f, j, e, stack)
  {
    hide Made, Ends, Unwinds, Span, Plays;
    PlaysWithin(layer, u, f, i, j, Top(stack), Plain);
    if Unwinds(layer, u, f, j, e, stack) {
      var n, m := UnwindsOf(layer, u, f, j, e, stack);
      MadeWord(layer, u, f, i, j - i, n, Top(stack));
      UnwindsBy(layer, u, f, i, e, stack, Word(j - i, n), m);
    }
    if Unwinds(layer, u, f, i, e, stack) {
      var n, m := UnwindsOf(layer, u, f, i, e, stack);
      FirstPiece(layer, u, f, i, j, e, stack, n, m, Plain);
      MadeWord(layer, u, f, i, n.width, n.rest, Top(stack));
      UnwindsBy(layer, u, f, j, e, stack, n.rest, m);
    }
  }

  /** An opening piece is open from then on. */
  lemma UnwindsOpens(layer: Layer, u: Tables, f: string, i: nat, j: nat, e: nat, stack: seq<string>)
    requires i < e && Plays(Opens, layer, u, f, i, j, Top(stack)) && i <= j <= |f|
    ensures Unwinds(layer, u, f, i, e, stack) <==> Unwinds(layer, u, f, j, e, stack + [f[i..j]])
  {
    hide Made, Ends, Unwinds, Span, Plays;
    var marker, inner := f[i..j], stack + [f[i..j]];
    assert inner[..|inner| - 1] == stack && Top(inner) == marker;
    if Unwinds(layer, u, f, j, e, inner) {
      var n, m := UnwindsOf(layer, u, f, j, e, inner);
      var k := EndsOf(layer, u, f, m, e, inner);
      PlaysWithin(layer, u, f, m, k, marker, Closes);
      var rest, l := UnwindsOf(layer, u, f, k, e, stack);
      MadePair(layer, u, f, i, j - i, n, k - m, rest, Top(stack));
      UnwindsBy(layer, u, f, i, e, stack, Pair(j - i, n, k - m, rest), l);
    }
    if Unwinds(layer, u, f, i, e, stack) {
      var n, l := UnwindsOf(layer, u, f, i, e, stack);
      FirstPiece(layer, u, f, i, j, e, stack, n, l, Opens);
      MadePair(layer, u, f, i, n.open, n.inside, n.close, n.rest, Top(stack));
      var m := j + Span(n.inside);
      UnwindsBy(layer, u, f, m + n.close, e, stack, n.rest, l);
      EndsBy(layer, u, f, m, m + n.close, e, inner);
      UnwindsBy(layer, u, f, j, e, inner, n.inside, m);
    }
  }

  /** A closing piece closes the innermost open one. */
  lemma UnwindsCloses(layer: Layer, u: Tables, f: string, i: nat, j: nat, e: nat, stack: seq<string>)
    requires i < e && Plays(Closes, layer, u, f, i, j, Top(stack)) && stack != []
    ensures Unwinds(layer, u, f, i, e, stack) <==> Unwinds(layer, u, f, j, e, stack[..|stack| - 1])
  {
    hide Made, Ends, Unwinds, Span, Plays;
    if Unwinds(layer, u, f, j, e, stack[..|stack| - 1]) {
      EndsBy(layer, u, f, i, j, e, stack);
      MadeDone(layer, u, f, i, Top(stack));
      UnwindsBy(layer, u, f, i, e, stack, Done, i);
    }
    if Unwinds(layer, u, f, i, e, stack) {
      var n, m := UnwindsOf(layer, u, f, i, e, stack);
      FirstPiece(layer, u, f, i, j, e, stack, n, m, Closes);
    }
  }

  lemma UnwindsBreaks(layer: Layer, u: Tables, f: string, i: nat, j: nat, e: nat, stack: seq<string>)
    requires i < e && Plays(Breaks, layer, u, f, i, j, Top(stack))
    ensures !Unwinds(layer, u, f, i, e, stack)
  {
    hide Made, Ends, Unwinds, Span, Plays;
    if Unwinds(layer, u, f, i, e, stack) {
      var n, m := UnwindsOf(layer, u, f, i, e, stack);
      FirstPiece(layer, u, f, i, j, e, stack, n, m, Breaks);
    }
  }

  /** Where no piece begins, nothing is made. */
  lemma UnwindsNoPiece(layer: Layer, u: Tables, f: string, i: nat, e: nat, stack: seq<string>)
    requires i < e && forall j: nat :: !Piece(f, i, j)
    ensures !Unwinds(layer, u, f, i, e, stack)
  {
    assert forall j: nat, role, top :: !Plays(role, layer, u, f, i, j, top);
    hide Made, Ends, Unwinds, Span, Plays, Piece;
    if Unwinds(layer, u, f, i, e, stack) {
      var n, m := UnwindsOf(layer, u, f, i, e, stack);
      match n
      case Done =>
        MadeDone(layer, u, f, i, Top(stack));
        EndsEmpty(layer, u, f, i, e);
        var k := EndsOf(layer, u, f, i, e, stack);
      case Word(w, rest) => MadeWord(layer, u, f, i, w, rest, Top(stack));
      case Pair(o, inside, c, rest) =>
        PairFits(layer, u, f, i, n, Top(stack));
        MadePair(layer, u, f, i, o, inside, c, rest, Top(stack));
    }
  }
}
