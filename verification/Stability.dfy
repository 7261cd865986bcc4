/** Scanning growing text commits what one scan of the whole text commits, except at lines that are
    swallowed once they are complete. */
module Stability {
  import opened Runes
  import opened Scanner
  import opened ScanStructure
  import opened ScanPrefix

  /** A sentence is still waiting for its space at the start of a line that starts with two blanks and
      turns out to be a fence or an empty list item. Only an escaped line feed leaves a sentence waiting there. */
  ghost predicate Swallows(text: string, s: Scan) {
    && s.i < |text|
    && AtLineStart(text, s.i) && Balanced(s) && s.pending && LineMode(text, s)
    && var line := CurrentLine(text, s.i);
    |line| >= 2 && IsBlank(line[0]) && IsBlank(line[1])
  }

  ghost predicate SwallowsLater(u: Tables, text: string, s: Scan)
    decreases |text| - s.i
  {
    s.i < |text| && (Swallows(text, s) || SwallowsLater(u, text, Step(u, text, s)))
  }

  /** Some line of the text is swallowed. */
  ghost predicate SwallowsLine(u: Tables, text: string) {
    SwallowsLater(u, text, INITIAL)
  }

  /** Characters that cannot end a sentence, and no blank after the first character unless two lead. */
  ghost predicate Harmless(p: string) {
    && (forall c :: c in p ==> IsBlank(c) || IsAsciiDigit(c) || IsFenceChar(c))
    && (forall j :: 0 < j < |p| && IsBlank(p[j]) ==> IsBlank(p[0]) && IsBlank(p[1]))
  }

  lemma {:induction false} BlankEndOfPrefix(line: string, n: nat, i: nat)
    requires i <= n <= |line|
    ensures BlankEnd(line[..n], i) == if BlankEnd(line, i) < n then BlankEnd(line, i) else n
    decreases n - i
  {
    if i == n || !IsBlank(line[i]) {
    } else {
      BlankEndOfPrefix(line, n, i + 1);
    }
  }

  lemma {:induction false} DigitEndOfPrefix(line: string, n: nat, i: nat)
    requires i <= n <= |line|
    ensures DigitEnd(line[..n], i) == if DigitEnd(line, i) < n then DigitEnd(line, i) else n
    decreases n - i
  {
    if i == n || !IsAsciiDigit(line[i]) {
    } else {
      DigitEndOfPrefix(line, n, i + 1);
    }
  }

  /** What is seen of an empty list item before its marker. */
  lemma ListPrefixHarmless(line: string, n: nat)
    requires 0 < n <= |line| && EmptyListLine(line) && !EmptyListLine(line[..n])
    ensures Harmless(line[..n])
  {
    var p, k := line[..n], BlankEnd(line, 0);
    BlankEndOfPrefix(line, n, 0);
    if k < n {
      var d := DigitEnd(line, k);
      DigitEndOfPrefix(line, n, k);
      BlanksOfPrefix(line, n, k + 1);
      if d < n {
        BlanksOfPrefix(line, n, d + 1);
      }
    }
  }

  lemma BlanksOfPrefix(line: string, n: nat, i: nat)
    requires i <= n <= |line|
    ensures AllBlank(line[i..]) ==> AllBlank(line[..n][i..])
  {
    assert line[..n][i..] == line[i..][..n - i];
  }

  /** What is seen of a fence line before its marker is long enough. */
  lemma FencePrefixHarmless(line: string, n: nat)
    requires 0 < n <= |line| && FenceMarker(line) != "" && FenceMarker(line[..n]) == ""
    ensures Harmless(line[..n])
  {
    var k := Indent(line);
    RunEndOfPrefix(line, n, 0, ' ');
    if k < n {
      RunEndOfPrefix(line, n, k, line[k]);
      assert n - k < 3;
    }
  }

  ghost predicate SilentRest(q: string, i: nat) {
    forall j :: i <= j < |q| ==> IsBlank(q[j]) || IsAsciiDigit(q[j]) || IsFenceChar(q[j])
  }

  ghost predicate NoBlankAfter(q: string, i: nat) {
    forall j :: i < j < |q| ==> !IsBlank(q[j])
  }

  /** A harmless end of a line places no boundary, unless a sentence waits before two blanks. */
  lemma {:induction false} SilentTail(u: Tables, q: string, s: Scan)
    requires Shaped(q, s) && s.fence == "" && SilentRest(q, s.i)
    requires s.i < |q| ==> !LineMode(q, s)
    requires !s.pending || !s.valid || NoBlankAfter(q, s.i)
    ensures ScanFrom(u, q, s).boundaries == s.boundaries
    decreases |q| - s.i
  {
    if s.i >= |q| {
    } else {
      SilentStep(u, q, s);
      StepShaped(u, q, s);
      SilentTail(u, q, Step(u, q, s));
    }
  }

  lemma SilentStep(u: Tables, q: string, s: Scan)
    requires s.i < |q| && s.fence == "" && SilentRest(q, s.i) && !LineMode(q, s)
    requires !s.pending || !s.valid || NoBlankAfter(q, s.i)
    ensures var r := Step(u, q, s);
            && r.boundaries == s.boundaries && r.pending == s.pending && (r.valid ==> s.valid) && r.fence == ""
            && !AtLineStart(q, r.i)
  {
    var r := Step(u, q, s);
    if q[s.i] != '`' && s.inline == "" {
      SilentToken(u, s, TokenAt(q, s.i));
    }
  }

  lemma SilentToken(u: Tables, s: Scan, k: Token)
    requires k.c != NEWLINE && !IsStop(k.c)
    requires !s.pending || !s.valid || k.last || !IsSpace(k.next)
    ensures var r := TextStep(u, s, k);
            r.boundaries == s.boundaries && r.pending == s.pending && (r.valid ==> s.valid) && r.fence == s.fence
  {
  }

  /** Simulation: unless a line is swallowed from `s` on, scanning the prefix places a prefix of the boundaries. */
  lemma {:induction false} PrefixScan(u: Tables, f: string, k: nat, s: Scan)
    requires s.i <= k <= |f| && Shaped(f, s) && Shaped(f[..k], s)
    requires !SwallowsLater(u, f, s)
    ensures ScanFrom(u, f[..k], s).boundaries <= ScanFrom(u, f, s).boundaries
    decreases k - s.i
  {
    var q := f[..k];
    ScanShaped(u, f, s);
    if s.i >= k {
    } else {
      StepShaped(u, f, s);
      StepShaped(u, q, s);
      if LineMode(q, s) != LineMode(f, s) {
        PrefixScanLine(u, f, k, s);
      } else if Step(u, q, s).i < k {
        SameStep(u, f, k, s);
        PrefixScan(u, f, k, Step(u, f, s));
      } else {
        ScanShaped(u, f, Step(u, f, s));
        if LineMode(q, s) {
          PrefixScanLine(u, f, k, s);
        } else {
          LastStep(u, f, k, s);
        }
      }
    }
  }

  /** The cases in which the prefix ends inside a line whose kind is not known yet, or with a line. */
  lemma PrefixScanLine(u: Tables, f: string, k: nat, s: Scan)
    requires s.i < k <= |f| && Shaped(f, s) && Shaped(f[..k], s)
    requires !SwallowsLater(u, f, s)
    requires LineMode(f[..k], s) != LineMode(f, s) || (LineMode(f, s) && Step(u, f[..k], s).i == k)
    ensures ScanFrom(u, f[..k], s).boundaries <= ScanFrom(u, f, s).boundaries
  {
    var q := f[..k];
    ScanShaped(u, f, s);
    if LineEnd(f, s.i) < k {
      SameMode(f, k, s);
      StepShaped(u, f, s);
      ScanShaped(u, f, Step(u, f, s));
    } else {
      LineEndOfPrefix(f, k, s.i);
      if LineMode(q, s) {
        assert Step(u, q, s).boundaries == s.boundaries;
      } else {
        HiddenLine(f, k, s);
        SilentTail(u, q, s);
      }
    }
  }

  /** The line is taken whole once it is complete, but the prefix does not show that yet. */
  lemma HiddenLine(f: string, k: nat, s: Scan)
    requires s.i < k <= |f| && k <= LineEnd(f, s.i)
    requires LineMode(f, s) && !LineMode(f[..k], s) && !Swallows(f, s)
    ensures s.fence == "" && SilentRest(f[..k], s.i) && (!s.pending || !s.valid || NoBlankAfter(f[..k], s.i))
  {
    hide LineMode, WholeLine, Harmless, SilentRest, NoBlankAfter, EmptyListLine, FenceMarker;
    HiddenPrefix(f, k, s);
    var q, line := f[..k], CurrentLine(f, s.i);
    assert Harmless(q[s.i..]) by {
      LinePrefixHarmless(line, k - s.i);
    }
    HarmlessTail(q, s.i);
    assert q[s.i] == line[0];
    assert s.i + 1 < k ==> q[s.i + 1] == line[1];
  }

  ghost predicate WholeLine(line: string) {
    EmptyListLine(line) || FenceMarker(line) != ""
  }

  lemma LinePrefixHarmless(line: string, n: nat)
    requires 0 < n <= |line| && WholeLine(line) && !WholeLine(line[..n])
    ensures Harmless(line[..n])
  {
    if EmptyListLine(line) {
      ListPrefixHarmless(line, n);
    } else {
      FencePrefixHarmless(line, n);
    }
  }

  lemma HiddenPrefix(f: string, k: nat, s: Scan)
    requires s.i < k <= |f| && k <= LineEnd(f, s.i)
    requires LineMode(f, s) && !LineMode(f[..k], s)
    ensures s.fence == "" && Quiet(s) && AtLineStart(f, s.i)
    ensures var line := CurrentLine(f, s.i);
            && k - s.i <= |line| && line[..k - s.i] == f[..k][s.i..]
            && WholeLine(line) && !WholeLine(line[..k - s.i])
  {
    hide EmptyListLine, FenceMarker;
    LineEndOfPrefix(f, k, s.i);
    assert CurrentLine(f, s.i)[..k - s.i] == CurrentLine(f[..k], s.i) == f[..k][s.i..];
  }

  lemma HarmlessTail(q: string, i: nat)
    requires i < |q| && Harmless(q[i..])
    ensures SilentRest(q, i)
    ensures |q| - i < 2 || !IsBlank(q[i]) || !IsBlank(q[i + 1]) ==> NoBlankAfter(q, i)
  {
    var p := q[i..];
    assert forall j :: i <= j < |q| ==> q[j] == p[j - i];
  }

  /** Where a swallowed line starts, the prefix that ends after its two blanks commits inside the line. */
  lemma SwallowedCommit(u: Tables, f: string, s: Scan)
    requires Shaped(f, s) && Swallows(f, s)
    ensures s.i + 2 <= |f| && AtLineStart(f, s.i)
    ensures !(ScanFrom(u, f[..s.i + 2], s).boundaries <= ScanFrom(u, f, s).boundaries)
  {
    hide Step, Swallows;
    SwallowedStep(u, f, s);
    var q, n := f[..s.i + 2], |s.boundaries|;
    var s', t := Step(u, f, s), Step(u, q, s);
    StepShaped(u, f, s);
    StepShaped(u, q, s);
    ScanShaped(u, q, t);
    ScanShaped(u, f, s');
    var whole, part := ScanFrom(u, f, s).boundaries, ScanFrom(u, q, s).boundaries;
    assert part[n] == t.boundaries[n] == s.i + 1;
    if n < |whole| {
      if s.i + 1 in whole {
        LaterBoundary(u, f, s', s.i + 1);
      }
      assert whole[n] != s.i + 1;
    }
  }

  lemma SwallowedStep(u: Tables, f: string, s: Scan)
    requires Shaped(f, s) && Swallows(f, s)
    ensures s.i + 2 <= |f| && AtLineStart(f, s.i)
    ensures var t := Step(u, f[..s.i + 2], s); t.i == s.i + 1 && t.boundaries == s.boundaries + [s.i + 1]
    ensures var s' := Step(u, f, s); s'.i > s.i + 1 && s.i + 1 !in s'.boundaries
  {
    var k, line := s.i + 2, CurrentLine(f, s.i);
    var q := f[..k];
    assert f[s.i] == line[0] && f[s.i + 1] == line[1];
    assert !LineMode(q, s) by {
      LineEndOfPrefix(f, k, s.i);
      assert CurrentLine(q, s.i) == [line[0], line[1]];
      BlankPair(line[0], line[1]);
    }
    WaitingBlank(u, s, TokenAt(q, s.i));
    StepShaped(u, f, s);
  }

  lemma WaitingBlank(u: Tables, s: Scan, k: Token)
    requires Balanced(s) && s.pending && IsBlank(k.c) && !k.last && IsBlank(k.next)
    ensures TextStep(u, s, k).boundaries == Append(s.boundaries, k.end)
  {
  }

  lemma BlankPair(a: char, b: char)
    requires IsBlank(a) && IsBlank(b)
    ensures !EmptyListLine([a, b]) && FenceMarker([a, b]) == ""
  {
    assert BlankEnd([a, b], 2) == 2;
    assert BlankEnd([a, b], 1) == 2;
    assert BlankEnd([a, b], 0) == 2;
    assert DigitEnd([a, b], 2) == 2;
  }

  /** A scan that meets a swallowed line does so in every prefix that reaches the line. */
  lemma {:induction false} FindSwallowed(u: Tables, f: string, s: Scan) returns (k: nat)
    requires Shaped(f, s) && SwallowsLater(u, f, s)
    ensures s.i + 2 <= k <= |f|
    ensures !(ScanFrom(u, f[..k], s).boundaries <= ScanFrom(u, f, s).boundaries)
    ensures exists p: nat :: s.i <= p && p + 2 == k && AtLineStart(f, p)
    decreases |f| - s.i
  {
    hide Step, Swallows;
    if Swallows(f, s) {
      SwallowedCommit(u, f, s);
      k := s.i + 2;
    } else {
      StepShaped(u, f, s);
      k := FindSwallowed(u, f, Step(u, f, s));
      var p: nat :| Step(u, f, s).i <= p && p + 2 == k && AtLineStart(f, p);
      LineStartStops(f, s.i, p);
      SameMode(f, k, s);
      SameEarlierStep(u, f, k, s);
    }
  }

  lemma {:induction false} LineStartStops(f: string, i: nat, p: nat)
    requires i < p <= |f| && AtLineStart(f, p)
    ensures LineEnd(f, i) < p
    decreases p - i
  {
    if i + 1 >= p || f[i] == NEWLINE {
    } else {
      LineStartStops(f, i + 1, p);
    }
  }

  /** A step of the whole text that ends well before the end of the prefix is a step of the prefix. */
  lemma SameEarlierStep(u: Tables, f: string, k: nat, s: Scan)
    requires s.i < k <= |f| && LineMode(f[..k], s) == LineMode(f, s) && LineEnd(f, s.i) + 1 < k
    ensures Step(u, f[..k], s) == Step(u, f, s)
  {
    StepStaysInLine(u, f[..k], s);
    LineEndOfPrefix(f, k, s.i);
    SameStep(u, f, k, s);
  }

  /** Online stability, exactly: every prefix of a text commits a prefix of the text's boundaries,
      if and only if no line of the text is swallowed. */
  lemma OnlineStability(u: Tables, f: string)
    ensures (forall k: nat :: k <= |f| ==> Boundaries(u, f[..k]) <= Boundaries(u, f)) <==> !SwallowsLine(u, f)
  {
    if SwallowsLine(u, f) {
      var k := FindSwallowed(u, f, INITIAL);
      assert !(Boundaries(u, f[..k]) <= Boundaries(u, f));
    } else {
      forall k: nat | k <= |f| ensures Boundaries(u, f[..k]) <= Boundaries(u, f) {
        PrefixScan(u, f, k, INITIAL);
      }
    }
  }

  /** No backslash stands directly before a line feed. */
  ghost predicate NoEscapedNewline(f: string) {
    forall j :: 0 <= j < |f| - 1 ==> !(f[j] == '\\' && f[j + 1] == NEWLINE)
  }

  /** At the start of a line with nothing open, no sentence waits. */
  ghost predicate Settled(f: string, s: Scan) {
    s.i <= |f| && (AtLineStart(f, s.i) && Balanced(s) ==> !s.pending)
  }

  lemma NewlineSettles(u: Tables, s: Scan, k: Token)
    requires k.c == NEWLINE && Balanced(TextStep(u, s, k))
    ensures !TextStep(u, s, k).pending
  {
  }

  lemma StepSettled(u: Tables, f: string, s: Scan)
    requires s.i < |f| && Shaped(f, s) && Settled(f, s) && NoEscapedNewline(f)
    ensures Settled(f, Step(u, f, s))
  {
    var s' := Step(u, f, s);
    if !LineMode(f, s) && AtLineStart(f, s'.i) && Balanced(s') {
      assert f[s'.i - 1] == NEWLINE;
      assert f[s.i] == NEWLINE;
      NewlineSettles(u, s, TokenAt(f, s.i));
    }
  }

  lemma {:induction false} SettledScan(u: Tables, f: string, s: Scan)
    requires Shaped(f, s) && Settled(f, s) && NoEscapedNewline(f)
    ensures !SwallowsLater(u, f, s)
    decreases |f| - s.i
  {
    if s.i >= |f| {
    } else {
      StepSettled(u, f, s);
      StepShaped(u, f, s);
      SettledScan(u, f, Step(u, f, s));
    }
  }

  /** A text in which no line feed is escaped swallows no line. */
  lemma NoEscapeNoSwallow(u: Tables, f: string)
    requires NoEscapedNewline(f)
    ensures !SwallowsLine(u, f)
  {
    SettledScan(u, f, INITIAL);
  }

  /** Hence it commits the same boundaries however it continues. */
  lemma StableUnderExtension(u: Tables, t: string, s: string)
    requires NoEscapedNewline(t + s)
    ensures Boundaries(u, t) <= Boundaries(u, t + s)
  {
    NoEscapeNoSwallow(u, t + s);
    OnlineStability(u, t + s);
    assert (t + s)[..|t|] == t;
  }

  /** Such a text: after the escaped line feed, the blanks are committed before the list marker is seen. */
  lemma EscapedNewlineRetracts(u: Tables)
    requires Sane(u)
    ensures var f := ".\\\n  -";
            SwallowsLine(u, f) && exists k: nat :: k <= |f| && !(Boundaries(u, f[..k]) <= Boundaries(u, f))
  {
    var f := ".\\\n  -";
    EscapedSteps(u, f);
    hide *;
    assert SwallowsLine(u, f);
    OnlineStability(u, f);
  }

  lemma EscapedSteps(u: Tables, f: string)
    requires Sane(u) && f == ".\\\n  -"
    ensures SwallowsLine(u, f)
  {
    EscapedState(u, f);
    hide Step, Swallows;
    var s1 := Step(u, f, INITIAL);
    assert SwallowsLater(u, f, Step(u, f, s1));
    assert SwallowsLater(u, f, s1);
  }

  lemma EscapedState(u: Tables, f: string)
    requires Sane(u) && f == ".\\\n  -"
    ensures var s2 := Step(u, f, Step(u, f, INITIAL)); s2.i == 3 && Swallows(f, s2)
  {
    assert LineEnd(f, 2) == LineEnd(f, 1) == LineEnd(f, 0) == 2;
    assert CurrentLine(f, 0) == ".\\";
    assert BlankEnd(".\\", 0) == 0;
    assert Step(u, f, INITIAL) == Scan(1, "", "", [], [], true, true, []);
    assert LineEnd(f, 6) == LineEnd(f, 5) == LineEnd(f, 4) == LineEnd(f, 3) == 6;
    assert CurrentLine(f, 3) == "  -";
    assert BlankEnd("  -", 2) == BlankEnd("  -", 1) == BlankEnd("  -", 0) == 2;
  }
}
