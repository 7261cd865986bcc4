/** A committed prefix can be resumed: it rescans as balanced. */
module Resume {
  import opened Runes
  import opened Scanner
  import opened ScanStructure
  import opened ScanPrefix
  import opened ResumeExact

  /** No escape, no code, no fence and no strikethrough, and no null character, which the scanner takes
      for the start of the text. */
  ghost predicate PlainText(f: string) {
    forall c :: c in f ==> c !in {'\\', '`', '~', NONE}
  }

  ghost predicate PlainBefore(f: string, b: nat) {
    b <= |f| && PlainText(f[..b])
  }

  lemma PlainAt(f: string, b: nat, i: nat)
    requires PlainBefore(f, b) && i < b
    ensures f[i] !in {'\\', '`', '~', NONE}
  {
    assert f[..b][i] in f[..b];
  }

  ghost predicate NumberOrBlank(prefix: string) {
    AllDigits(TrimSpace(prefix))
  }

  /** Where a delimiter run or a list number could be misread without its right neighbour, no sentence waits. */
  ghost predicate Rested(f: string, s: Scan) {
    && s.i <= |f| && s.fence == "" && s.inline == ""
    && (Balanced(s) && (s.i == 0 || IsSpace(f[s.i - 1]) || (s.i < |f| && IsSpace(f[s.i])) || NumberOrBlank(LinePrefix(f, s.i)))
        ==> !s.pending)
  }

  lemma {:induction false} TrimLeftAppend(p: string, c: char)
    requires !IsSpace(c)
    ensures TrimLeft(p + [c]) == TrimLeft(p) + [c]
  {
    if p == "" || !IsSpace(p[0]) {
    } else {
      TrimLeftAppend(p[1..], c);
      assert (p + [c])[1..] == p[1..] + [c];
    }
  }

  lemma {:induction false} TrimRightPrefix(p: string)
    ensures TrimRight(p) <= p
  {
    if p == "" || !IsSpace(p[|p| - 1]) {
    } else {
      TrimRightPrefix(p[..|p| - 1]);
    }
  }

  /** A line prefix that is a number or blank and ends with a visible character ends with a digit of that number. */
  lemma NumberOrBlankInit(p: string, c: char)
    requires NumberOrBlank(p + [c]) && !IsSpace(c)
    ensures IsAsciiDigit(c) && NumberOrBlank(p)
  {
    TrimLeftAppend(p, c);
    var t := TrimLeft(p);
    assert TrimSpace(p + [c]) == t + [c];
    assert c in t + [c];
    TrimRightPrefix(t);
    forall d | d in TrimSpace(p) ensures IsAsciiDigit(d) {
      assert d in t + [c];
    }
  }

  lemma {:induction false} AllSpaceTrims(p: string)
    requires AllSpace(p)
    ensures TrimSpace(p) == ""
  {
    if p == "" {
    } else {
      assert p[0] in p;
      assert forall c :: c in p[1..] ==> c in p;
      AllSpaceTrims(p[1..]);
    }
  }

  lemma LinePrefixGrows(f: string, i: nat)
    requires i < |f| && f[i] != NEWLINE
    ensures LinePrefix(f, i + 1) == LinePrefix(f, i) + [f[i]]
  {
  }

  /** Blank or digit: leaves the state alone, except that it may end a waiting sentence. */
  lemma QuietToken(u: Tables, s: Scan, k: Token)
    requires k.c != NEWLINE && (IsSpace(k.c) || IsAsciiDigit(k.c))
    ensures var r := TextStep(u, s, k);
            r.pending ==> s.pending
    ensures var r := TextStep(u, s, k);
            r == s.(i := r.i, pending := r.pending, boundaries := r.boundaries)
    ensures !s.pending ==> TextStep(u, s, k).boundaries == s.boundaries
  {
  }

  lemma SpaceAhead(u: Tables, s: Scan, k: Token)
    requires s.fence == ""
    requires Balanced(TextStep(u, s, k)) && ((!k.last && IsSpace(k.next)) || k.c == NEWLINE)
    ensures !TextStep(u, s, k).pending
  {
  }

  lemma StepRested(u: Tables, f: string, b: nat, s: Scan)
    requires PlainBefore(f, b) && s.i < |f| && Rested(f, s) && Step(u, f, s).i <= b
    ensures Rested(f, Step(u, f, s))
  {
    PlainAt(f, b, s.i);
    if LineMode(f, s) {
      NoFenceLine(f, b, s.i);
    } else {
      var k := TokenAt(f, s.i);
      var r := TextStep(u, s, k);
      TextStepFields(u, s, k);
      assert f[k.end - 1] == k.marker[|k.marker| - 1];
      if k.end < |f| && IsSpace(f[k.end]) && Balanced(r) {
        SpaceAhead(u, s, k);
      } else if IsSpace(f[k.end - 1]) && Balanced(r) {
        SpaceRested(u, f, s);
      } else if Balanced(r) && NumberOrBlank(LinePrefix(f, k.end)) {
        DigitRested(u, f, s);
      }
    }
  }

  lemma NoFenceLine(f: string, b: nat, i: nat)
    requires PlainBefore(f, b) && i < |f| && LineEnd(f, i) <= b
    ensures FenceMarker(CurrentLine(f, i)) == ""
  {
    var line := CurrentLine(f, i);
    forall j | 0 <= j < |line| ensures !IsFenceChar(line[j]) {
      PlainAt(f, b, i + j);
    }
  }

  lemma SpaceRested(u: Tables, f: string, s: Scan)
    requires s.i < |f| && Rested(f, s)
    requires var k := TokenAt(f, s.i); IsSpace(f[k.end - 1]) && Balanced(TextStep(u, s, k))
    ensures !TextStep(u, s, TokenAt(f, s.i)).pending
  {
    var k := TokenAt(f, s.i);
    assert IsSpace(k.c);
    if k.c == NEWLINE {
      SpaceAhead(u, s, k);
    } else {
      QuietToken(u, s, k);
    }
  }

  lemma DigitRested(u: Tables, f: string, s: Scan)
    requires s.i < |f| && Rested(f, s)
    requires var k := TokenAt(f, s.i);
             !IsSpace(f[k.end - 1]) && Balanced(TextStep(u, s, k)) && NumberOrBlank(LinePrefix(f, k.end))
    ensures !TextStep(u, s, TokenAt(f, s.i)).pending
  {
    hide TextStep, TrimSpace, LinePrefix, NumberOrBlank;
    var k := TokenAt(f, s.i);
    LinePrefixGrows(f, k.end - 1);
    NumberOrBlankInit(LinePrefix(f, k.end - 1), f[k.end - 1]);
    assert k.end == s.i + 1;
    QuietToken(u, s, k);
  }

  /** Blanks and digits from the start of a line keep everything closed. */
  lemma {:induction false} NumberKeepsQuiet(u: Tables, f: string, s: Scan, p: Scan)
    requires Reaches(u, f, s, p) && Shaped(f, s) && p.i < |f|
    requires s.i < |f| ==> !LineMode(f, s)
    requires s.i <= p.i ==> forall j :: s.i <= j < p.i ==> IsBlank(f[j]) || IsAsciiDigit(f[j])
    requires Quiet(s)
    ensures s.i <= p.i && Quiet(p)
    decreases |f| - s.i
  {
    if s == p {
    } else {
      var s' := Step(u, f, s);
      ReachesForward(u, f, s', p);
      StepShaped(u, f, s);
      QuietToken(u, s, TokenAt(f, s.i));
      NumberKeepsQuiet(u, f, s', p);
    }
  }

  /** An empty list item cannot end with a boundary: nothing in it ends a sentence. */
  lemma ListItemEndsNoSentence(u: Tables, f: string, s: Scan, p: Scan)
    requires Shaped(f, s) && Quiet(s) && s.i < |f| && AtLineStart(f, s.i) && !LineMode(f, s)
    requires Reaches(u, f, s, p) && s.i <= p.i < |f| && Rested(f, p) && !LineMode(f, p)
    requires var b := Step(u, f, p).i; PlainBefore(f, b) && b <= LineEnd(f, s.i) && EmptyListLine(f[s.i..b])
    ensures Step(u, f, p).boundaries == p.boundaries
  {
    PlainStep(u, f, Step(u, f, p).i, p);
    ListItemToken(u, f, s.i, p);
    if !IsBlank(f[p.i]) {
      NumberKeepsQuiet(u, f, s, p);
    }
  }

  /** The token that ends an empty list item, by itself. */
  lemma ListItemToken(u: Tables, f: string, start: nat, p: Scan)
    requires start <= p.i < |f| && AtLineStart(f, start) && Rested(f, p)
    requires var b := TokenAt(f, p.i).end; b <= LineEnd(f, start) && EmptyListLine(f[start..b])
    ensures IsBlank(f[p.i]) || Quiet(p) ==> TextStep(u, p, TokenAt(f, p.i)).boundaries == p.boundaries
    ensures IsBlank(f[p.i]) || forall j :: start <= j < p.i ==> IsBlank(f[j]) || IsAsciiDigit(f[j])
  {
    var k, m := TokenAt(f, p.i), p.i - start;
    var line := f[start..k.end];
    assert line[m] == f[p.i];
    if IsBlank(f[p.i]) {
      QuietToken(u, p, k);
      BlankBoundary(u, p, k);
    } else {
      ListMarkerLast(line, m);
      forall j | start <= j < p.i ensures f[j] == line[j - start] {
      }
      if Quiet(p) {
        NumberOrBlankMarker(line, m);
        LinePrefixIs(f, start, p.i);
        assert f[start..p.i] == line[..m];
        MarkerToken(u, p, k);
      }
    }
  }

  lemma BlankBoundary(u: Tables, p: Scan, k: Token)
    requires IsBlank(k.c) && p.fence == "" && p.inline == "" && (Balanced(p) ==> !p.pending)
    ensures TextStep(u, p, k).boundaries == p.boundaries
  {
  }

  lemma PlainStep(u: Tables, f: string, b: nat, p: Scan)
    requires PlainBefore(f, b) && p.i < b && p.inline == "" && !LineMode(f, p)
    ensures Step(u, f, p) == TextStep(u, p, TokenAt(f, p.i))
  {
    PlainAt(f, b, p.i);
  }

  lemma LinePrefixIs(f: string, b: nat, i: nat)
    requires b <= i <= |f| && AtLineStart(f, b) && i <= LineEnd(f, b)
    ensures LinePrefix(f, i) == f[b..i]
  {
    assert forall c :: c in f[b..i] ==> c in f[b..LineEnd(f, b)];
    LineStartIs(f, b, i);
  }

  lemma {:induction false} LineStartIs(f: string, b: nat, i: nat)
    requires b <= i <= |f| && AtLineStart(f, b) && NEWLINE !in f[b..i]
    ensures LineStart(f, i) == b
  {
    if i == b {
    } else {
      assert f[b..i][i - 1 - b] == f[i - 1];
      assert forall c :: c in f[b..i - 1] ==> c in f[b..i];
      LineStartIs(f, b, i - 1);
    }
  }

  /** The last visible character of an empty list item is its marker. */
  lemma ListMarkerLast(line: string, m: nat)
    requires EmptyListLine(line) && m < |line| && !IsBlank(line[m]) && (IsAsciiDigit(line[m]) ==> m + 1 == |line|)
    ensures line[m] in {'-', '+', '*', '.', ')'}
    ensures forall j :: 0 <= j < m ==> IsBlank(line[j]) || IsAsciiDigit(line[j])
    ensures line[m] in {'-', '+', '*'} ==> AllSpace(line[..m])
    ensures line[m] in {'.', ')'} ==> NumberPrefix(line[..m])
  {
    var c := BlankEnd(line, 0);
    var d := DigitEnd(line, c);
    if line[c] in {'-', '+', '*'} {
    } else {
      if m == d {
        NumberTrim(line[..d], c);
      }
    }
  }

  /** Blanks followed by digits trim to the digits. */
  lemma {:induction false} NumberTrim(p: string, c: nat)
    requires c < |p|
    requires forall j :: 0 <= j < c ==> IsBlank(p[j])
    requires forall j :: c <= j < |p| ==> IsAsciiDigit(p[j])
    ensures TrimSpace(p) == p[c..] && NumberPrefix(p)
  {
    if c > 0 {
      NumberTrim(p[1..], c - 1);
      assert p[1..][c - 1..] == p[c..];
    } else {
      assert TrimLeft(p) == p && p[c..] == p;
    }
  }

  lemma NumberOrBlankMarker(line: string, m: nat)
    requires m < |line|
    requires AllSpace(line[..m]) || NumberPrefix(line[..m])
    ensures NumberOrBlank(line[..m])
  {
    if AllSpace(line[..m]) {
      AllSpaceTrims(line[..m]);
    }
  }

  /** A list marker places no boundary when no sentence waits before it. */
  lemma MarkerToken(u: Tables, p: Scan, k: Token)
    requires Quiet(p) && (p.valid ==> !p.pending)
    requires k.c in {'-', '+', '*', '.', ')'}
    requires k.c in {'-', '+', '*'} ==> AllSpace(k.prefix)
    requires k.c in {'.', ')'} ==> NumberPrefix(k.prefix)
    ensures TextStep(u, p, k).boundaries == p.boundaries
  {
    assert !k.last && IsSpace(k.next) && k.c == '.' ==> PlainStop(u, k);
  }

  lemma {:induction false} ReachesRested(u: Tables, f: string, b: nat, s: Scan, p: Scan)
    requires PlainBefore(f, b) && Rested(f, s) && Reaches(u, f, s, p) && p.i <= b
    ensures Rested(f, p)
    decreases |f| - s.i
  {
    if s == p {
    } else {
      ReachesForward(u, f, Step(u, f, s), p);
      StepRested(u, f, b, s);
      ReachesRested(u, f, b, Step(u, f, s), p);
    }
  }

  lemma CommitNotLine(u: Tables, f: string, p: Scan)
    requires p.i < |f| && p.fence == "" && Step(u, f, p).boundaries != p.boundaries
    requires PlainBefore(f, Step(u, f, p).i)
    ensures !LineMode(f, p)
  {
    var b := Step(u, f, p).i;
    if LineEnd(f, p.i) <= b {
      NoFenceLine(f, b, p.i);
    }
  }

  /** Where no sentence waits, no token that could be misread places a boundary. */
  lemma PlainEndsWell(u: Tables, f: string, b: nat, p: Scan)
    requires Sane(u) && PlainBefore(f, b) && Rested(f, p) && p.i < |f|
    requires Step(u, f, p).i == b && Step(u, f, p).boundaries == p.boundaries + [b]
    ensures EndsWell(u, f, p)
  {
    CommitNotLine(u, f, p);
    PlainStep(u, f, b, p);
    var k := TokenAt(f, p.i);
    if p.i > 0 {
      PlainAt(f, b, p.i - 1);
    }
    hide TextStep, LineMode, NumberPrefix, NumberOrBlank;
    if LoneRun(p, k) {
      LoneRunPlacesNothing(u, p, k);
    }
    if ListNumber(p, k) {
      NumberIsNumber(k.prefix);
      ListNumberPlacesNothing(u, p, k);
    }
  }

  lemma LoneRunPlacesNothing(u: Tables, s: Scan, k: Token)
    requires Sane(u) && s.fence == "" && s.inline == "" && LoneRun(s, k) && (Balanced(s) ==> !s.pending)
    ensures TextStep(u, s, k).boundaries == s.boundaries
  {
    hide OpenerOf, NumberPrefix, Append;
    assert Bracket(u, Emphasize(u, s, k), k) == Emphasize(u, s, k);
    assert IsSpace(k.next) ==> !u.letter(k.next) && !u.digit(k.next);
  }

  lemma ListNumberPlacesNothing(u: Tables, s: Scan, k: Token)
    requires s.fence == "" && s.inline == "" && ListNumber(s, k) && (Balanced(s) ==> !s.pending)
    ensures TextStep(u, s, k).boundaries == s.boundaries
  {
    hide OpenerOf, NumberPrefix, Append;
  }

  lemma NumberIsNumber(prefix: string)
    requires NumberPrefix(prefix)
    ensures NumberOrBlank(prefix)
  {
  }

  /** Before a boundary that cuts off a plain prefix, no line is cut down to an empty list item. */
  lemma {:induction false} NoLineCut(u: Tables, f: string, b: nat, s: Scan, p: Scan)
    requires PlainBefore(f, b) && Shaped(f, s) && Rested(f, s) && Reaches(u, f, s, p) && p.i < |f|
    requires Step(u, f, p).i == b && Step(u, f, p).boundaries == p.boundaries + [b]
    ensures !CutToItemLater(u, f, b, s, p)
    decreases |f| - s.i
  {
    ReachesForward(u, f, s, p);
    if CutToItem(f, b, s) {
      ItemNotCut(u, f, b, s, p);
    } else if s == p {
    } else {
      var s' := Step(u, f, s);
      StepShaped(u, f, s);
      ReachesForward(u, f, s', p);
      StepRested(u, f, b, s);
      NoLineCut(u, f, b, s', p);
    }
  }

  lemma ItemNotCut(u: Tables, f: string, b: nat, s: Scan, p: Scan)
    requires PlainBefore(f, b) && Shaped(f, s) && Rested(f, s) && Reaches(u, f, s, p) && s.i <= p.i < |f|
    requires Step(u, f, p).i == b && Step(u, f, p).boundaries == p.boundaries + [b]
    ensures !CutToItem(f, b, s)
  {
    hide EmptyListLine, LineMode;
    ReachesRested(u, f, b, s, p);
    CommitNotLine(u, f, p);
    if CutToItem(f, b, s) {
      if s != p {
        ReachesForward(u, f, Step(u, f, s), p);
        LineModeLong(u, f, s);
      }
      ListItemEndsNoSentence(u, f, s, p);
    }
  }

  /** Resume round trip: every boundary that cuts off a plain prefix cuts off one that rescans as balanced,
      whatever follows it. */
  lemma ResumeRoundTrip(u: Tables, f: string, allowTail: bool, b: nat)
    requires Sane(u) && b in FinalBoundaries(u, f, allowTail) && PlainBefore(f, b)
    ensures BalancedText(u, f[..b])
  {
    if b in Boundaries(u, f) {
      var p := ResumesExactly(u, f, b);
      ReachesRested(u, f, b, INITIAL, p);
      PlainEndsWell(u, f, b, p);
      NoLineCut(u, f, b, INITIAL, p);
    } else {
      assert f[..b] == f;
    }
  }
}
