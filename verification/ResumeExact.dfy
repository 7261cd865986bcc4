/** Exactly when a committed prefix can be resumed. Rescanned by itself, a prefix lacks what followed it, and three
    kinds of last tokens read differently then; and a boundary after a fence does not say that the text was valid. */
module ResumeExact {
  import opened Runes
  import opened Scanner
  import opened ScanStructure
  import opened ScanPrefix

  /** A delimiter run that stands by itself, after a blank: with nothing behind it, it is an open one. */
  predicate LoneRun(s: Scan, k: Token) {
    && IsDelimiter(k.c) && (k.c == '~' ==> |k.marker| == 2) && !Closes(s, k)
    && (k.previous == NONE || IsSpace(k.previous))
  }

  /** A parenthesis after a list number: with no blank behind it, it closes a bracket that is not open. */
  predicate ListNumber(s: Scan, k: Token) {
    k.c == ')' && s.brackets == [] && NumberPrefix(k.prefix)
  }

  /** The boundary cuts the line down to an empty list item. */
  predicate CutToItem(f: string, b: nat, s: Scan)
    requires b <= |f|
  {
    s.i < b && b <= LineEnd(f, s.i) && AtLineStart(f, s.i) && Quiet(s) && EmptyListLine(f[s.i..b])
  }

  /** Somewhere between two states of the scan, the boundary cuts a line down to an empty list item. */
  ghost predicate CutToItemLater(u: Tables, f: string, b: nat, s: Scan, p: Scan)
    requires b <= |f|
    decreases |f| - s.i
  {
    (s.i < |f| && CutToItem(f, b, s)) || (s != p && s.i < |f| && CutToItemLater(u, f, b, Step(u, f, s), p))
  }

  /** The token before the boundary reads the same without what follows it. */
  ghost predicate EndsWell(u: Tables, f: string, p: Scan)
    requires p.i < |f|
  {
    if LineMode(f, p) then p.valid
    else !LoneRun(p, TokenAt(f, p.i)) && !ListNumber(p, TokenAt(f, p.i))
  }

  lemma TokenIff(u: Tables, s: Scan, kf: Token, kq: Token)
    requires Sane(u) && s.fence == "" && s.inline == ""
    requires kq == kf.(next := NONE, last := true) && (kf.last ==> kf.next == NONE)
    requires AllSpace(kf.prefix) ==> kf.previous == NONE || IsSpace(kf.previous)
    requires TextStep(u, s, kf).boundaries != s.boundaries
    ensures Balanced(TextStep(u, s, kq)) <==> !LoneRun(s, kf) && !ListNumber(s, kf)
  {
    hide NumberPrefix, OpenerOf, Append;
    if kf.c == NEWLINE || IsFirmStop(kf.c) {
      FirmToken(u, s, kf, kq);
      TextStepFields(u, s, kf);
    } else {
      assert IsSpace(kf.next);
      if IsDelimiter(kf.c) {
        RunIff(u, s, kf, kq);
      } else {
        assert Emphasize(u, s, kq) == s == Emphasize(u, s, kf);
        BracketIff(u, s, kf, kq);
      }
    }
  }

  lemma RunIff(u: Tables, s: Scan, kf: Token, kq: Token)
    requires Sane(u) && s.fence == "" && s.inline == "" && IsDelimiter(kf.c) && IsSpace(kf.next)
    requires kq == kf.(next := NONE, last := true)
    requires AllSpace(kf.prefix) ==> kf.previous == NONE || IsSpace(kf.previous)
    requires TextStep(u, s, kf).boundaries != s.boundaries
    ensures Balanced(TextStep(u, s, kq)) <==> !LoneRun(s, kf)
    ensures !ListNumber(s, kf)
  {
    hide OpenerOf, NumberPrefix, Append, AllSpace;
    assert !u.letter(kf.next) && !u.digit(kf.next) && !u.letter(NONE) && !u.digit(NONE);
    assert Bracket(u, Emphasize(u, s, kf), kf) == Emphasize(u, s, kf);
    assert Bracket(u, Emphasize(u, s, kq), kq) == Emphasize(u, s, kq);
  }

  lemma BracketIff(u: Tables, s: Scan, kf: Token, kq: Token)
    requires s.fence == "" && s.inline == "" && !IsDelimiter(kf.c) && kf.c != NEWLINE && !IsFirmStop(kf.c) && IsSpace(kf.next)
    requires kq == kf.(next := NONE, last := true)
    requires TextStep(u, s, kf).boundaries != s.boundaries
    ensures Balanced(TextStep(u, s, kq)) <==> !ListNumber(s, kf)
    ensures !LoneRun(s, kf)
  {
    assert !IsSpace(NONE);
    hide OpenerOf, Append, NumberPrefix, PlainRun, IsSpace;
  }

  lemma {:induction false} ReachesForward(u: Tables, f: string, s: Scan, p: Scan)
    requires Reaches(u, f, s, p)
    ensures s.i <= p.i
    decreases |f| - s.i
  {
    hide Step;
    if s == p {
    } else {
      ReachesForward(u, f, Step(u, f, s), p);
    }
  }

  /** A line that is cut short has no fence marker that the whole line does not have. */
  lemma MarkerOfCut(line: string, n: nat)
    requires n <= |line| && FenceMarker(line[..n]) != ""
    ensures FenceMarker(line) != ""
  {
    RunEndOfPrefix(line, n, 0, ' ');
    var k := Indent(line[..n]);
    assert k < n && line[k] != ' ';
    RunEndOfPrefix(line, n, k, line[k]);
  }

  /** On the line of the boundary, the cut text takes the line whole only if it is an empty list item. */
  lemma CutMode(f: string, b: nat, s: Scan)
    requires s.i < b <= |f| && b <= LineEnd(f, s.i) && !LineMode(f, s)
    ensures LineMode(f[..b], s) <==> CutToItem(f, b, s)
  {
    hide EmptyListLine, FenceMarker, LineEnd;
    LineEndOfPrefix(f, b, s.i);
    var line, cut := CurrentLine(f, s.i), CurrentLine(f[..b], s.i);
    assert f[..b][s.i..b] == f[s.i..b];
    assert cut == f[s.i..b];
    assert cut == line[..b - s.i];
    if FenceMarker(cut) != "" {
      MarkerOfCut(line, b - s.i);
    }
  }

  lemma ItemInvalid(u: Tables, f: string, b: nat, s: Scan)
    requires b <= |f| && CutToItem(f, b, s)
    ensures LineMode(f[..b], s) && !Balanced(ScanFrom(u, f[..b], s))
  {
    var q := f[..b];
    LineEndOfPrefix(f, b, s.i);
    assert CurrentLine(q, s.i) == f[s.i..b];
    hide EmptyListLine, FenceMarker, FenceAfter;
    var s' := Step(u, q, s);
    assert s' == LineStep(q, s) && s'.i == |q| && !s'.valid;
  }

  /** The step that places the boundary. */
  lemma PlacingStep(u: Tables, f: string, b: nat, p: Scan)
    requires Shaped(f, p) && p.i < |f| && Step(u, f, p).i == b && Step(u, f, p).boundaries == p.boundaries + [b]
    ensures LineMode(f, p) ==> LineEnd(f, p.i) + 1 == b && Step(u, f, p) == LineStep(f, p)
    ensures !LineMode(f, p) ==>
              && p.fence == "" && p.inline == "" && f[p.i] != '\\' && f[p.i] != '`'
              && Step(u, f, p) == TextStep(u, p, TokenAt(f, p.i))
  {
    hide EmptyListLine, FenceMarker, FenceAfter, TextStep, TokenAt;
    if !LineMode(f, p) {
      if f[p.i] == '\\' {
        TextStepFields(u, p.(valid := false), TokenAt(f, p.i));
      }
    }
  }

  /** A blank line prefix ends with a blank, or is empty. */
  lemma BlankPrefix(f: string, i: nat)
    requires i <= |f| && AllSpace(LinePrefix(f, i))
    ensures i == 0 || IsSpace(f[i - 1])
  {
    if i > 0 && LineStart(f, i) < i {
      var prefix := LinePrefix(f, i);
      assert prefix[|prefix| - 1] == f[i - 1] && prefix[|prefix| - 1] in prefix;
    }
  }

  /** The cut text takes the last step in the same way, and is balanced after it if and only if the token ends well. */
  lemma LastStepIff(u: Tables, f: string, b: nat, p: Scan)
    requires Sane(u) && Shaped(f, p) && p.i < |f|
    requires Step(u, f, p).i == b && Step(u, f, p).boundaries == p.boundaries + [b] && !CutToItem(f, b, p)
    ensures b <= |f| && (Balanced(ScanFrom(u, f[..b], p)) <==> EndsWell(u, f, p))
  {
    var q := f[..b];
    PlacingStep(u, f, b, p);
    if LineMode(f, p) {
      SameMode(f, b, p);
      StepShaped(u, f, p);
      LineStepValid(f, p);
      assert Step(u, q, p) == LineStep(f, p);
    } else {
      if LineEnd(f, p.i) < b {
        SameMode(f, b, p);
      } else {
        CutMode(f, b, p);
      }
      var kf, kq := TokenAt(f, p.i), TokenAt(q, p.i);
      RunEndOfPrefix(f, b, p.i, f[p.i]);
      LastToken(f, b, p.i);
      if AllSpace(kf.prefix) {
        BlankPrefix(f, p.i);
      }
      TokenIff(u, p, kf, kq);
      hide LineMode, TextStep, TokenAt, LoneRun, ListNumber;
      assert Step(u, q, p) == TextStep(u, p, kq);
    }
  }

  lemma LineStepValid(f: string, s: Scan)
    requires s.i < |f| && LineStep(f, s).boundaries != s.boundaries
    ensures LineStep(f, s).valid == s.valid && LineStep(f, s).fence == ""
  {
    hide EmptyListLine, FenceMarker, FenceAfter;
  }

  /** The scan of the cut text, from any state before the boundary. */
  lemma {:induction false} CutIff(u: Tables, f: string, b: nat, s: Scan, p: Scan)
    requires Sane(u) && Shaped(f, s) && Reaches(u, f, s, p) && Shaped(f, p) && p.i < |f|
    requires Step(u, f, p).i == b && Step(u, f, p).boundaries == p.boundaries + [b]
    ensures b <= |f| && (Balanced(ScanFrom(u, f[..b], s)) <==> EndsWell(u, f, p) && !CutToItemLater(u, f, b, s, p))
    decreases |f| - s.i
  {
    hide EndsWell, CutToItem, Balanced, Shaped, Step, LineMode;
    ReachesForward(u, f, s, p);
    BoundaryWithin(u, f, p);
    if CutToItem(f, b, s) {
      ItemInvalid(u, f, b, s);
    } else if s == p {
      LastStepIff(u, f, b, p);
    } else {
      var s' := Step(u, f, s);
      StepShaped(u, f, s);
      ReachesForward(u, f, s', p);
      CutStep(u, f, b, s);
      CutIff(u, f, b, s', p);
    }
  }

  lemma BoundaryWithin(u: Tables, f: string, p: Scan)
    requires p.i < |f|
    ensures p.i < Step(u, f, p).i <= |f|
  {
  }

  /** A step before the boundary is the same step of the cut text. */
  lemma CutStep(u: Tables, f: string, b: nat, s: Scan)
    requires s.i < b <= |f| && Step(u, f, s).i < b && !CutToItem(f, b, s)
    ensures Step(u, f[..b], s) == Step(u, f, s) && ScanFrom(u, f[..b], s) == ScanFrom(u, f[..b], Step(u, f, s))
  {
    if LineEnd(f, s.i) < b {
      SameMode(f, b, s);
    } else {
      LineModeLong(u, f, s);
      CutMode(f, b, s);
    }
    hide LineMode, Step, CutToItem;
    SameStepBack(u, f, b, s);
  }

  lemma LineModeLong(u: Tables, f: string, s: Scan)
    requires s.i < |f|
    ensures LineMode(f, s) ==> Step(u, f, s).i >= LineEnd(f, s.i)
  {
    hide EmptyListLine, FenceMarker, FenceAfter;
  }

  /** Resuming, exactly: a prefix that ends at a boundary rescans as balanced if and only if its last token reads the
      same without what followed, and its last line is not cut down to an empty list item. */
  lemma ResumesExactly(u: Tables, f: string, b: nat) returns (p: Scan)
    requires Sane(u) && b in Boundaries(u, f)
    ensures Reaches(u, f, INITIAL, p) && p.i < |f| && Step(u, f, p).i == b && Step(u, f, p).boundaries == p.boundaries + [b]
    ensures b <= |f| && (BalancedText(u, f[..b]) <==> EndsWell(u, f, p) && !CutToItemLater(u, f, b, INITIAL, p))
  {
    hide EndsWell, CutToItem, CutToItemLater, Step, ScanFrom;
    ScanShaped(u, f, INITIAL);
    var all := Boundaries(u, f);
    var j :| 0 <= j < |all| && all[j] == b;
    p := BoundaryStep(u, f, INITIAL, j);
    CutIff(u, f, b, INITIAL, p);
  }

  /** A sentence, a null character, and a lone asterisk. */
  const NULL_TEXT := ".\0* x"

  const AT_ASTERISK := Scan(2, "", "", [], [], true, true, [])

  /** A null character reads like the start of the text: a text without escape, code or tilde that does not resume. */
  lemma NullBreaksResume(u: Tables)
    requires Sane(u)
    ensures 3 in Boundaries(u, NULL_TEXT) && !BalancedText(u, NULL_TEXT[..3])
  {
    var f := NULL_TEXT;
    NullSteps(u, f);
    NullSteps(u, f[..3]);
    AsteriskCommits(u, f);
    AsteriskOpens(u, f[..3]);
    hide Step;
    var t := Step(u, f, AT_ASTERISK);
    ScanShaped(u, f, t);
    assert ScanFrom(u, f, AT_ASTERISK) == ScanFrom(u, f, t);
    assert ScanFrom(u, f, t).boundaries[0] == 3;
    assert ScanFrom(u, f[..3], AT_ASTERISK) == Step(u, f[..3], AT_ASTERISK);
  }

  lemma AsteriskCommits(u: Tables, f: string)
    requires Sane(u) && f == NULL_TEXT
    ensures Step(u, f, AT_ASTERISK).i == 3 && Step(u, f, AT_ASTERISK).boundaries == [3] && Shaped(f, Step(u, f, AT_ASTERISK))
  {
    PlainLine(f, AT_ASTERISK);
    hide LineMode;
    assert TokenAt(f, 2).end == 3;
  }

  lemma AsteriskOpens(u: Tables, q: string)
    requires Sane(u) && q == NULL_TEXT[..3]
    ensures Step(u, q, AT_ASTERISK).i == 3 && !Step(u, q, AT_ASTERISK).valid
  {
    PlainLine(q, AT_ASTERISK);
    hide LineMode;
    assert TokenAt(q, 2).end == 3;
  }

  lemma PlainLine(f: string, s: Scan)
    requires (f == NULL_TEXT || f == NULL_TEXT[..3]) && s.i < 3 && s.fence == ""
    ensures !LineMode(f, s)
  {
    if AtLineStart(f, s.i) {
      assert s.i == 0;
      var line := CurrentLine(f, 0);
      assert |line| > 0 && line[0] == f[0] == '.';
      assert BlankEnd(line, 0) == 0 && DigitEnd(line, 0) == 0 && Indent(line) == 0;
    }
  }

  lemma NullSteps(u: Tables, f: string)
    requires Sane(u) && (f == NULL_TEXT || f == NULL_TEXT[..3])
    ensures ScanFrom(u, f, INITIAL) == ScanFrom(u, f, AT_ASTERISK)
  {
    var s1 := Scan(1, "", "", [], [], true, true, []);
    StopStep(u, f);
    NullStep(u, f, s1);
    hide Step;
    assert ScanFrom(u, f, s1) == ScanFrom(u, f, AT_ASTERISK);
  }

  lemma StopStep(u: Tables, f: string)
    requires Sane(u) && (f == NULL_TEXT || f == NULL_TEXT[..3])
    ensures Step(u, f, INITIAL) == Scan(1, "", "", [], [], true, true, [])
  {
    PlainLine(f, INITIAL);
    StopToken(u);
    assert TokenAt(f, 0) == STOP_TOKEN;
    hide LineMode, TextStep, TokenAt;
  }

  const STOP_TOKEN := Token('.', ".", 1, NONE, NONE, "", false)

  lemma StopToken(u: Tables)
    requires Sane(u)
    ensures TextStep(u, INITIAL, STOP_TOKEN) == Scan(1, "", "", [], [], true, true, [])
  {
    assert !NumberPrefix("");
    hide NumberPrefix;
  }

  lemma NullStep(u: Tables, f: string, s: Scan)
    requires Sane(u) && (f == NULL_TEXT || f == NULL_TEXT[..3]) && s == Scan(1, "", "", [], [], true, true, [])
    ensures Step(u, f, s) == AT_ASTERISK
  {
    PlainLine(f, s);
    hide LineMode, Closes, PlainRun, NumberPrefix;
    assert f[1] == NONE && f[2] == '*';
  }
}
