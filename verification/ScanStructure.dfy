/** What every scan keeps: the shape of its state, and what is known where a boundary is placed. */
module ScanStructure {
  import opened Runes
  import opened Scanner

  ghost predicate Increasing(b: seq<nat>, limit: nat) {
    && (forall j, k :: 0 <= j < k < |b| ==> b[j] < b[k])
    && (forall j :: 0 <= j < |b| ==> 0 < b[j] <= limit)
  }

  /** A fence is open only between whole lines, with nothing else open. */
  ghost predicate Shaped(text: string, s: Scan) {
    && s.i <= |text|
    && (s.fence != "" ==>
          && (AtLineStart(text, s.i) || s.i == |text|)
          && s.inline == "" && s.emphasis == [] && s.brackets == [])
    && Increasing(s.boundaries, s.i)
  }

  /** A scan that passes through `s` later passes through `s'`. */
  ghost predicate Reaches(u: Tables, text: string, s: Scan, s': Scan)
    decreases |text| - s.i
  {
    s == s' || (s.i < |text| && Reaches(u, text, Step(u, text, s), s'))
  }

  lemma AppendIncreasing(b: seq<nat>, i: nat, end: nat)
    requires Increasing(b, i) && i < end
    ensures Append(b, end) == b + [end] && Increasing(b + [end], end)
  {
  }

  /** Delimiters touch only the emphasis stack, brackets only the bracket stack, stops only the waiting sentence. */
  lemma StageFields(u: Tables, s: Scan, k: Token)
    ensures var r := Emphasize(u, s, k); r == s.(emphasis := r.emphasis, valid := r.valid) && (r.valid ==> s.valid)
    ensures var r := Bracket(u, s, k); r == s.(brackets := r.brackets, valid := r.valid) && (r.valid ==> s.valid)
    ensures var r := Sentence(u, s, k); r == s.(pending := r.pending)
  {
    hide PlainRun, PlainStop, NumberPrefix, IsSpace, IsOpener, IsCloser, OpenerOf, IsStop, Closes;
  }

  /** The fields that one token of running text leaves alone. */
  lemma TextStepFields(u: Tables, s: Scan, k: Token)
    ensures var r := TextStep(u, s, k);
            && r.i == k.end && r.fence == s.fence && r.inline == s.inline
            && (!s.valid ==> !r.valid)
            && (r.boundaries == s.boundaries
                || (r.boundaries == Append(s.boundaries, k.end) && r.valid && r.inline == "" && r.emphasis == [] && r.brackets == []))
  {
    hide Emphasize, Bracket, Sentence, IsSpace, IsFirmStop, Append;
    var e := Emphasize(u, s, k);
    var b := Bracket(u, e, k);
    StageFields(u, s, k);
    StageFields(u, e, k);
    StageFields(u, b, k);
  }

  /** One step keeps the shape, and places a boundary only at its own end, with nothing open there. */
  lemma StepShaped(u: Tables, text: string, s: Scan)
    requires Shaped(text, s) && s.i < |text|
    ensures var s' := Step(u, text, s);
            && Shaped(text, s')
            && (s'.boundaries == s.boundaries || (s'.boundaries == s.boundaries + [s'.i] && Quiet(s')))
  {
    hide EmptyListLine, FenceMarker, FenceAfter, TextStep;
    var s' := Step(u, text, s);
    AppendIncreasing(s.boundaries, s.i, s'.i);
    if LineMode(text, s) {
    } else if text[s.i] != '\\' && text[s.i] != '`' && s.inline == "" {
      TextStepFields(u, s, TokenAt(text, s.i));
    } else if text[s.i] == '\\' {
      TextStepFields(u, s.(valid := false), TokenAt(text, s.i));
    }
  }

  lemma {:induction false} ScanShaped(u: Tables, text: string, s: Scan)
    requires Shaped(text, s)
    ensures Shaped(text, ScanFrom(u, text, s)) && s.boundaries <= ScanFrom(u, text, s).boundaries
    ensures ScanFrom(u, text, s).i == |text|
    decreases |text| - s.i
  {
    hide Step;
    if s.i >= |text| {
    } else {
      StepShaped(u, text, s);
      ScanShaped(u, text, Step(u, text, s));
    }
  }

  /** Boundaries placed from `s` on lie beyond `s.i`. */
  lemma LaterBoundary(u: Tables, text: string, s: Scan, b: nat)
    requires Shaped(text, s) && b in ScanFrom(u, text, s).boundaries
    ensures b in s.boundaries || b > s.i
  {
    hide Step;
    ScanShaped(u, text, s);
    var all := ScanFrom(u, text, s).boundaries;
    var j :| 0 <= j < |all| && all[j] == b;
    if j >= |s.boundaries| {
      var _ := BoundaryStep(u, text, s, j);
    }
  }

  /** The step that placed the `j`th boundary: it ends there, with nothing open. */
  lemma {:induction false} BoundaryStep(u: Tables, text: string, s: Scan, j: nat) returns (p: Scan)
    requires Shaped(text, s)
    requires |s.boundaries| <= j < |ScanFrom(u, text, s).boundaries|
    ensures Reaches(u, text, s, p) && Shaped(text, p) && s.i <= p.i < |text|
    ensures var p' := Step(u, text, p);
            && p'.boundaries == p.boundaries + [p'.i] && |p.boundaries| == j && Quiet(p')
            && p'.i == ScanFrom(u, text, s).boundaries[j]
    decreases |text| - s.i
  {
    hide Step;
    var s' := Step(u, text, s);
    StepShaped(u, text, s);
    if |s'.boundaries| == j + 1 {
      ScanShaped(u, text, s');
      p := s;
    } else {
      p := BoundaryStep(u, text, s', j);
    }
  }

  lemma {:induction false} ReachesOn(u: Tables, text: string, s: Scan, p: Scan)
    requires Reaches(u, text, s, p) && p.i < |text|
    ensures Reaches(u, text, s, Step(u, text, p))
    decreases |text| - s.i
  {
    hide Step;
    if s == p {
    } else {
      ReachesOn(u, text, Step(u, text, s), p);
    }
  }

  /** Boundaries strictly increase within the text. */
  lemma BoundariesIncrease(u: Tables, text: string)
    ensures Increasing(Boundaries(u, text), |text|)
  {
    hide Step;
    ScanShaped(u, text, INITIAL);
  }

  /** Also when the end of a finished text may be committed. */
  lemma FinalBoundariesIncrease(u: Tables, text: string, allowTail: bool)
    ensures Increasing(FinalBoundaries(u, text, allowTail), |text|)
    ensures allowTail && BalancedText(u, text) && text != "" ==>
              |text| in FinalBoundaries(u, text, allowTail)
  {
    hide Step, ScanFrom;
    ScanShaped(u, text, INITIAL);
    var all := FinalBoundaries(u, text, allowTail);
    if allowTail && BalancedText(u, text) && text != "" {
      assert all[|all| - 1] == |text|;
    }
  }

  /** No fence, inline code, bracket or emphasis is open where a text may be committed. */
  lemma BoundaryIsQuiet(u: Tables, text: string, b: nat)
    requires b in Boundaries(u, text)
    ensures exists s :: Reaches(u, text, INITIAL, s) && s.i == b && Quiet(s)
  {
    hide Step, ScanFrom;
    var all := Boundaries(u, text);
    var j :| 0 <= j < |all| && all[j] == b;
    var p := BoundaryStep(u, text, INITIAL, j);
    ReachesOn(u, text, INITIAL, p);
  }

  /** While a fence is open the scan stands between lines. */
  lemma {:induction false} FenceOnlyBetweenLines(u: Tables, text: string, s: Scan, p: Scan)
    requires Shaped(text, s) && Reaches(u, text, s, p)
    ensures Shaped(text, p)
    ensures p.fence != "" ==> p.i == |text| || AtLineStart(text, p.i)
    decreases |text| - s.i
  {
    hide Step;
    if s == p {
    } else {
      StepShaped(u, text, s);
      FenceOnlyBetweenLines(u, text, Step(u, text, s), p);
    }
  }
}
