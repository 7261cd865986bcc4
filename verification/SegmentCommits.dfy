/** What one segment of a generation commits, as a function of its whole text, however it was streamed. */
module SegmentCommits {
  import opened Runes
  import opened Scanner
  import opened ScanStructure
  import opened Stability
  import opened Overlap
  import opened Commits
  import opened Options
  import opened Generation

  /** The transcript with a segment's text in place of whatever it repeats. */
  function Candidate(base: string, raw: string): string {
    base + raw[Longest(base, raw)..]
  }

  /** A place where a repetition may begin: the start, or behind a stop or a line feed. */
  predicate MayRepeatFrom(base: string, o: nat)
    requires o <= |base|
  {
    o == 0 || base[o - 1] in {'.', '!', '?', '\U{3002}', '\U{FF0E}', '\U{FF01}', '\U{FF1F}', '\n'}
  }

  /** The candidate is the transcript with the whole segment put where it repeats the most: it is cut at the first such
      place behind which the segment says the rest again, or not at all. */
  lemma CandidateIs(base: string, raw: string) returns (o: nat)
    ensures o <= |base| && base <= Candidate(base, raw) == base[..o] + raw && (o == |base| || MayRepeatFrom(base, o))
    ensures forall p: nat :: p < o && MayRepeatFrom(base, p) ==> !(base[p..] <= raw)
  {
    LongestRepeats(base, raw);
    var k := Longest(base, raw);
    o := |base| - k;
    assert raw == raw[..k] + raw[k..] && base == base[..o] + base[o..];
    forall p: nat | p < o && MayRepeatFrom(base, p) ensures !(base[p..] <= raw) {
      assert !Repeats(base, raw, |base| - p);
    }
  }

  /** What the deltas of a segment commit. Nothing, while it is open how much they repeat. */
  ghost function StreamCuts(u: Tables, base: string, streamed: string): seq<nat> {
    if Resolved(base, streamed) then Above(Boundaries(u, Candidate(base, streamed)), |base|) else []
  }

  /** What the end of a segment commits. */
  function FinalCuts(u: Tables, base: string, raw: string, allowTail: bool): seq<nat> {
    Above(FinalBoundaries(u, Candidate(base, raw), allowTail), |base|)
  }

  ghost predicate Steady(u: Tables, base: string, raw: string) {
    !SwallowsLine(u, Candidate(base, raw))
  }

  lemma SteadyPrefix(u: Tables, base: string, raw: string, more: string)
    requires Resolved(base, raw) && Steady(u, base, raw + more)
    ensures Candidate(base, raw) <= Candidate(base, raw + more)
    ensures Boundaries(u, Candidate(base, raw)) <= Boundaries(u, Candidate(base, raw + more))
  {
    hide Boundaries, SwallowsLine, Resolved, Longest;
    ResolvedIsStable(base, raw, more);
    var k := Longest(base, raw);
    assert (raw + more)[k..] == raw[k..] + more;
    var f := Candidate(base, raw + more);
    assert f == Candidate(base, raw) + more;
    OnlineStability(u, f);
    assert f[..|Candidate(base, raw)|] == Candidate(base, raw);
  }

  /** Cutting at what a prefix of the boundaries shows stays between what it shows and what all show. */
  lemma CutsConverge(part: seq<nat>, whole: seq<nat>, from: nat, done: seq<nat>, limit: nat)
    requires part <= whole && Increasing(whole, limit)
    requires done <= Above(whole, from)
    ensures var done' := done + Above(part, LastOr(done, from));
            Above(part, from) <= done' <= Above(whole, from)
  {
    AbovePrefix(part, whole, from);
    assert Increasing(part, limit);
    var seen, all := Above(part, from), Above(whole, from);
    if |done| <= |seen| {
      assert done == all[..|done|] == seen[..|done|];
      AboveInTwo(part, from, done, limit);
    } else {
      var m := LastOr(done, from);
      AboveIncreasing(part, from, limit);
      AboveIncreasing(part, m, limit);
      AboveIncreasing(whole, from, limit);
      assert seen == done[..|seen|];
      forall c | c in seen ensures c <= m {
      }
      forall c | c in Above(part, m) ensures c in seen && c > m {
      }
      NoElements(Above(part, m), m);
    }
  }

  lemma NoElements(cuts: seq<nat>, m: nat)
    requires forall c :: c in cuts ==> c > m && c <= m
    ensures cuts == []
  {
    if cuts != [] {
      var _ := Head(cuts);
    }
  }

  /** Once a whole text is seen, everything it shows is cut. */
  lemma CutsComplete(u: Tables, text: string, allowTail: bool, from: nat, done: seq<nat>)
    requires done <= Above(Boundaries(u, text), from)
    ensures done + Above(FinalBoundaries(u, text, allowTail), LastOr(done, from)) == Above(FinalBoundaries(u, text, allowTail), from)
  {
    FinalBoundariesIncrease(u, text, allowTail);
    AbovePrefix(Boundaries(u, text), FinalBoundaries(u, text, allowTail), from);
    AboveInTwo(FinalBoundaries(u, text, allowTail), from, done, |text|);
  }

  /** One look at the text so far, on the way to `raw + more`: the cuts stay between what the text so far
      shows and what the whole text shows. */
  lemma StreamStep(u: Tables, base: string, raw: string, more: string, done: seq<nat>)
    requires Resolved(base, raw) && Steady(u, base, raw + more)
    requires done <= Above(Boundaries(u, Candidate(base, raw + more)), |base|)
    ensures var part := Boundaries(u, Candidate(base, raw));
            Above(part, |base|) <= done + Above(part, LastOr(done, |base|))
            <= Above(Boundaries(u, Candidate(base, raw + more)), |base|)
  {
    SteadyPrefix(u, base, raw, more);
    BoundariesIncrease(u, Candidate(base, raw + more));
    CutsConverge(Boundaries(u, Candidate(base, raw)), Boundaries(u, Candidate(base, raw + more)), |base|, done,
                 |Candidate(base, raw + more)|);
  }

  /** What the deltas have committed so far, when `streamed` is what they will have said in the end. */
  ghost predicate OnTheWay(u: Tables, base: string, raw: string, streamed: string, done: seq<nat>) {
    && raw <= streamed
    && (if Resolved(base, raw) then
          Above(Boundaries(u, Candidate(base, raw)), |base|) <= done <= Above(Boundaries(u, Candidate(base, streamed)), |base|)
        else done == [])
  }

  lemma OnTheWayStart(u: Tables, base: string, streamed: string)
    ensures OnTheWay(u, base, "", streamed, [])
  {
    if base == "" {
      assert Candidate(base, "") == "";
    } else {
      assert Mark(base, 0) && "" < base[0..];
    }
  }

  lemma OnTheWayStep(u: Tables, base: string, raw: string, delta: string, streamed: string, done: seq<nat>)
    requires OnTheWay(u, base, raw, streamed, done) && raw + delta <= streamed && Steady(u, base, streamed)
    ensures var cuts := if Resolved(base, raw + delta)
                        then Above(Boundaries(u, Candidate(base, raw + delta)), LastOr(done, |base|)) else [];
            OnTheWay(u, base, raw + delta, streamed, done + cuts)
  {
    if Resolved(base, raw) {
      ResolvedIsStable(base, raw, delta);
    }
    if Resolved(base, raw + delta) {
      var more := streamed[|raw + delta|..];
      assert raw + delta + more == streamed;
      StreamStep(u, base, raw + delta, more, done);
    }
  }

  lemma OnTheWayEnd(u: Tables, base: string, streamed: string, done: seq<nat>)
    requires OnTheWay(u, base, streamed, streamed, done)
    ensures done == StreamCuts(u, base, streamed)
  {
  }

  /** The last look, at a text that extends what was streamed, cuts whatever the whole text shows. */
  lemma LastLook(u: Tables, base: string, streamed: string, more: string, allowTail: bool)
    requires Steady(u, base, streamed + more)
    ensures var done := StreamCuts(u, base, streamed);
            done + Above(FinalBoundaries(u, Candidate(base, streamed + more), allowTail), LastOr(done, |base|))
            == FinalCuts(u, base, streamed + more, allowTail)
  {
    var done, text := StreamCuts(u, base, streamed), Candidate(base, streamed + more);
    if Resolved(base, streamed) {
      SteadyPrefix(u, base, streamed, more);
      AbovePrefix(Boundaries(u, Candidate(base, streamed)), Boundaries(u, text), |base|);
    }
    CutsComplete(u, text, allowTail, |base|, done);
  }

  lemma CandidateBytes(base: string, raw: string)
    ensures Bytes(Candidate(base, raw)) <= Bytes(base) + Bytes(raw)
  {
    RestBytes(base, raw, Longest(base, raw));
  }

  lemma RestBytes(base: string, raw: string, k: nat)
    requires k <= |raw|
    ensures Bytes(base + raw[k..]) <= Bytes(base) + Bytes(raw)
  {
    var head, rest := raw[..k], raw[k..];
    BytesConcat(base, rest);
    BytesConcat(head, rest);
    assert raw == head + rest;
  }

  lemma {:induction false} ConcatPrefix(deltas: seq<string>, j: nat)
    requires j <= |deltas|
    ensures Concat(deltas[..j]) <= Concat(deltas)
    decreases |deltas|
  {
    if j < |deltas| {
      ConcatPrefix(deltas[..|deltas| - 1], j);
      assert deltas[..|deltas| - 1][..j] == deltas[..j];
    } else {
      assert deltas[..j] == deltas;
    }
  }
}
