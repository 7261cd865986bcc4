/** A whole generation as a function of what its calls say, however each is split into deltas. */
module Runs {
  import opened Runes
  import opened Scanner
  import opened Overlap
  import opened Commits
  import opened SegmentCommits
  import opened Transcripts
  import opened Judgement
  import opened Options
  import opened Generation

  /** Where a run stands between two segments. */
  datatype Standing = Standing(committed: string, cuts: seq<nat>, spent: int, repaired: bool, finish: Reason)

  datatype Outcome = Outcome(committed: string, cuts: seq<nat>, code: Option<Code>, complete: bool)

  /** What a segment may ask for. */
  function Budget(limits: Limits, spent: int): int {
    if limits.segmentTokens < limits.maxTotalTokens - spent then limits.segmentTokens else limits.maxTotalTokens - spent
  }

  predicate Open(limits: Limits, calls: seq<Call>, index: nat, st: Standing) {
    index < limits.maxSegments && index < |calls| && st.spent < limits.maxTotalTokens
  }

  /** The text of a segment that counts: the answer, or what was streamed when the answer contradicts it. */
  function Taken(call: Call): string {
    if Consistent(call) then Said(call) else Concat(call.deltas)
  }

  function CutText(base: string, raw: string, cuts: seq<nat>): string {
    if cuts == [] then base else Stretch(Candidate(base, raw), 0, LastOr(cuts, 0))
  }

  ghost function After(u: Tables, limits: Limits, call: Call, st: Standing): Standing {
    var cuts := SegmentCuts(u, st.committed, call);
    Standing(CutText(st.committed, Taken(call), cuts), st.cuts + cuts,
             Spent(limits.maxTotalTokens, st.spent, Charge(call, Budget(limits, st.spent))),
             st.repaired || Judge(u, st.committed, call, st.finish, st.repaired) == Repair,
             FinishOf(call, st.finish))
  }

  /** What an undisturbed run makes of its calls. */
  ghost function Run(u: Tables, limits: Limits, calls: seq<Call>, index: nat, st: Standing): Outcome
    decreases |calls| - index
  {
    if !Open(limits, calls, index, st) then Outcome(st.committed, st.cuts, None, false)
    else
      var next := After(u, limits, calls[index], st);
      match Judge(u, st.committed, calls[index], st.finish, st.repaired)
      case Halt(code, complete) => Outcome(next.committed, next.cuts, code, complete)
      case _ => Run(u, limits, calls, index + 1, next)
  }

  /** The text of every segment fits, and is steady. */
  ghost predicate Calm(u: Tables, limits: Limits, calls: seq<Call>, index: nat, st: Standing)
    decreases |calls| - index
  {
    Open(limits, calls, index, st) ==>
      && Fits(st.committed, calls[index]) && SteadyCall(u, st.committed, calls[index])
      && (!Judge(u, st.committed, calls[index], st.finish, st.repaired).Halt? ==>
            Calm(u, limits, calls, index + 1, After(u, limits, calls[index], st)))
  }

  ghost predicate SaysTheSame(a: Call, b: Call) {
    Concat(a.deltas) == Concat(b.deltas) && a.response == b.response && a.error == b.error
  }

  /** A segment that came out as judged takes the run one segment further. */
  lemma SegmentFollows(u: Tables, limits: Limits, calls: seq<Call>, index: nat, st: Standing, next: Standing,
                       done: bool, code: Option<Code>, complete: bool)
    requires Open(limits, calls, index, st) && Calm(u, limits, calls, index, st)
    requires Follows(Judge(u, st.committed, calls[index], st.finish, st.repaired), done, code, complete, next.repaired, st.repaired)
    requires next.cuts == st.cuts + SegmentCuts(u, st.committed, calls[index])
    requires next.committed == CutText(st.committed, Taken(calls[index]), SegmentCuts(u, st.committed, calls[index]))
    requires !done ==> next.spent == Spent(limits.maxTotalTokens, st.spent, Charge(calls[index], Budget(limits, st.spent)))
    requires !done ==> next.finish == FinishOf(calls[index], st.finish)
    ensures done ==> Run(u, limits, calls, index, st) == Outcome(next.committed, next.cuts, code, complete)
    ensures !done ==> Run(u, limits, calls, index, st) == Run(u, limits, calls, index + 1, next)
                      && Calm(u, limits, calls, index + 1, next)
  {
    hide Judge, SegmentCuts, CutText, Taken, Fits, SteadyCall, FinishOf, Charge, Spent;
    assert !done ==> next == After(u, limits, calls[index], st);
  }

  lemma RunStops(u: Tables, limits: Limits, calls: seq<Call>, index: nat, st: Standing)
    requires !Open(limits, calls, index, st)
    ensures Run(u, limits, calls, index, st) == Outcome(st.committed, st.cuts, None, false)
  {
  }

  /** What is committed is the segment's text up to its last cut. */
  lemma CommittedIsCut(speech: string -> string, prefix: string, g: Segment, w: Ledger, before: seq<nat>)
    requires Sound(speech, prefix, w) && Inside(prefix, g, w.committed)
    requires before <= w.cuts && LastOr(before, |prefix|) == |g.base|
    ensures w.committed == CutText(g.base, g.raw, w.cuts[|before|..])
  {
    hide Accounted, Deliveries, Candidate, Longest, Bytes;
    CutsSince(speech, prefix, w, before, g.base);
    var cuts := w.cuts[|before|..];
    if cuts != [] {
      assert cuts[|cuts| - 1] == w.cuts[|w.cuts| - 1];
      LaterCut(w.cuts, before, |prefix|, |w.committed|);
    }
  }

  lemma LaterCut(cuts: seq<nat>, before: seq<nat>, from: nat, limit: nat)
    requires Rising(cuts, from, limit) && before < cuts
    ensures LastOr(before, from) < cuts[|cuts| - 1]
  {
  }

  lemma SameSegment(u: Tables, limits: Limits, a: Call, b: Call, st: Standing)
    requires SaysTheSame(a, b)
    ensures Judge(u, st.committed, a, st.finish, st.repaired) == Judge(u, st.committed, b, st.finish, st.repaired)
    ensures After(u, limits, a, st) == After(u, limits, b, st)
    ensures Fits(st.committed, a) == Fits(st.committed, b)
    ensures SteadyCall(u, st.committed, a) == SteadyCall(u, st.committed, b)
  {
    hide Judge, SegmentCuts, Steady, Candidate, BalancedText, Bytes, TrimSpace;
    ChunkIndependence(u, st.committed, a, b, st.finish, st.repaired);
  }

  /** Chunk independence of whole runs: how the calls are split into deltas changes nothing. */
  lemma {:induction false} RunChunkIndependence(u: Tables, limits: Limits, a: seq<Call>, b: seq<Call>, index: nat, st: Standing)
    requires |a| == |b| && forall j :: 0 <= j < |a| ==> SaysTheSame(a[j], b[j])
    ensures Run(u, limits, a, index, st) == Run(u, limits, b, index, st)
    ensures Calm(u, limits, a, index, st) <==> Calm(u, limits, b, index, st)
    decreases |a| - index
  {
    if !Open(limits, a, index, st) {
    } else {
      hide Judge, After, Fits, SteadyCall, SaysTheSame;
      SameSegment(u, limits, a[index], b[index], st);
      RunChunkIndependence(u, limits, a, b, index + 1, After(u, limits, a[index], st));
    }
  }
}
