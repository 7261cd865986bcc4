/** Generations over streamed chat completions: what a complete generation says about the streams it was made of. */
module Completion {
  import opened Runes
  import opened Scanner
  import opened Commits
  import opened SegmentCommits
  import opened Options
  import opened Generation
  import opened Judgement
  import opened Runs
  import opened Resume
  import opened Assembler
  import opened Stream
  import opened StreamReader

  /** The stream announced one finish reason, a stop, and ended once, with nothing after the end. */
  ghost predicate StopsProperly(events: seq<Event>) {
    WellFormed(events) && exists t: nat :: FinishesAt(events, t) && events[t].choices[0].finish == Stream.Finish(Stop)
  }

  lemma {:induction false} ReasonAt(events: seq<Event>, t: nat)
    requires t < |events| && Finishes(events[t]) && forall j :: t < j < |events| ==> !Finishes(events[j])
    ensures ReasonAnnounced(events) == events[t].choices[0].finish.reason
    decreases |events|
  {
    if t == |events| - 1 {
    } else {
      var init := events[..|events| - 1];
      assert forall j :: 0 <= j < |init| ==> init[j] == events[j];
      ReasonAt(init, t);
    }
  }

  /** Whatever the stream, what was emitted never contradicts the answer. */
  lemma AdaptedIsConsistent(events: seq<Event>, call: Call)
    requires Adapted(events, call)
    ensures Consistent(call) && Concat(call.deltas) <= Said(call)
  {
    hide CountsCompletion, CountsReasoning;
  }

  /** End to end: a call that completes a run read a stream with exactly one finish reason, a stop, and one end;
      what it emitted is its answer; and the run's text is closed. */
  lemma CompletionIsProper(u: Tables, base: string, events: seq<Event>, call: Call)
    requires Adapted(events, call) && Completes(u, base, call)
    ensures StopsProperly(events)
    ensures Said(call) == AnswerOf(events) == Concat(call.deltas)
    ensures BalancedText(u, Candidate(base, AnswerOf(events)))
  {
    hide CountsCompletion, CountsReasoning, BalancedText, Bytes;
    var t :| FinishesAt(events, t);
    ReasonAt(events, t);
  }

  /** Runs a generation whose calls read the given streams. */
  method Generate(run: GenerationAssembler, streams: seq<seq<Event>>, faults: seq<Option<Failure>>)
    returns (r: Result, calls: seq<Call>)
    requires run.Fresh() && |streams| >= run.limits.maxSegments && |faults| == |streams|
    modifies run
    ensures run.Valid() && |calls| == |streams| && r.answer == run.ledger.committed
    ensures forall j :: 0 <= j < |calls| ==> Adapted(streams[j], calls[j])
    ensures r.generation.complete ==>
              && 1 <= |run.books.budgets| <= |streams|
              && var events := streams[|run.books.budgets| - 1];
              && StopsProperly(events)
              && Concat(calls[|run.books.budgets| - 1].deltas) == AnswerOf(events)
              && run.prefix <= run.segment.base <= r.answer && BalancedText(run.u, Candidate(run.segment.base, AnswerOf(events)))
              && (r.answer == Candidate(run.segment.base, AnswerOf(events))
                  <==> Bytes(Candidate(run.segment.base, AnswerOf(events))) <= MAX_TEXT_BYTES)
  {
    hide Adapted, Completes, Candidate, BalancedText, Bytes, StopsProperly, Calm, Run, PlainText, Spoken, Flatten;
    calls := ConsumeAll(streams, faults);
    r := run.Assemble(calls);
    if r.generation.complete {
      var last := |run.books.budgets| - 1;
      CompletionIsProper(run.u, run.segment.base, streams[last], calls[last]);
    }
  }

  method ConsumeAll(streams: seq<seq<Event>>, faults: seq<Option<Failure>>) returns (calls: seq<Call>)
    requires |faults| == |streams|
    ensures |calls| == |streams| && forall j :: 0 <= j < |calls| ==> Adapted(streams[j], calls[j])
  {
    hide Adapted;
    calls := [];
    for j := 0 to |streams|
      invariant |calls| == j && forall k :: 0 <= k < j ==> Adapted(streams[k], calls[k])
    {
      var stream := new GatewayStream();
      var call := stream.Consume(streams[j], faults[j]);
      calls := calls + [call];
    }
  }

  /** A run that was served leaves a plain answer that the next run accepts as its prefix, and only adds to. */
  method GoOn(run: GenerationAssembler, calls: seq<Call>, more: seq<Call>) returns (r: Result, next: GenerationAssembler, after: Result)
    requires run.Fresh() && run.Accepted() && Sane(run.u) && |calls| >= run.limits.maxSegments && |more| >= run.limits.maxSegments
    modifies run
    ensures fresh(next) && next.prefix == r.answer && run.prefix <= r.answer <= after.answer
    ensures PlainText(r.answer) ==> next.Accepted()
  {
    hide BalancedText, Bytes, PlainText, Calm, Run, Spoken, Flatten, Completes, Candidate;
    r := run.Assemble(calls);
    next := new GenerationAssembler(run.u, run.speech, run.limits, r.answer, run.hasChat, run.hasProgress);
    after := next.Assemble(more);
  }
}
