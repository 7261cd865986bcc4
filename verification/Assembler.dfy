/** The assembler of a bounded generation: up to three provider segments become one append-only transcript. */
module Assembler {
  import opened Runes
  import opened Scanner
  import opened ScanStructure
  import opened ScannerLoop
  import opened Overlap
  import opened Commits
  import opened Speech
  import opened SegmentCommits
  import opened Transcripts
  import opened Judgement
  import opened Runs
  import opened Resume
  import opened Options
  import opened Generation

  class GenerationAssembler {
    const u: Tables
    const speech: string -> string
    const limits: Limits
    const prefix: string
    const hasChat: bool
    const hasProgress: bool

    var ended: Option<ContextError>
    var ledger: Ledger
    var segment: Segment
    var accepting: bool
    var metadata: Metadata
    var books: Books

    ghost predicate Valid()
      reads this
    {
      Sound(speech, prefix, ledger) && CutOff(u, prefix, ledger.committed)
    }

    ghost predicate InSegment()
      reads this
    {
      Inside(prefix, segment, ledger.committed)
    }

    constructor (u: Tables, speech: string -> string, limits: Limits, prefix: string, hasChat: bool, hasProgress: bool)
      requires 1 <= limits.segmentTokens <= 32768 && 1 <= limits.maxSegments <= 3
      requires 1 <= limits.maxTotalTokens <= limits.segmentTokens * limits.maxSegments
      ensures this.u == u && this.speech == speech && this.limits == limits && this.prefix == prefix
      ensures this.hasChat == hasChat && this.hasProgress == hasProgress
      ensures Fresh()
    {
      this.u, this.speech, this.limits, this.prefix := u, speech, limits, prefix;
      this.hasChat, this.hasProgress := hasChat, hasProgress;
      ended := None;
      ledger := Ledger(prefix, [], prefix, [], [], []);
      segment, accepting := Segment(prefix, "", false, 0, false), false;
      metadata := Metadata(Unknown, Unknown, limits.segmentTokens, limits.maxTotalTokens, limits.maxSegments,
                           limits.softTargetPercent, 0, false, None, Unavailable, 0, 0, false, false, false);
      books := Books(0, [], false, 0, true, true);
    }

    /** Nothing has happened yet. */
    ghost predicate Fresh()
      reads this
    {
      && ledger == Ledger(prefix, [], prefix, [], [], []) && ended == None
      && books == Books(0, [], false, 0, true, true)
      && metadata.completionTokens == 0 && !metadata.complete && metadata.finish == Unknown
      && 1 <= limits.segmentTokens <= 32768 && 1 <= limits.maxSegments <= 3
      && 1 <= limits.maxTotalTokens <= limits.segmentTokens * limits.maxSegments
    }

    /** Reads the state of the context, which may end at any time and then stays ended. */
    method ContextErr() returns (e: Option<ContextError>)
      modifies this`ended
      ensures old(ended).Some? ==> ended == old(ended)
      ensures e == ended
    {
      if ended.None? {
        if * {
          ended := Some(Canceled);
        } else if * {
          ended := Some(DeadlineExceeded);
        }
      }
      e := ended;
    }

    /** Delivers what is committed but not delivered yet; one of the 64 deliveries is kept for the end. */
    method EmitProgress(final: bool)
      requires Valid()
      modifies this`ended, this`ledger
      ensures Valid()
      ensures old(ended).Some? ==> ended == old(ended)
      ensures ledger.committed == old(ledger).committed && ledger.cuts == old(ledger).cuts
      ensures ledger == old(ledger) ||
              (old(ledger).events < ledger.events && |ledger.events| == |old(ledger).events| + 1)
      ensures !final && ledger != old(ledger) ==> |ledger.events| <= MAX_PROGRESS - 1
      ensures ledger != old(ledger) ==>
                && ledger.pendingSpeech == [] && ledger.batches == old(ledger).batches + [old(ledger).pendingSpeech]
                && ledger.events[|ledger.events| - 1].text == ledger.committed
                && HandsOut(ledger.events[|ledger.events| - 1].units, old(ledger).pendingSpeech)
      ensures hasProgress && ended.None? && (final || |old(ledger).events| < MAX_PROGRESS - 1) ==>
                ledger.delivered == ledger.committed && ledger.pendingSpeech == []
    {
      assert ledger.committed == ledger.delivered ==> ledger.pendingSpeech == [];
      hide Sound, Join, HandsOut;
      if !hasProgress {
        return;
      }
      var err := ContextErr();
      if err.Some? || ledger.committed == ledger.delivered || (!final && |ledger.events| >= MAX_PROGRESS - 1) {
        return;
      }
      var units := [];
      if |ledger.pendingSpeech| > 0 {
        units := [Join(ledger.pendingSpeech)];
      }
      JoinHandsOut(ledger.pendingSpeech);
      var event := Progress(ledger.committed, units, metadata);
      DeliverSound(speech, prefix, ledger, event);
      ledger := Delivered(ledger, event);
    }

    /** Commits what the candidate shows beyond the committed text, and delivers it. */
    method Publish(final: bool, allowTail: bool)
      requires Valid() && InSegment() && |ledger.events| <= MAX_PROGRESS - 1
      modifies this`segment, this`ledger, this`ended
      ensures Valid() && InSegment() && |ledger.events| <= MAX_PROGRESS - 1
      ensures old(ended).Some? ==> ended == old(ended)
      ensures old(ledger).committed <= ledger.committed
      ensures segment == Decided(old(segment), final)
      ensures ledger.cuts == old(ledger).cuts + PublishedCuts(u, segment, allowTail, |old(ledger).committed|)
    {
      hide FinalBoundaries, Longest, Sound, Resolved, Above, Bytes;
      if !segment.overlapResolved {
        var overlap, resolved := GenerationOverlap(segment.base, segment.raw, final);
        segment := segment.(overlap := overlap, overlapResolved := resolved);
        if !resolved {
          return;
        }
      }
      var candidate := segment.base + segment.raw[segment.overlap..];
      assert candidate == Candidate(segment.base, segment.raw);
      if Bytes(candidate) > MAX_TEXT_BYTES {
        segment := segment.(overflow := true);
        return;
      }
      var grown := CommitBoundaries(candidate, allowTail);
      if grown {
        EmitProgress(false);
      }
    }

    method CommitBoundaries(candidate: string, allowTail: bool) returns (grown: bool)
      requires Valid() && ledger.committed <= candidate && Bytes(candidate) <= MAX_TEXT_BYTES
      modifies this`ledger
      ensures Valid() && old(ledger).committed <= ledger.committed <= candidate && Bytes(ledger.committed) <= MAX_TEXT_BYTES
      ensures ledger.events == old(ledger).events
      ensures ledger.cuts == old(ledger).cuts + Above(FinalBoundaries(u, candidate, allowTail), |old(ledger).committed|)
      ensures grown == (ledger.committed != old(ledger).committed)
    {
      hide FinalBoundaries, Above, Bytes, Spoken, Sound;
      var boundaries, _ := GenerationBoundaries(u, candidate, allowTail);
      FinalBoundariesIncrease(u, candidate, allowTail);
      var units, previous := CollectUnits(candidate, boundaries);
      ghost var added := Above(boundaries, |ledger.committed|);
      grown := previous > |ledger.committed|;
      if grown {
        ExtendSound(speech, prefix, ledger, candidate, added);
        CutOffNow(u, prefix, candidate, allowTail, ledger.committed, added);
        ledger := ledger.(committed := candidate[..previous], cuts := ledger.cuts + Above(boundaries, |ledger.committed|),
                          pendingSpeech := ledger.pendingSpeech + units);
        assert ledger == Extend(speech, old(ledger), candidate, added);
      }
      PrefixBytes(ledger.committed, candidate);
    }

    /** The speech of every stretch up to the next boundary beyond the committed text. */
    method CollectUnits(candidate: string, boundaries: seq<nat>) returns (units: seq<string>, previous: nat)
      requires ledger.committed <= candidate && Increasing(boundaries, |candidate|)
      ensures var added := Above(boundaries, |ledger.committed|);
              && Rising(added, |ledger.committed|, |candidate|) && previous == LastOr(added, |ledger.committed|)
              && units == Spoken(speech, candidate, |ledger.committed|, added)
    {
      var committed := ledger.committed;
      NothingYet(speech, candidate, boundaries, |committed|);
      assert forall j :: 0 <= j < |boundaries| ==> boundaries[j] <= |candidate|;
      hide Above, Spoken, Rising, Increasing, Unit, Stretch;
      units, previous := [], |committed|;
      ghost var added: seq<nat> := [];
      for j := 0 to |boundaries|
        invariant added == Above(boundaries[..j], |committed|)
        invariant previous == LastOr(added, |committed|) && |committed| <= previous <= |candidate|
        invariant units == Spoken(speech, candidate, |committed|, added)
      {
        var end := boundaries[j];
        AboveAppend(boundaries[..j], end, |committed|);
        assert boundaries[..j + 1] == boundaries[..j] + [end];
        if end <= previous {
          continue;
        }
        assert committed <= candidate[..end];  // so the guard against a candidate that contradicts what is committed never fires
        units := AddUnit(units, candidate[previous..end]);
        SpokenAppend(speech, candidate, |committed|, added, end);
        added := added + [end];
        previous := end;
      }
      assert boundaries[..|boundaries|] == boundaries;
      AboveIncreasing(boundaries, |committed|, |candidate|);
    }

    method AddUnit(units: seq<string>, stretch: string) returns (more: seq<string>)
      ensures more == units + Unit(speech(stretch))
    {
      var unit := speech(stretch);
      return if unit != "" then units + [unit] else units;
    }

    /** Takes one delta of the provider, and looks at the segment so far. */
    method OnDelta(delta: string)
      requires Valid() && InSegment() && |ledger.events| <= MAX_PROGRESS - 1
      requires segment.overlapResolved ==> Resolved(segment.base, segment.raw)
      modifies this`segment, this`ledger, this`ended
      ensures Valid() && InSegment() && |ledger.events| <= MAX_PROGRESS - 1
      ensures segment.overlapResolved ==> Resolved(segment.base, segment.raw)
      ensures old(ended).Some? ==> ended == old(ended)
      ensures segment.base == old(segment).base && old(ledger).cuts <= ledger.cuts
      ensures accepting && ended.None? && delta != "" && Bytes(old(segment).raw) + Bytes(delta) <= MAX_TEXT_BYTES ==>
                && segment == Decided(old(segment).(raw := old(segment).raw + delta), false)
                && ledger.cuts == old(ledger).cuts + PublishedCuts(u, segment, false, |old(ledger).committed|)
      ensures delta == "" ==> segment == old(segment) && ledger == old(ledger)
      ensures old(segment).overflow ==> segment.overflow
      ensures accepting && ended.None? && !segment.overflow ==> segment.raw == old(segment).raw + delta
    {
      hide FinalBoundaries, Longest, Sound, Resolved, Above, Bytes;
      if !accepting {
        return;
      }
      var err := ContextErr();
      if err.Some? || delta == "" {
        return;
      }
      if Bytes(segment.raw) + Bytes(delta) > MAX_TEXT_BYTES {
        segment := segment.(overflow := true);
        return;
      }
      GrowSegment(segment, delta, ledger.committed);
      segment := segment.(raw := segment.raw + delta);
      Publish(false, false);
    }

    lemma GrowSegment(g: Segment, delta: string, committed: string)
      requires Inside(prefix, g, committed) && (g.overlapResolved ==> Resolved(g.base, g.raw))
      ensures Inside(prefix, g.(raw := g.raw + delta), committed)
      ensures g.overlapResolved ==> Resolved(g.base, g.raw + delta)
    {
      hide Bytes, Resolved, Longest;
      if g.overlapResolved {
        ResolvedIsStable(g.base, g.raw, delta);
        var k := Longest(g.base, g.raw);
        assert (g.raw + delta)[k..] == g.raw[k..] + delta;
      }
    }

    /** Streams a segment. Undisturbed, and on steady text, what it commits depends only on the whole text. */
    method StreamDeltas(deltas: seq<string>)
      requires Valid() && InSegment() && |ledger.events| <= MAX_PROGRESS - 1 && accepting
      requires segment == Segment(ledger.committed, "", false, 0, ledger.committed == "")
      modifies this`segment, this`ledger, this`ended
      ensures Valid() && InSegment() && |ledger.events| <= MAX_PROGRESS - 1
      ensures segment.overlapResolved ==> Resolved(segment.base, segment.raw)
      ensures old(ended).Some? ==> ended == old(ended)
      ensures segment.base == old(ledger).committed && old(ledger).cuts <= ledger.cuts
      ensures ended.None? && !segment.overflow ==> segment.raw == Concat(deltas)
      ensures ended.None? && Bytes(segment.base) + Bytes(Concat(deltas)) <= MAX_TEXT_BYTES ==>
                segment.raw == Concat(deltas) && !segment.overflow
                && (Steady(u, segment.base, Concat(deltas)) ==>
                      ledger.cuts == old(ledger).cuts + StreamCuts(u, segment.base, Concat(deltas)))
    {
      hide *;
      ghost var base, cuts, streamed := segment.base, ledger.cuts, Concat(deltas);
      ghost var fits := Bytes(base) + Bytes(streamed) <= MAX_TEXT_BYTES;
      StreamStart(deltas);
      for j := 0 to |deltas|
        invariant Valid() && InSegment() && |ledger.events| <= MAX_PROGRESS - 1
        invariant segment.overlapResolved ==> Resolved(segment.base, segment.raw)
        invariant old(ended).Some? ==> ended == old(ended)
        invariant segment.base == base && cuts <= ledger.cuts
        invariant ended.None? && !segment.overflow ==> segment.raw == Concat(deltas[..j])
        invariant ended.None? && fits ==> Flowing(u, segment, ledger.cuts, |cuts|, Concat(deltas[..j]), streamed)
      {
        TakeDelta(deltas, j, cuts);
      }
      assert deltas[..|deltas|] == deltas;
      if ended.None? && fits {
        FlowEnd(u, segment, ledger.cuts, |cuts|, streamed);
      }
    }

    lemma StreamStart(deltas: seq<string>)
      requires Valid() && segment == Segment(ledger.committed, "", false, 0, ledger.committed == "")
      ensures Flowing(u, segment, ledger.cuts, |ledger.cuts|, Concat(deltas[..0]), Concat(deltas))
      ensures LastOr(ledger.cuts, |prefix|) == |segment.base|
      ensures segment.overlapResolved ==> Resolved(segment.base, segment.raw)
      ensures segment.raw == Concat(deltas[..0])
    {
      FlowStart(u, segment.base, ledger.cuts, Concat(deltas));
    }

    method TakeDelta(deltas: seq<string>, j: nat, ghost cuts: seq<nat>)
      requires j < |deltas| && accepting
      requires Valid() && InSegment() && |ledger.events| <= MAX_PROGRESS - 1
      requires segment.overlapResolved ==> Resolved(segment.base, segment.raw)
      requires cuts <= ledger.cuts && LastOr(cuts, |prefix|) == |segment.base|
      modifies this`segment, this`ledger, this`ended
      ensures Valid() && InSegment() && |ledger.events| <= MAX_PROGRESS - 1
      ensures segment.overlapResolved ==> Resolved(segment.base, segment.raw)
      ensures old(ended).Some? ==> ended == old(ended)
      ensures segment.base == old(segment).base && cuts <= ledger.cuts
      ensures ended.None? && !segment.overflow ==>
                !old(segment).overflow && (old(segment).raw == Concat(deltas[..j]) ==> segment.raw == Concat(deltas[..j + 1]))
      ensures ended.None? && Bytes(segment.base) + Bytes(Concat(deltas)) <= MAX_TEXT_BYTES ==>
                Flowing(u, old(segment), old(ledger).cuts, |cuts|, Concat(deltas[..j]), Concat(deltas)) ==>
                  Flowing(u, segment, ledger.cuts, |cuts|, Concat(deltas[..j + 1]), Concat(deltas))
    {
      assert Sound(speech, prefix, ledger);
      hide *;
      ghost var g, w := segment, ledger;
      ConcatStep(deltas, j);
      OnDelta(deltas[j]);
      if ended.None? && Bytes(segment.base) + Bytes(Concat(deltas)) <= MAX_TEXT_BYTES
         && Flowing(u, g, w.cuts, |cuts|, Concat(deltas[..j]), Concat(deltas)) {
        FlowFits(u, g, w.cuts, |cuts|, Concat(deltas[..j]), deltas[j], Concat(deltas));
        CutsSince(speech, prefix, w, cuts, g.base);
        FlowTook(u, g, segment, w.cuts, ledger.cuts, |w.committed|, deltas[j]);
        FlowStep(u, g, segment, w.cuts, ledger.cuts, |cuts|, Concat(deltas[..j]), deltas[j], Concat(deltas));
      }
    }

    /** Opens the next segment and books its request. */
    method BeginSegment(index: nat) returns (budget: int)
      requires Valid() && Running() && books.spent < limits.maxTotalTokens
      modifies this`metadata, this`segment, this`accepting, this`books
      ensures segment == Segment(ledger.committed, "", false, 0, ledger.committed == "") && accepting
      ensures budget == Budget(limits, books.spent)
      ensures books == old(books).(budgets := old(books).budgets + [budget])
      ensures metadata == old(metadata).(segmentCount := index + 1, continuationCount := index,
                                         terminalSSE := false, doneReceived := false, complete := false)
    {
      budget := if limits.segmentTokens < limits.maxTotalTokens - books.spent then limits.segmentTokens
                else limits.maxTotalTokens - books.spent;
      metadata := metadata.(segmentCount := index + 1, continuationCount := index);
      metadata := metadata.(terminalSSE := false, doneReceived := false, complete := false);
      segment := Segment(ledger.committed, "", false, 0, ledger.committed == "");
      accepting := true;
      books := books.(budgets := books.budgets + [budget]);
    }

    /** The books of a run that has not finished. */
    ghost predicate Running()
      reads this
    {
      && |ledger.events| <= MAX_PROGRESS - 1
      && 1 <= limits.segmentTokens <= 32768 && 1 <= limits.maxSegments <= 3
      && 1 <= limits.maxTotalTokens <= limits.segmentTokens * limits.maxSegments
      && 0 <= books.spent <= limits.maxTotalTokens
      && books.repairs == (if books.repaired then 1 else 0)
    }

    /** Takes over what the provider reports of a call, and adds up its tokens. */
    method TakeReport(index: nat, call: Call, budget: int) returns (charge: int)
      modifies this`metadata, this`books
      ensures charge == Charge(call, budget)
      ensures books == old(books).(allCompletionObserved := books.allCompletionObserved,
                                   allReasoningObserved := books.allReasoningObserved)
      ensures metadata.finish == FinishOf(call, old(metadata).finish)
      ensures metadata.completionTokens == old(metadata).completionTokens + Reported(call)
      ensures metadata.complete == old(metadata).complete
      ensures !old(metadata).terminalSSE && !old(metadata).doneReceived ==>
                (Framed(call) <==> metadata.terminalSSE && metadata.doneReceived)
      ensures call.response.Some? ==>
                (metadata.completionTokensObserved <==> old(books).allCompletionObserved && Reports(call))
      ensures call.response.Some? ==> (books.allCompletionObserved <==> old(books).allCompletionObserved && Reports(call))
    {
      charge := budget;
      if call.response.None? {
        return;
      }
      var response := call.response.value;
      metadata := metadata.(finish := response.finish, providerFinish := response.finish);
      if response.generation.Some? {
        var terminal := response.generation.value;
        metadata := metadata.(finish := terminal.finish, providerFinish := terminal.providerFinish,
                              terminalSSE := terminal.terminalSSE, doneReceived := terminal.doneReceived);
        if terminal.completionTokensObserved && terminal.completionTokens >= 0 {
          metadata := metadata.(completionTokens := metadata.completionTokens + terminal.completionTokens);
          charge := terminal.completionTokens;
        } else {
          books := books.(allCompletionObserved := false);
        }
        TakeReasoning(index, terminal);
      } else {
        books := books.(allCompletionObserved := false, allReasoningObserved := false);
        metadata := metadata.(reasoningTokens := None, reasoningSource := Unavailable);
      }
      metadata := metadata.(completionTokensObserved := books.allCompletionObserved);
    }

    /** Reasoning tokens add up only while every segment reports them from the same source. */
    method TakeReasoning(index: nat, terminal: Metadata)
      modifies this`metadata, this`books
      ensures books == old(books).(allReasoningObserved := books.allReasoningObserved)
      ensures metadata == old(metadata).(reasoningTokens := metadata.reasoningTokens, reasoningSource := metadata.reasoningSource)
      ensures books.allReasoningObserved <==>
              && old(books).allReasoningObserved && terminal.reasoningTokens.Some? && terminal.reasoningTokens.value >= 0
              && terminal.reasoningSource != Unavailable
              && (index == 0 || old(metadata).reasoningSource == terminal.reasoningSource)
      ensures if books.allReasoningObserved then
                && metadata.reasoningSource == terminal.reasoningSource
                && metadata.reasoningTokens == Some((if old(metadata).reasoningTokens.Some? then old(metadata).reasoningTokens.value else 0)
                                                    + terminal.reasoningTokens.value)
              else metadata.reasoningTokens == None && metadata.reasoningSource == Unavailable
    {
      var sourceKnown := terminal.reasoningSource == Provider || terminal.reasoningSource == Retokenized;
      if books.allReasoningObserved && terminal.reasoningTokens.Some? && terminal.reasoningTokens.value >= 0 && sourceKnown
         && (index == 0 || metadata.reasoningSource == terminal.reasoningSource) {
        var sum := if metadata.reasoningTokens.Some? then metadata.reasoningTokens.value else 0;
        metadata := metadata.(reasoningTokens := Some(sum + terminal.reasoningTokens.value),
                              reasoningSource := terminal.reasoningSource);
      } else {
        books := books.(allReasoningObserved := false);
        metadata := metadata.(reasoningTokens := None, reasoningSource := Unavailable);
      }
    }

    /** The answer must extend what was streamed. */
    method TakeAnswer(call: Call) returns (consistent: bool)
      requires InSegment() && (segment.overlapResolved ==> Resolved(segment.base, segment.raw))
      modifies this`segment
      ensures InSegment()
      ensures segment.overlapResolved ==> Resolved(segment.base, segment.raw)
      ensures consistent <==> (call.response.Some? ==> old(segment).raw <= call.response.value.answer)
      ensures segment == if consistent && call.response.Some? then old(segment).(raw := call.response.value.answer) else old(segment)
    {
      if call.response.Some? {
        var answer := call.response.value.answer;
        if segment.raw <= answer {
          GrowSegment(segment, answer[|segment.raw|..], ledger.committed);
          assert segment.raw + answer[|segment.raw|..] == answer;
          segment := segment.(raw := answer);
        } else {
          return false;
        }
      }
      return true;
    }

    /** Charges the total budget, which is never exceeded. */
    method Spend(charge: int)
      requires books.spent <= limits.maxTotalTokens
      modifies this`books
      ensures books == old(books).(spent := Spent(limits.maxTotalTokens, old(books).spent, charge))
      ensures 0 <= old(books).spent && 0 <= charge ==> 0 <= books.spent <= limits.maxTotalTokens
    {
      if charge >= limits.maxTotalTokens - books.spent {
        books := books.(spent := limits.maxTotalTokens);
      } else {
        books := books.(spent := books.spent + charge);
      }
    }

    /** Decides what follows a call whose text has been taken in whole. */
    method CloseSegment(call: Call, ghost previous: Reason) returns (done: bool, code: Option<Code>)
      requires Valid() && InSegment() && Running()
      requires segment.raw == Said(call) && Consistent(call) && !metadata.complete
      requires metadata.finish == FinishOf(call, previous)
      requires Framed(call) <==> metadata.terminalSSE && metadata.doneReceived
      modifies this`metadata, this`segment, this`ledger, this`ended, this`books
      ensures Valid() && InSegment() && Running() && segment.base == old(segment).base
      ensures old(ended).Some? ==> ended == old(ended)
      ensures old(ledger).committed <= ledger.committed
      ensures metadata.completionTokens == old(metadata).completionTokens
      ensures segment.raw == old(segment).raw && (LooksAgain(call) ==> segment.overlapResolved)
      ensures books == old(books).(repaired := books.repaired, repairs := books.repairs)
      ensures (old(books).repaired ==> books.repaired) && (books.repaired && !old(books).repaired ==> !done)
      ensures !done ==> metadata.finish == old(metadata).finish && code == None
      ensures Follows(Judge(u, segment.base, call, previous, old(books).repaired), done, code, metadata.complete, books.repaired, old(books).repaired)
      ensures ledger.cuts == old(ledger).cuts + ClosingCuts(u, old(segment), call, |old(ledger).committed|)
    {
      hide BalancedText, Sound, CutOff, Inside, PublishedCuts, ClosingCuts, FailsEarly, EarlyCode, LooksAgain, TailAllowed;
      hide Candidate, Said, Consistent, NeedsFraming, Judge, Follows, Framed, StoppedComplete, FinishOf;
      var early;
      early, code := FailEarly(call, previous);
      if early {
        EarlyJudge(u, segment.base, call, previous, books.repaired);
        return true, code;
      }
      LateCall(call, previous);
      StopSeen(call, previous, metadata.terminalSSE && metadata.doneReceived);
      LateJudge(u, segment.base, call, previous, books.repaired);
      var completeStop := metadata.finish == Stop && call.response.value.generation.Some?
                          && call.response.value.generation.value.complete
                          && metadata.terminalSSE && metadata.doneReceived;
      LateLook(u, segment, call, previous, completeStop, BalancedText(u, Candidate(segment.base, segment.raw)), |ledger.committed|);
      var balanced := LookAtEnd(completeStop);
      done, code := Conclude(completeStop, balanced);
    }

    method Conclude(completeStop: bool, balanced: bool) returns (done: bool, code: Option<Code>)
      requires books.repairs == (if books.repaired then 1 else 0) && !metadata.complete
      modifies this`metadata, this`books
      ensures books == old(books).(repaired := books.repaired, repairs := if books.repaired then 1 else 0)
      ensures metadata == old(metadata).(complete := metadata.complete)
      ensures Follows(if completeStop && balanced then Halt(None, true)
                      else if metadata.finish == Length && metadata.terminalSSE && metadata.doneReceived then Continue
                      else if completeStop then (if old(books).repaired then Halt(None, false) else Repair)
                      else Halt(Some(Incomplete), false),
                      done, code, metadata.complete, books.repaired, old(books).repaired)
    {
      if completeStop && balanced {
        metadata := metadata.(complete := true);
        return true, None;
      }
      if metadata.finish == Length && metadata.terminalSSE && metadata.doneReceived {
        return false, None;
      }
      if completeStop && !balanced && !books.repaired {
        books := books.(repaired := true, repairs := books.repairs + 1);
        return false, None;
      }
      if completeStop {
        return true, None;
      }
      return true, Some(Incomplete);
    }

    /** A failed call, no answer, a blank answer, or an answer whose stream was not closed properly. */
    method FailEarly(call: Call, ghost previous: Reason) returns (early: bool, code: Option<Code>)
      requires Valid() && InSegment() && |ledger.events| <= MAX_PROGRESS - 1
      requires segment.raw == Said(call) && Consistent(call)
      requires metadata.finish == FinishOf(call, previous)
      requires Framed(call) <==> metadata.terminalSSE && metadata.doneReceived
      modifies this`metadata, this`segment, this`ledger, this`ended
      ensures Valid() && InSegment() && |ledger.events| <= MAX_PROGRESS - 1
      ensures segment.base == old(segment).base && segment.raw == old(segment).raw
      ensures old(ended).Some? ==> ended == old(ended)
      ensures old(ledger).committed <= ledger.committed
      ensures metadata.(finish := old(metadata).finish) == old(metadata)
      ensures early == FailsEarly(call, previous)
      ensures early ==> code == Some(EarlyCode(call, previous)) && (LooksAgain(call) ==> segment.overlapResolved)
                        && ledger.cuts == old(ledger).cuts + ClosingCuts(u, old(segment), call, |old(ledger).committed|)
      ensures !early ==> metadata == old(metadata) && segment == old(segment) && ledger == old(ledger)
    {
      hide Decided, PublishedCuts, ClosingCuts, LooksAgain, TailAllowed, EarlyCode, FailsEarly;
      hide Sound, Inside, Framed, FinishOf, Said, Consistent;
      early, code := EarlyEnd(call, previous);
      if early {
        EarlyLook(u, segment.base, call, previous);
        if code.value.Failed? || code.value.FramingEof? {
          ClosingLook(u, segment, call, false, |ledger.committed|);
          Publish(true, false);
        } else {
          NoClosingLook(u, segment, call, |ledger.committed|);
        }
      }
    }

    method EarlyEnd(call: Call, ghost previous: Reason) returns (early: bool, code: Option<Code>)
      requires metadata.finish == FinishOf(call, previous)
      requires Framed(call) <==> metadata.terminalSSE && metadata.doneReceived
      modifies this`metadata
      ensures metadata.(finish := old(metadata).finish) == old(metadata)
      ensures early == FailsEarly(call, previous)
      ensures if early then code == Some(EarlyCode(call, previous)) else metadata == old(metadata)
    {
      if call.error.Some? {
        if call.error.value.ContextFailure? {
          metadata := metadata.(finish := ContextReason(call.error.value.cause));
        }
        return true, Some(Failed(metadata.finish));
      }
      if call.response.None? {
        return true, Some(MissingResponse);
      }
      if TrimSpace(call.response.value.answer) == "" {
        return true, Some(EmptyResult);
      }
      if NeedsFraming(metadata.finish) && (!metadata.terminalSSE || !metadata.doneReceived) {
        metadata := metadata.(finish := TransportEof);
        return true, Some(FramingEof);
      }
      return false, None;
    }

    /** The last look at a segment: a complete stop of balanced text may be committed to its end. */
    method LookAtEnd(completeStop: bool) returns (balanced: bool)
      requires Valid() && InSegment() && |ledger.events| <= MAX_PROGRESS - 1
      modifies this`segment, this`ledger, this`ended
      ensures Valid() && InSegment() && |ledger.events| <= MAX_PROGRESS - 1
      ensures old(ended).Some? ==> ended == old(ended)
      ensures old(ledger).committed <= ledger.committed
      ensures segment.base == old(segment).base && segment.raw == old(segment).raw && segment.overlapResolved
      ensures balanced == BalancedText(u, Candidate(segment.base, segment.raw))
      ensures ledger.cuts == old(ledger).cuts
                             + PublishedCuts(u, old(segment).(overlapResolved := true), completeStop && balanced, |old(ledger).committed|)
    {
      hide BalancedText, FinalBoundaries, Sound, Bytes, Above, Resolved, Longest;
      if !segment.overlapResolved {
        ForcedOverlap(prefix, segment, ledger.committed);
        var overlap, resolved := GenerationOverlap(segment.base, segment.raw, true);
        segment := segment.(overlap := overlap, overlapResolved := resolved);
      }
      var _, closed := GenerationBoundaries(u, segment.base + segment.raw[segment.overlap..], true);
      balanced := closed;
      Publish(true, completeStop && balanced);
    }

    lemma SoundNow()
      requires Valid()
      ensures Sound(speech, prefix, ledger) && LastOr(ledger.cuts, |prefix|) == |ledger.committed|
    {
    }

    lemma SinceCuts(cuts: seq<nat>, base: string)
      requires Valid() && cuts <= ledger.cuts && LastOr(cuts, |prefix|) == |base|
      ensures LastOr(ledger.cuts[|cuts|..], |base|) == |ledger.committed|
    {
      CutsSince(speech, prefix, ledger, cuts, base);
    }

    lemma EnterSegment()
      requires segment == Segment(ledger.committed, "", false, 0, ledger.committed == "")
      requires prefix <= ledger.committed && Bytes(ledger.committed) <= MAX_TEXT_BYTES
      ensures InSegment()
    {
      StartInside(prefix, ledger.committed);
    }

    /** The run is complete: its last call ended with a proper stop of balanced text, and all of that is committed
        if and only if it fits. */
    ghost predicate CompletedBy(call: Call)
      reads this
    {
      && Completes(u, segment.base, call)
      && (ledger.committed == Candidate(segment.base, Said(call)) <==> Bytes(Candidate(segment.base, Said(call))) <= MAX_TEXT_BYTES)
    }

    lemma BaseWithin()
      requires InSegment()
      ensures segment.base <= ledger.committed && Bytes(ledger.committed) <= MAX_TEXT_BYTES
    {
    }

    lemma WithinCandidate()
      requires InSegment() && segment.overlapResolved
      ensures ledger.committed <= Candidate(segment.base, segment.raw) && Bytes(ledger.committed) <= MAX_TEXT_BYTES
    {
    }

    /** Opens a segment, streams its deltas, and takes no more. */
    method Stream(index: nat, call: Call) returns (budget: int)
      requires Valid() && Running() && books.spent < limits.maxTotalTokens && prefix <= ledger.committed
      requires Bytes(ledger.committed) <= MAX_TEXT_BYTES
      modifies this`metadata, this`segment, this`accepting, this`ledger, this`ended, this`books
      ensures Valid() && InSegment() && Running() && segment.base == old(ledger).committed
      ensures old(ended).Some? ==> ended == old(ended)
      ensures old(ledger).cuts <= ledger.cuts && old(ledger).committed <= ledger.committed
      ensures metadata == old(metadata).(segmentCount := index + 1, continuationCount := index,
                                         terminalSSE := false, doneReceived := false, complete := false)
      ensures books == old(books).(budgets := old(books).budgets + [budget])
      ensures budget == Budget(limits, old(books).spent) && 1 <= budget <= limits.segmentTokens
      ensures segment.overlapResolved ==> Resolved(segment.base, segment.raw)
      ensures ended.None? && !segment.overflow ==> segment.raw == Concat(call.deltas)
      ensures ended.None? && Bytes(segment.base) + Bytes(Concat(call.deltas)) <= MAX_TEXT_BYTES ==>
                segment.raw == Concat(call.deltas) && !segment.overflow
                && (Steady(u, segment.base, Concat(call.deltas)) ==>
                      ledger.cuts == old(ledger).cuts + StreamCuts(u, segment.base, Concat(call.deltas)))
    {
      hide Sound, Inside, Bytes, Steady, StreamCuts, Concat, Resolved;
      budget := BeginSegment(index);
      EnterSegment();
      StreamDeltas(call.deltas);
      BaseWithin();
      accepting := false;
    }

    /** Requests one segment and takes in what it says. Some runs end here already. */
    method Receive(index: nat, call: Call) returns (early: bool, code: Option<Code>)
      requires Valid() && Running() && books.spent < limits.maxTotalTokens && prefix <= ledger.committed
      requires Bytes(ledger.committed) <= MAX_TEXT_BYTES
      modifies this`metadata, this`segment, this`accepting, this`ledger, this`ended, this`books
      ensures Valid() && InSegment() && Running() && segment.base == old(ledger).committed
      ensures old(ended).Some? ==> ended == old(ended)
      ensures old(ledger).cuts <= ledger.cuts && old(ledger).committed <= ledger.committed
      ensures !metadata.complete && metadata.completionTokens == old(metadata).completionTokens + Reported(call)
      ensures books.repaired == old(books).repaired && |books.budgets| == |old(books).budgets| + 1 && old(books).budgets <= books.budgets
      ensures var budget := books.budgets[|old(books).budgets|];
              && budget == Budget(limits, old(books).spent) && 1 <= budget <= limits.segmentTokens
              && (books.spent == Spent(limits.maxTotalTokens, old(books).spent, Charge(call, budget))
                  || (early && books.spent == old(books).spent))
      ensures !early ==>
                && segment.raw == Said(call) && Consistent(call) && metadata.finish == FinishOf(call, old(metadata).finish)
                && (Framed(call) <==> metadata.terminalSSE && metadata.doneReceived)
      ensures early && ended.None? && Fits(segment.base, call) ==>
                !Consistent(call) && code == Some(InconsistentResponse) && segment.raw == Taken(call)
      ensures ended.None? && Fits(segment.base, call) && SteadyCall(u, segment.base, call) ==>
                ledger.cuts == old(ledger).cuts + StreamCuts(u, segment.base, Concat(call.deltas))
    {
      hide Sound, Inside, Candidate, Bytes, Steady, StreamCuts, Concat, Said, Consistent, Framed, Charge, Reported, FinishOf,
           Resolved, Reports, Spent;
      var budget := Stream(index, call);
      early, code := TakeIn(index, call, budget, old(metadata).finish);
    }

    /** Takes over the report and the answer of a call, and charges it. */
    method TakeIn(index: nat, call: Call, budget: int, ghost previous: Reason) returns (early: bool, code: Option<Code>)
      requires InSegment() && (segment.overlapResolved ==> Resolved(segment.base, segment.raw)) && budget >= 0
      requires metadata.finish == previous && !metadata.terminalSSE && !metadata.doneReceived && !metadata.complete
      requires ended.None? && !segment.overflow ==> segment.raw == Concat(call.deltas)
      requires ended.None? && Fits(segment.base, call) ==> segment.raw == Concat(call.deltas) && !segment.overflow
      requires 0 <= books.spent <= limits.maxTotalTokens
      modifies this`metadata, this`segment, this`ended, this`books
      ensures InSegment() && segment.base == old(segment).base
      ensures old(ended).Some? ==> ended == old(ended)
      ensures !metadata.complete && metadata.completionTokens == old(metadata).completionTokens + Reported(call)
      ensures books.repaired == old(books).repaired && books.repairs == old(books).repairs && books.budgets == old(books).budgets
      ensures 0 <= books.spent <= limits.maxTotalTokens
      ensures books.spent == Spent(limits.maxTotalTokens, old(books).spent, Charge(call, budget))
              || (early && books.spent == old(books).spent)
      ensures !early ==>
                && segment.raw == Said(call) && Consistent(call) && metadata.finish == FinishOf(call, previous)
                && (Framed(call) <==> metadata.terminalSSE && metadata.doneReceived)
      ensures early && ended.None? && Fits(segment.base, call) ==>
                !Consistent(call) && code == Some(InconsistentResponse) && segment.raw == Taken(call)
    {
      hide Inside, Bytes, Concat, Said, Consistent, Framed, Charge, Reported, FinishOf, Resolved, Reports, Spent, Fits;
      var charge := TakeReport(index, call, budget);
      if Fits(segment.base, call) {
        FitsApart(segment.base, call);
      }
      StreamedConsistent(call, segment.raw);
      var consistent := TakeAnswer(call);
      if !consistent {
        return true, Some(InconsistentResponse);
      }
      Spend(charge);
      var err := ContextErr();
      if err.Some? {
        metadata := metadata.(finish := ContextReason(err.value));
        return true, Some(Ended(metadata.finish));
      }
      if segment.overflow || Bytes(segment.raw) > MAX_TEXT_BYTES {
        return true, Some(TextLimit);
      }
      return false, None;
    }

    /** One segment. Undisturbed, and on steady text that fits, the outcome and the cuts depend only on what is
        said, not on how it is split into deltas. A complete run ended with a proper stop of balanced text. */
    method RunSegment(index: nat, call: Call) returns (done: bool, code: Option<Code>)
      requires Valid() && Running() && books.spent < limits.maxTotalTokens && prefix <= ledger.committed
      requires Bytes(ledger.committed) <= MAX_TEXT_BYTES
      modifies this`metadata, this`segment, this`accepting, this`ledger, this`ended, this`books
      ensures Valid() && InSegment() && Running() && segment.base == old(ledger).committed
      ensures old(ended).Some? ==> ended == old(ended)
      ensures old(ledger).committed <= ledger.committed
      ensures metadata.completionTokens == old(metadata).completionTokens + Reported(call)
      ensures |books.budgets| == |old(books).budgets| + 1 && old(books).budgets <= books.budgets
      ensures var budget := books.budgets[|old(books).budgets|];
              && budget == Budget(limits, old(books).spent) && 1 <= budget <= limits.segmentTokens
              && (books.spent == Spent(limits.maxTotalTokens, old(books).spent, Charge(call, budget))
                  || (done && books.spent == old(books).spent))
      ensures (old(books).repaired ==> books.repaired) && (books.repaired && !old(books).repaired ==> !done)
      ensures !done ==> code == None && !metadata.complete && metadata.finish == FinishOf(call, old(metadata).finish)
      ensures ended.None? && Fits(segment.base, call) ==> segment.raw == Taken(call)
      ensures metadata.complete ==> done && code == None && Completes(u, segment.base, call)
      ensures metadata.complete ==>
                (ledger.committed == Candidate(segment.base, Said(call)) <==> Bytes(Candidate(segment.base, Said(call))) <= MAX_TEXT_BYTES)
      ensures ended.None? && Fits(segment.base, call) ==>
                Follows(Judge(u, segment.base, call, old(metadata).finish, old(books).repaired),
                        done, code, metadata.complete, books.repaired, old(books).repaired)
      ensures ended.None? && Fits(segment.base, call) && SteadyCall(u, segment.base, call) ==>
                ledger.cuts == old(ledger).cuts + SegmentCuts(u, segment.base, call)
    {
      hide Sound, Inside, Judge, Follows, SegmentCuts, Completes, Candidate, Bytes, Fits, SteadyCall, StreamCuts;
      hide ClosingCuts, Concat, Said, Consistent, Framed, Charge, Reported, FinishOf, LooksAgain, TailAllowed;
      ghost var base, cuts, previous, before := ledger.committed, ledger.cuts, metadata.finish, books.repaired;
      SoundNow();
      done, code := Receive(index, call);
      if done {
        if ended.None? && Fits(base, call) {
          JudgedInconsistent(u, base, call, previous, before);
        }
        return;
      }
      ghost var g, w := segment, ledger;
      SoundNow();
      SinceCuts(cuts, base);
      done, code := CloseSegment(call, previous);
      SoundNow();
      if ended.None? && Fits(base, call) && SteadyCall(u, base, call) {
        CutsAddUp(u, g, call, cuts, w.cuts, |w.committed|);
      }
      if metadata.complete {
        FollowsComplete(Judge(u, base, call, previous, before), done, code, books.repaired, before);
        CompleteHasNoCode(u, base, call, previous, before, code);
        JudgedComplete(u, base, call, previous, before);
        WithinCandidate();
        CompleteCommits(u, speech, prefix, g, call, w, ledger);
      }
    }

    /** Where the run stands. */
    ghost function Now(): Standing
      reads this
    {
      Standing(ledger.committed, ledger.cuts, books.spent, books.repaired, metadata.finish)
    }

    /** The run is still what its calls make of it. */
    ghost predicate OnCourse(script: seq<Call>, index: nat, done: bool, code: Option<Code>)
      reads this
    {
      var all := Run(u, limits, script, 0, Standing(prefix, [], 0, false, Unknown));
      if done then all == Outcome(ledger.committed, ledger.cuts, code, metadata.complete)
      else all == Run(u, limits, script, index, Now()) && Calm(u, limits, script, index, Now()) && !metadata.complete
    }

    /** Every call was asked for between one token and a segment's worth, and the tokens reported so far are spent,
        as long as no call exceeds its budget. */
    ghost predicate Budgeted(script: seq<Call>)
      reads this
    {
      && |books.budgets| <= |script|
      && (forall j :: 0 <= j < |books.budgets| ==> 1 <= books.budgets[j] <= limits.segmentTokens)
      && (WithinBudgets(script, books.budgets) ==> metadata.completionTokens <= limits.maxTotalTokens)
      && Asked(limits, script, books.budgets)
    }

    /** One segment of the loop: it stays on course, and within its budget. */
    method NextSegment(script: seq<Call>, index: nat) returns (done: bool, code: Option<Code>)
      requires Valid() && Running() && books.spent < limits.maxTotalTokens
      requires prefix <= ledger.committed && Bytes(ledger.committed) <= MAX_TEXT_BYTES
      requires index < |script| && index < limits.maxSegments && index == |books.budgets|
      requires Budgeted(script) && (WithinBudgets(script, books.budgets) ==> metadata.completionTokens <= books.spent)
      requires books.spent == AtMost(limits.maxTotalTokens, Used(script, books.budgets, |books.budgets|))
      modifies this`metadata, this`segment, this`accepting, this`ledger, this`ended, this`books
      ensures Valid() && Running() && InSegment() && old(ledger).committed == segment.base && segment.base <= ledger.committed
      ensures old(ended).Some? ==> ended == old(ended)
      ensures index + 1 == |books.budgets| && Budgeted(script)
      ensures !done && WithinBudgets(script, books.budgets) ==> metadata.completionTokens <= books.spent
      ensures !done ==> books.spent == AtMost(limits.maxTotalTokens, Used(script, books.budgets, |books.budgets|))
      ensures !done ==> code == None && !metadata.complete
      ensures Bytes(ledger.committed) <= MAX_TEXT_BYTES
      ensures metadata.complete ==> code == None && CompletedBy(script[index])
      ensures ended.None? && old(OnCourse(script, index, false, None)) ==> OnCourse(script, index + 1, done, code)
    {
      hide Sound, CutOff, Inside, Judge, Follows, SegmentCuts, Completes, Candidate, Bytes, Fits, SteadyCall, StreamCuts;
      hide CutText, Taken, FinishOf, Charge, Reported, Run, Calm, Spent, WithinBudgets, Asked, Used;
      ghost var st, budgets, completion := Now(), books.budgets, metadata.completionTokens;
      SoundNow();
      done, code := RunSegment(index, script[index]);
      BudgetsGrow(script, limits, budgets, books.budgets, st.spent, books.spent, completion, metadata.completionTokens, done);
      AskedOn(script, limits, budgets, books.budgets, st.spent);
      if !done {
        UsedOn(script, limits, budgets, books.budgets, st.spent, books.spent);
      }
      SoundNow();
      BaseWithin();
      if ended.None? && old(OnCourse(script, index, false, None)) {
        CalmNow(u, limits, script, index, st);
        CommittedIsCut(speech, prefix, segment, ledger, st.cuts);
        SegmentFollows(u, limits, script, index, st, Now(), done, code, metadata.complete);
      }
    }

    /** The loop over the segments. */
    method RunSegments(script: seq<Call>) returns (code: Option<Code>)
      requires Fresh() && Valid() && Bytes(prefix) <= MAX_TEXT_BYTES && |script| >= limits.maxSegments
      modifies this`metadata, this`segment, this`accepting, this`ledger, this`ended, this`books
      ensures Valid() && Running() && prefix <= ledger.committed && |books.budgets| <= limits.maxSegments && Budgeted(script)
      ensures Bytes(ledger.committed) <= MAX_TEXT_BYTES
      ensures metadata.complete ==> code == None && Last(script)
      ensures ended.None? && Calm(u, limits, script, 0, Standing(prefix, [], 0, false, Unknown)) ==>
                Run(u, limits, script, 0, Standing(prefix, [], 0, false, Unknown))
                == Outcome(ledger.committed, ledger.cuts, code, metadata.complete)
    {
      hide Sound, CutOff, Inside, Completes, Candidate, Bytes, Calm, Run, Reported;
      var index, done := 0, false;
      code := None;
      while !done && index < limits.maxSegments && books.spent < limits.maxTotalTokens
        invariant index == |books.budgets| <= limits.maxSegments
        invariant Valid() && Running() && Budgeted(script) && prefix <= ledger.committed && Bytes(ledger.committed) <= MAX_TEXT_BYTES
        invariant !done ==> code == None && (WithinBudgets(script, books.budgets) ==> metadata.completionTokens <= books.spent)
        invariant !done ==> !metadata.complete && books.spent == AtMost(limits.maxTotalTokens, Used(script, books.budgets, index))
        invariant metadata.complete ==> code == None && Last(script)
        invariant ended.None? && Calm(u, limits, script, 0, Standing(prefix, [], 0, false, Unknown)) ==> OnCourse(script, index, done, code)
        decreases limits.maxSegments - index, !done
      {
        var err := ContextErr();
        if err.Some? {
          metadata := metadata.(finish := ContextReason(err.value));
          done, code := true, Some(Ended(metadata.finish));
        } else {
          done, code := NextSegment(script, index);
          index := index + 1;
        }
      }
      if !done {
        RunStops(u, limits, script, index, Now());
      }
    }

    /** The last call of the run completed it. */
    ghost predicate Last(script: seq<Call>)
      reads this
    {
      && 1 <= |books.budgets| <= |script|
      && prefix <= segment.base <= ledger.committed && CompletedBy(script[|books.budgets| - 1])
    }

    /** Ends the run: delivers what is left, unless the context has ended, which then is the outcome. */
    method Finish(code: Option<Code>) returns (r: Result)
      requires Valid() && |ledger.events| <= MAX_PROGRESS - 1
      modifies this`metadata, this`ledger, this`ended
      ensures Valid() && |ledger.events| <= MAX_PROGRESS
      ensures old(ended).Some? ==> ended == old(ended)
      ensures ledger.committed == old(ledger).committed && ledger.cuts == old(ledger).cuts
      ensures hasProgress && ended.None? ==> ledger.delivered == ledger.committed && ledger.pendingSpeech == []
      ensures r == Result(ledger.committed, metadata.finish, metadata, r.code)
      ensures ended.None? ==> metadata == old(metadata) && r.code == code
      ensures ended.Some? ==>
                && metadata == old(metadata).(complete := false, finish := ContextReason(ended.value))
                && r.code == Some(Ended(ContextReason(ended.value)))
    {
      hide Sound, CutOff;
      var outcome := code;
      EmitProgress(true);
      var err := ContextErr();
      if err.Some? {
        metadata := metadata.(complete := false, finish := ContextReason(err.value));
        outcome := Some(Ended(metadata.finish));
      }
      r := Result(ledger.committed, metadata.finish, metadata, outcome);
    }

    /** The whole run. */
    method Assemble(script: seq<Call>) returns (r: Result)
      requires Fresh() && |script| >= limits.maxSegments
      modifies this
      // The transcript only grows, and what is delivered of it, in text and in speech, is all of it, once, in order.
      ensures Valid() && prefix <= r.answer == ledger.committed && |ledger.events| <= MAX_PROGRESS && r.generation == metadata
      ensures hasProgress && ended.None? ==>
                ledger.delivered == r.answer && Flatten(ledger.batches) == Spoken(speech, r.answer, |prefix|, ledger.cuts)
      ensures |ledger.batches| == |ledger.events|
              && forall j :: 0 <= j < |ledger.events| ==> HandsOut(ledger.events[j].units, ledger.batches[j])
      ensures hasProgress && ended.None? && (forall t :: NEWLINE !in speech(t)) ==>
                Heard(ledger.events) == Spoken(speech, r.answer, |prefix|, ledger.cuts)
      // The books.
      ensures |books.budgets| <= limits.maxSegments && books.repairs <= 1 && Budgeted(script)
      // A complete run.
      ensures r.generation.complete ==> r.code == None && ended.None? && Last(script)
      // A rejected run, a canceled run, and a run that goes on undisturbed.
      ensures !Accepted() ==> r.answer == prefix && ledger.cuts == [] && books.budgets == [] && !r.generation.complete
                              && (ended.None? ==> r.code == Some(Rejection()))
      ensures ended == Some(Canceled) ==> r.finish == ContextCanceled && r.code == Some(Ended(ContextCanceled))
      ensures ended == Some(DeadlineExceeded) ==> r.finish == Timeout && r.code == Some(Ended(Timeout))
      ensures ended.Some? ==> !r.generation.complete
      ensures Accepted() && ended.None? && Calm(u, limits, script, 0, Standing(prefix, [], 0, false, Unknown)) ==>
                Run(u, limits, script, 0, Standing(prefix, [], 0, false, Unknown))
                == Outcome(r.answer, ledger.cuts, r.code, r.generation.complete)
      // What it leaves can be resumed.
      ensures Accepted() ==> Bytes(r.answer) <= MAX_TEXT_BYTES && (Sane(u) && PlainText(r.answer) ==> BalancedText(u, r.answer))
    {
      hide Sound, CutOff, Inside, Completes, Candidate, Bytes, Calm, Run, BalancedText, Spoken, Flatten, PlainText;
      hide HandsOut, Heard;
      var code := Serve(script);
      r := Finish(code);
      AllHanded();
      if hasProgress && ended.None? {
        AllSpoken();
      }
      if Accepted() && Sane(u) && PlainText(r.answer) {
        CommittedResumes(u, prefix, r.answer);
      }
    }

    /** Rejects a request that cannot be served, and runs the segments of any other. */
    method Serve(script: seq<Call>) returns (code: Option<Code>)
      requires Fresh() && |script| >= limits.maxSegments
      modifies this`metadata, this`segment, this`accepting, this`ledger, this`ended, this`books
      ensures Valid() && Running() && prefix <= ledger.committed && |books.budgets| <= limits.maxSegments && Budgeted(script)
      ensures metadata.complete ==> code == None && Last(script)
      ensures Accepted() ==> Bytes(ledger.committed) <= MAX_TEXT_BYTES
      ensures !Accepted() ==> ledger.committed == prefix && ledger.cuts == [] && books.budgets == [] && !metadata.complete
                              && code == Some(Rejection())
      ensures Accepted() && ended.None? && Calm(u, limits, script, 0, Standing(prefix, [], 0, false, Unknown)) ==>
                Run(u, limits, script, 0, Standing(prefix, [], 0, false, Unknown))
                == Outcome(ledger.committed, ledger.cuts, code, metadata.complete)
    {
      hide Sound, CutOff, Inside, Completes, Candidate, Bytes, Calm, Run, BalancedText;
      Begin();
      if !hasChat || Bytes(prefix) > MAX_TEXT_BYTES {
        return Some(InvalidRequest);
      }
      var _, balanced := GenerationBoundaries(u, prefix, true);
      if !balanced {
        return Some(InvalidPrefix);
      }
      code := RunSegments(script);
    }

    /** The request can be served, and the prefix is a text that can be continued. */
    ghost predicate Accepted() {
      hasChat && Bytes(prefix) <= MAX_TEXT_BYTES && BalancedText(u, prefix)
    }

    /** Why a request that is not accepted is rejected. */
    ghost function Rejection(): Code {
      if !hasChat || Bytes(prefix) > MAX_TEXT_BYTES then InvalidRequest else InvalidPrefix
    }

    lemma Begin()
      requires Fresh()
      ensures Valid()
    {
    }

    lemma AllHanded()
      requires Valid()
      ensures |ledger.batches| == |ledger.events|
      ensures forall j :: 0 <= j < |ledger.events| ==> HandsOut(ledger.events[j].units, ledger.batches[j])
    {
    }

    lemma AllSpoken()
      requires Valid() && ledger.pendingSpeech == []
      ensures Flatten(ledger.batches) == Spoken(speech, ledger.committed, |prefix|, ledger.cuts)
      ensures (forall t :: NEWLINE !in speech(t)) ==> Heard(ledger.events) == Flatten(ledger.batches)
    {
      assert Flatten(ledger.batches) + ledger.pendingSpeech == Flatten(ledger.batches);
      AllHanded();
      hide *;
      if forall t :: NEWLINE !in speech(t) {
        HeardAll(speech, ledger.committed, |prefix|, ledger.cuts, ledger.events, ledger.batches);
      }
    }
  }

  lemma HeardAll(speech: string -> string, text: string, from: nat, cuts: seq<nat>, events: seq<Progress>, batches: seq<seq<string>>)
    requires |events| == |batches| && forall j :: 0 <= j < |events| ==> HandsOut(events[j].units, batches[j])
    requires Flatten(batches) == Spoken(speech, text, from, cuts) && forall t :: NEWLINE !in speech(t)
    ensures Heard(events) == Flatten(batches)
  {
    SpokenOneLine(speech, text, from, cuts);
    HeardIsFlat(events, batches);
  }

  ghost predicate WithinBudgets(script: seq<Call>, budgets: seq<int>) {
    |budgets| <= |script| && forall j :: 0 <= j < |budgets| ==> Reported(script[j]) <= budgets[j]
  }

  /** What the first calls have used up: what each reports, or else all that it was asked for. */
  function Used(script: seq<Call>, budgets: seq<int>, n: nat): int
    requires n <= |budgets| <= |script|
  {
    if n == 0 then 0 else Used(script, budgets, n - 1) + Charge(script[n - 1], budgets[n - 1])
  }

  function AtMost(total: int, n: int): int {
    if n < total then n else total
  }

  /** Every call was asked for a whole segment, or for all that the calls before it had left of the total. */
  ghost predicate Asked(limits: Limits, script: seq<Call>, budgets: seq<int>) {
    && |budgets| <= |script|
    && forall j :: 0 <= j < |budgets| ==>
         && Used(script, budgets, j) < limits.maxTotalTokens
         && budgets[j] == AtMost(limits.segmentTokens, limits.maxTotalTokens - Used(script, budgets, j))
  }

  lemma {:induction false} UsedBefore(script: seq<Call>, budgets: seq<int>, budgets': seq<int>, n: nat)
    requires budgets <= budgets' && n <= |budgets| && |budgets'| <= |script|
    ensures Used(script, budgets', n) == Used(script, budgets, n)
  {
    if n == 0 {
    } else {
      UsedBefore(script, budgets, budgets', n - 1);
    }
  }

  lemma BudgetsGrow(script: seq<Call>, limits: Limits, budgets: seq<int>, budgets': seq<int>, spent: int, spent': int,
                    completion: int, completion': int, done: bool)
    requires budgets <= budgets' && |budgets'| == |budgets| + 1 <= |script|
    requires WithinBudgets(script, budgets) ==> completion <= spent
    requires budgets'[|budgets|] == Budget(limits, spent) && spent <= limits.maxTotalTokens
    requires completion' == completion + Reported(script[|budgets|])
    requires spent' == Spent(limits.maxTotalTokens, spent, Charge(script[|budgets|], Budget(limits, spent))) || (done && spent' == spent)
    ensures WithinBudgets(script, budgets') ==> completion' <= limits.maxTotalTokens && (!done ==> completion' <= spent')
  {
    if WithinBudgets(script, budgets') {
      assert forall j :: 0 <= j < |budgets| ==> budgets'[j] == budgets[j];
      assert Reported(script[|budgets|]) <= budgets'[|budgets|];
    }
  }

  lemma AskedOn(script: seq<Call>, limits: Limits, budgets: seq<int>, budgets': seq<int>, spent: int)
    requires budgets <= budgets' && |budgets'| == |budgets| + 1 <= |script|
    requires Asked(limits, script, budgets) && spent == AtMost(limits.maxTotalTokens, Used(script, budgets, |budgets|))
    requires budgets'[|budgets|] == Budget(limits, spent) && spent < limits.maxTotalTokens
    ensures Asked(limits, script, budgets')
  {
    hide Used;
    forall j | 0 <= j < |budgets'|
      ensures Used(script, budgets', j) < limits.maxTotalTokens
      ensures budgets'[j] == AtMost(limits.segmentTokens, limits.maxTotalTokens - Used(script, budgets', j))
    {
      UsedBefore(script, budgets, budgets', j);
      if j < |budgets| {
        assert budgets'[j] == budgets[j];
      }
    }
  }

  lemma UsedOn(script: seq<Call>, limits: Limits, budgets: seq<int>, budgets': seq<int>, spent: int, spent': int)
    requires budgets <= budgets' && |budgets'| == |budgets| + 1 <= |script|
    requires spent == AtMost(limits.maxTotalTokens, Used(script, budgets, |budgets|)) && spent < limits.maxTotalTokens
    requires budgets'[|budgets|] == Budget(limits, spent)
    requires spent' == Spent(limits.maxTotalTokens, spent, Charge(script[|budgets|], Budget(limits, spent)))
    ensures spent' == AtMost(limits.maxTotalTokens, Used(script, budgets', |budgets'|))
  {
    hide Charge, Budget;
    UsedBefore(script, budgets, budgets', |budgets|);
  }

  lemma CalmNow(u: Tables, limits: Limits, calls: seq<Call>, index: nat, st: Standing)
    requires Calm(u, limits, calls, index, st) && Open(limits, calls, index, st)
    ensures Fits(st.committed, calls[index]) && SteadyCall(u, st.committed, calls[index])
  {
  }

  lemma NothingYet(speech: string -> string, candidate: string, boundaries: seq<nat>, from: nat)
    ensures Above(boundaries[..0], from) == [] && Spoken(speech, candidate, from, []) == [] && LastOr([], from) == from
  {
  }

  /** The committed text is the prefix that was given, or some text cut off at one of its boundaries. */
  ghost predicate CutOff(u: Tables, prefix: string, committed: string) {
    committed == prefix || exists text, tail :: committed <= text && |committed| in FinalBoundaries(u, text, tail)
  }

  lemma CutOffNow(u: Tables, prefix: string, text: string, tail: bool, committed: string, added: seq<nat>)
    requires added == Above(FinalBoundaries(u, text, tail), |committed|) && added != []
    ensures LastOr(added, |committed|) <= |text| && CutOff(u, prefix, text[..LastOr(added, |committed|)])
  {
    FinalBoundariesIncrease(u, text, tail);
    AboveIncreasing(FinalBoundaries(u, text, tail), |committed|, |text|);
    assert added[|added| - 1] in added;
  }

  /** What a run commits can be the prefix of another run, as long as it is plain text. */
  lemma CommittedResumes(u: Tables, prefix: string, committed: string)
    requires CutOff(u, prefix, committed) && BalancedText(u, prefix) && Sane(u) && PlainText(committed)
    ensures BalancedText(u, committed)
  {
    if committed != prefix {
      var text, tail :| committed <= text && |committed| in FinalBoundaries(u, text, tail);
      assert text[..|committed|] == committed;
      ResumeRoundTrip(u, text, tail, |committed|);
    }
  }

  lemma StreamedConsistent(call: Call, raw: string)
    ensures raw == Concat(call.deltas) ==> (Consistent(call) <==> (call.response.Some? ==> raw <= call.response.value.answer))
    ensures Said(call) == if call.response.Some? then call.response.value.answer else Concat(call.deltas)
  {
  }
}
