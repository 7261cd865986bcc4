/** The reader of one streamed chat completion. */
module StreamReader {
  import opened Runes
  import opened Commits
  import opened Options
  import opened Generation
  import opened Stream

  /** The reported completion tokens are the last that were counted. */
  ghost predicate CountsCompletion(g: Metadata, seen: seq<Event>) {
    match CompletionReported(seen)
    case None => !g.completionTokensObserved && g.completionTokens == 0
    case Some(n) => g.completionTokensObserved && g.completionTokens == n
  }

  /** The reported reasoning tokens are the provider's last count, or else those counted again. */
  ghost predicate CountsReasoning(g: Metadata, seen: seq<Event>) {
    if ReasoningProvided(seen).Some? then g.reasoningSource == Provider && g.reasoningTokens == ReasoningProvided(seen)
    else if ReasoningRecounted(seen).Some? then g.reasoningSource == Retokenized && g.reasoningTokens == ReasoningRecounted(seen)
    else g.reasoningSource == Unavailable && g.reasoningTokens == None
  }

  ghost predicate Announces(g: Metadata, seen: seq<Event>) {
    && g.finish == ReasonAnnounced(seen) && g.providerFinish == ReasonAnnounced(seen)
    && (g.terminalSSE <==> !PhaseOf(seen).Opening?) && (g.doneReceived <==> PhaseOf(seen).Closed?) && !g.complete
  }

  /** What a call that read these events can have returned. */
  ghost predicate Adapted(events: seq<Event>, call: Call) {
    && call.response.Some? && call.response.value.generation.Some?
    && Concat(call.deltas) <= call.response.value.answer
    && Bytes(call.response.value.answer) <= MAX_STREAM_BYTES
    && (call.error.None? ==>
          var g := call.response.value.generation.value;
          && WellFormed(events)
          && Concat(call.deltas) == AnswerOf(events) && call.response.value.answer == AnswerOf(events)
          && g.terminalSSE && g.doneReceived && g.finish == ReasonAnnounced(events) && (g.complete <==> g.finish == Stop)
          && CountsCompletion(g, events) && CountsReasoning(g, events))
  }

  class GatewayStream {
    var ended: Option<ContextError>
    var storageFailed: bool
    var generation: Metadata
    var answer: string
    var thinking: string
    var recounted: bool
    var emitted: seq<string>

    constructor ()
      ensures Reads([]) && emitted == [] && ended.None? && !storageFailed
    {
      ended, storageFailed := None, false;
      generation := Metadata(Unknown, Unknown, 0, 0, 0, 0, 0, false, None, Unavailable, 1, 0, false, false, false);
      answer, thinking, recounted, emitted := "", "", false, [];
    }

    /** Holds throughout, also after a failure. */
    ghost predicate Valid()
      reads this
    {
      && Concat(emitted) <= answer && (ended.None? && !storageFailed ==> Concat(emitted) == answer)
      && Bytes(answer) <= MAX_STREAM_BYTES && Bytes(thinking) <= MAX_STREAM_BYTES
    }

    /** Everything seen so far was proper, and is recorded. */
    ghost predicate Reads(seen: seq<Event>)
      reads this
    {
      && Valid() && !PhaseOf(seen).Broken?
      && answer == AnswerOf(seen) && thinking == ThinkingOf(seen)
      && (recounted <==> PhaseOf(seen) == Trailing(true) || (PhaseOf(seen).Closed? && recounted))
      && Announces(generation, seen) && CountsCompletion(generation, seen) && CountsReasoning(generation, seen)
    }

    method ContextErr() returns (e: Option<ContextError>)
      modifies this`ended
      ensures old(ended).Some? ==> ended == old(ended)
      ensures e == ended
    {
      if ended.None? {
        if * {
          ended := Some(Canceled);
        } else if * {
          ended := Some(DeadlineExceeded);
        }
      }
      e := ended;
    }

    /** Records the usage of a chunk; what was recorded before an invalid part stays. */
    method ApplyUsage(usage: Usage) returns (ok: bool)
      modifies this`generation
      ensures ok == UsageFits(usage)
      ensures generation == old(generation).(
                completionTokens := if usage.Usage? && usage.completion.Counted? then usage.completion.n else old(generation).completionTokens,
                completionTokensObserved := old(generation).completionTokensObserved || (usage.Usage? && usage.completion.Counted?),
                reasoningTokens := generation.reasoningTokens, reasoningSource := generation.reasoningSource)
      ensures if usage.Usage? && usage.reasoning.Counted? && UsageFits(usage)
              then generation.reasoningTokens == Some(usage.reasoning.n) && generation.reasoningSource == Provider
              else generation.reasoningTokens == old(generation).reasoningTokens && generation.reasoningSource == old(generation).reasoningSource
    {
      match usage
      case NoUsage => return true;
      case BrokenUsage => return false;
      case Usage(completion, detailsBroken, reasoning) =>
        if completion.Invalid? {
          return false;
        }
        if completion.Counted? {
          generation := generation.(completionTokens := completion.n, completionTokensObserved := true);
        }
        if detailsBroken || reasoning.Invalid? {
          return false;
        }
        if reasoning.Counted? {
          generation := generation.(reasoningTokens := Some(reasoning.n), reasoningSource := Provider);
        }
        return true;
    }

    /** Stores and emits the text of a choice. */
    method TakeText(choice: Choice) returns (failure: Option<Failure>)
      requires Valid() && !storageFailed && choice.Choice?
      modifies this`answer, this`thinking, this`emitted, this`ended, this`storageFailed
      ensures Valid()
      ensures old(ended).Some? ==> ended == old(ended)
      ensures failure.None? ==> !storageFailed && answer == old(answer) + choice.answer && thinking == old(thinking) + choice.thinking
      ensures failure.Some? && !storageFailed ==>
                Bytes(old(answer) + choice.answer) > MAX_STREAM_BYTES || Bytes(old(thinking) + choice.thinking) > MAX_STREAM_BYTES
    {
      hide Bytes, Concat;
      BytesConcat(answer, choice.answer);
      BytesConcat(thinking, choice.thinking);
      if choice.thinking != "" {
        if Bytes(thinking) + Bytes(choice.thinking) > MAX_STREAM_BYTES {
          return Some(Fixed(LlmTransportEof));
        }
        thinking := thinking + choice.thinking;
      }
      if choice.answer != "" {
        if Bytes(answer) + Bytes(choice.answer) > MAX_STREAM_BYTES {
          return Some(Fixed(LlmTransportEof));
        }
        answer := answer + choice.answer;
        if * {
          storageFailed := true;
          return Some(Fixed(StorageFailed));
        }
        var err := ContextErr();
        if err.None? {
          EmittedGrow(emitted, choice.answer);
          emitted := emitted + [choice.answer];
        }
      }
      return None;
    }

    /** Takes a chunk: its usage, its text, and its finish reason. */
    method TakeChunk(e: Event, ghost seen: seq<Event>) returns (failure: Option<Failure>)
      requires Reads(seen) && !storageFailed && e.Chunk? && !generation.doneReceived
      modifies this`generation, this`answer, this`thinking, this`emitted, this`ended, this`storageFailed
      ensures Valid()
      ensures old(ended).Some? ==> ended == old(ended)
      ensures failure.None? ==> Reads(seen + [e]) && !storageFailed && (old(ended).None? ==> ended.None?)
      ensures failure.Some? && ended.None? && !storageFailed ==> PhaseOf(seen + [e]).Broken? || Overlong(seen + [e])
    {
      hide Bytes, Concat;
      Seen(seen, e);
      if |e.choices| > 1 || (generation.terminalSSE && |e.choices| > 0) {
        return Some(Fixed(LlmTransportEof));
      }
      var fits := ApplyUsage(e.usage);
      if !fits {
        return Some(Fixed(LlmTransportEof));
      }
      if |e.choices| == 0 {
        return None;
      }
      var choice := e.choices[0];
      if choice.BrokenChoice? || !choice.atZero {
        return Some(Fixed(LlmTransportEof));
      }
      failure := TakeText(choice);
      if failure.Some? {
        return;
      }
      if choice.finish.BrokenFinish? {
        return Some(Fixed(LlmTransportEof));
      }
      if choice.finish.Finish? {
        generation := generation.(finish := choice.finish.reason, providerFinish := choice.finish.reason, terminalSSE := true);
      }
      var err := ContextErr();
      if err.Some? {
        return Some(ContextEnded(err.value));
      }
      return None;
    }

    method TakeTokenUsage(e: Event, ghost seen: seq<Event>) returns (failure: Option<Failure>)
      requires Reads(seen) && e.TokenUsage? && !generation.doneReceived
      modifies this`generation, this`recounted
      ensures Valid()
      ensures failure.None? ==> Reads(seen + [e])
      ensures failure.Some? ==> PhaseOf(seen + [e]).Broken?
    {
      hide Bytes, Concat;
      Seen(seen, e);
      NotRecounted(seen);
      if !generation.terminalSSE || recounted {
        return Some(Fixed(LlmTransportEof));
      }
      recounted := true;
      if e.source != Some(Retokenized) && e.source != Some(Unavailable) {
        return Some(Fixed(LlmTransportEof));
      }
      if e.source == Some(Retokenized) && (e.tokens.None? || e.tokens.value < 0 || e.tokens.value > 200000) {
        return Some(Fixed(LlmTransportEof));
      }
      if e.source == Some(Unavailable) && e.tokens.Some? {
        return Some(Fixed(LlmTransportEof));
      }
      if generation.reasoningSource != Provider {
        generation := generation.(reasoningTokens := e.tokens, reasoningSource := e.source.value);
      }
      return None;
    }

    /** Handles one event. The end must come after the finish reason, and nothing may come after the end. */
    method Handle(e: Event, ghost seen: seq<Event>) returns (failure: Option<Failure>)
      requires Reads(seen) && !storageFailed
      modifies this`generation, this`answer, this`thinking, this`recounted, this`emitted, this`ended, this`storageFailed
      ensures Valid()
      ensures old(ended).Some? ==> ended == old(ended)
      ensures failure.None? ==> Reads(seen + [e]) && !storageFailed && (old(ended).None? ==> ended.None?)
      ensures failure.Some? && ended.None? && !storageFailed ==> PhaseOf(seen + [e]).Broken? || Overlong(seen + [e])
    {
      hide Bytes, Concat;
      Seen(seen, e);
      if generation.doneReceived {
        return Some(Fixed(LlmTransportEof));
      }
      match e
      case Garbled => return Some(Fixed(LlmTransportEof));
      case Done =>
        generation := generation.(doneReceived := true);
        return if generation.terminalSSE then None else Some(Fixed(LlmTransportEof));
      case Note(parsed) => return if generation.terminalSSE || !parsed then Some(Fixed(LlmTransportEof)) else None;
      case ErrorNotice(error) => return Some(Fixed(error));
      case TokenUsage(_, _) => failure := TakeTokenUsage(e, seen);
      case Chunk(_, _) => failure := TakeChunk(e, seen);
    }

    /** Reads events until one fails, the context ends, or the stream does. */
    method Read(events: seq<Event>, fault: Option<Failure>) returns (failure: Option<Failure>)
      requires Reads([]) && !storageFailed
      modifies this`generation, this`answer, this`thinking, this`recounted, this`emitted, this`ended, this`storageFailed
      ensures Valid()
      ensures old(ended).Some? ==> ended == old(ended)
      ensures failure.None? ==> Reads(events) && !storageFailed && (events != [] ==> ended.None?)
      ensures failure.Some? && ended.None? && !storageFailed && fault.None? ==> PhaseOf(events).Broken? || Overlong(events)
    {
      hide Overlong;
      assert events[..0] == [];
      for j := 0 to |events|
        invariant Valid() && Reads(events[..j]) && !storageFailed
        invariant old(ended).Some? ==> ended == old(ended)
        invariant j > 0 ==> ended.None?
      {
        var err := ContextErr();
        if err.Some? {
          return Some(ContextEnded(err.value));
        }
        assert events[..j + 1] == events[..j] + [events[j]];
        failure := Handle(events[j], events[..j]);
        if failure.Some? {
          if ended.None? && !storageFailed {
            StillFails(events, j + 1);
          }
          return;
        }
      }
      assert events[..|events|] == events;
      return fault;
    }

    /** The error that leaves the reader: one of a fixed list. */
    method SafeError(failure: Failure) returns (fixed: StreamError)
      modifies this`ended
      ensures old(ended).Some? ==> ended == old(ended)
      ensures if ended == Some(Canceled) || failure == ContextEnded(Canceled) then fixed == LlmCanceled
              else if ended == Some(DeadlineExceeded) || failure == ContextEnded(DeadlineExceeded) || failure == NetworkTimeout
              then fixed == LlmTimeout
              else fixed == if failure.Fixed? then failure.error else LlmTransportEof
    {
      var err := ContextErr();
      if err == Some(Canceled) || failure == ContextEnded(Canceled) {
        return LlmCanceled;
      }
      if err == Some(DeadlineExceeded) || failure == ContextEnded(DeadlineExceeded) || failure == NetworkTimeout {
        return LlmTimeout;
      }
      match failure
      case Fixed(error) => return error;
      case _ => return LlmTransportEof;
    }

    /** One provider call over a stream. Undisturbed, it succeeds if and only if the stream is well formed. */
    method Consume(events: seq<Event>, fault: Option<Failure>) returns (call: Call)
      requires Reads([]) && !storageFailed
      modifies this
      ensures Adapted(events, call) && call.deltas == emitted
      ensures ended.None? && !storageFailed && fault.None? ==> (call.error.None? <==> WellFormed(events))
      ensures call.error.Some? ==> call.error == Some(OtherFailure)
      ensures call.error.Some? && ended == Some(Canceled) && !storageFailed ==> call.response.value.finish == ContextCanceled
    {
      hide Bytes, Concat, CountsCompletion, CountsReasoning, FinishesAt;
      ClosedIff(events);
      var failure := Read(events, fault);
      if failure.None? && (!generation.terminalSSE || !generation.doneReceived) {
        failure := Some(Fixed(LlmTransportEof));
      }
      if failure.Some? {
        var fixed := SafeError(failure.value);
        generation := generation.(finish := ErrorReason(fixed));
        return Call(emitted, Some(Response(answer, generation.finish, Some(generation))), Some(OtherFailure));
      }
      SameCounts(events, generation, generation.(complete := generation.finish == Stop));
      generation := generation.(complete := generation.finish == Stop);
      var response := Response(answer, generation.finish, Some(generation));
      if * {
        storageFailed := true;
        return Call(emitted, Some(response), Some(OtherFailure));
      }
      return Call(emitted, Some(response), None);
    }
  }

  lemma SameCounts(events: seq<Event>, g: Metadata, g': Metadata)
    requires g' == g.(complete := g'.complete)
    ensures CountsCompletion(g, events) == CountsCompletion(g', events)
    ensures CountsReasoning(g, events) == CountsReasoning(g', events)
  {
  }

  lemma StillFails(events: seq<Event>, n: nat)
    requires n <= |events| && (PhaseOf(events[..n]).Broken? || Overlong(events[..n]))
    ensures PhaseOf(events).Broken? || Overlong(events)
  {
    if PhaseOf(events[..n]).Broken? {
      FailedStays(events, n);
    } else {
      TextGrows(events, n);
    }
  }

  lemma {:induction false} TextGrows(events: seq<Event>, n: nat)
    requires n <= |events|
    ensures Bytes(AnswerOf(events[..n])) <= Bytes(AnswerOf(events)) && Bytes(ThinkingOf(events[..n])) <= Bytes(ThinkingOf(events))
    decreases |events| - n
  {
    if n == |events| {
      assert events[..n] == events;
    } else {
      TextGrows(events, n + 1);
      var last := events[n];
      assert events[..n + 1][..n] == events[..n];
      BytesConcat(AnswerOf(events[..n]), if Speaks(last) then last.choices[0].answer else "");
      BytesConcat(ThinkingOf(events[..n]), if Speaks(last) then last.choices[0].thinking else "");
    }
  }

  ghost predicate Overlong(events: seq<Event>) {
    Bytes(AnswerOf(events)) > MAX_STREAM_BYTES || Bytes(ThinkingOf(events)) > MAX_STREAM_BYTES
  }

  lemma Seen(seen: seq<Event>, e: Event)
    ensures (seen + [e])[..|seen|] == seen && (seen + [e])[|seen|] == e
  {
  }

  lemma {:induction false} NotRecounted(seen: seq<Event>)
    ensures PhaseOf(seen) in {Opening, Trailing(false)} ==> ReasoningRecounted(seen) == None
  {
    if seen == [] {
    } else {
      NotRecounted(seen[..|seen| - 1]);
    }
  }

  lemma EmittedGrow(emitted: seq<string>, delta: string)
    ensures Concat(emitted + [delta]) == Concat(emitted) + delta
  {
    assert (emitted + [delta])[..|emitted|] == emitted;
  }
}
