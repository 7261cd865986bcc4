/** The events of one streamed chat completion: which sequences of events are a proper answer. */
module Stream {
  import opened Runes
  import opened Commits
  import opened Options
  import opened Generation

  const MAX_STREAM_BYTES := 2 * 1024 * 1024

  datatype StreamError = LlmTimeout | LlmCanceled | LlmTransportEof | BackendUnavailable | StorageFailed

  function ErrorReason(e: StreamError): Reason {
    match e
    case LlmTimeout => Timeout
    case LlmCanceled => ContextCanceled
    case LlmTransportEof => TransportEof
    case _ => Unknown
  }

  /** What reading the stream can fail with. */
  datatype Failure = Fixed(error: StreamError) | ContextEnded(cause: ContextError) | NetworkTimeout | OtherFault

  datatype Tokens = Missing | Invalid | Counted(n: nat)

  datatype Usage = NoUsage | BrokenUsage | Usage(completion: Tokens, detailsBroken: bool, reasoning: Tokens)

  datatype Finish = NoFinish | BrokenFinish | Finish(reason: Reason)

  datatype Choice = BrokenChoice | Choice(atZero: bool, thinking: string, answer: string, finish: Finish)

  /** A parsed event. `Garbled` is data that is not valid for its type; `Note` announces a route, sources or a
      status; the source of a token usage is None when it is neither retokenized nor unavailable. */
  datatype Event =
    | Garbled
    | Done
    | Note(parsed: bool)
    | ErrorNotice(error: StreamError)
    | TokenUsage(tokens: Option<int>, source: Option<Source>)
    | Chunk(usage: Usage, choices: seq<Choice>)

  predicate UsageFits(usage: Usage) {
    usage.NoUsage? || (usage.Usage? && !usage.completion.Invalid? && !usage.detailsBroken && !usage.reasoning.Invalid?)
  }

  predicate TokenUsageFits(e: Event) {
    && e.TokenUsage?
    && ((e.source == Some(Retokenized) && e.tokens.Some? && 0 <= e.tokens.value <= 200000)
        || (e.source == Some(Unavailable) && e.tokens.None?))
  }

  /** A chunk with usage only. */
  predicate UsageOnly(e: Event) {
    e.Chunk? && e.choices == [] && UsageFits(e.usage)
  }

  /** A chunk with one proper choice. */
  predicate Speaks(e: Event) {
    && e.Chunk? && |e.choices| == 1 && UsageFits(e.usage)
    && e.choices[0].Choice? && e.choices[0].atZero && !e.choices[0].finish.BrokenFinish?
  }

  predicate Finishes(e: Event) {
    Speaks(e) && e.choices[0].finish.Finish?
  }

  /** What may come before the finish reason. */
  predicate Opens(e: Event) {
    (e.Note? && e.parsed) || UsageOnly(e) || (Speaks(e) && !Finishes(e))
  }

  /** What may come between the finish reason and the end. */
  predicate Trails(e: Event) {
    UsageOnly(e) || TokenUsageFits(e)
  }

  /** One finish reason, then one end, with nothing after it and at most one token usage before it. */
  ghost predicate FinishesAt(events: seq<Event>, t: nat) {
    && t + 1 < |events| && Finishes(events[t]) && events[|events| - 1] == Done
    && (forall j :: 0 <= j < t ==> Opens(events[j]))
    && (forall j :: t < j < |events| - 1 ==> Trails(events[j]))
    && (forall j, k :: t < j < k < |events| - 1 ==> !(events[j].TokenUsage? && events[k].TokenUsage?))
  }

  ghost predicate WellFormed(events: seq<Event>) {
    && (exists t :: FinishesAt(events, t))
    && Bytes(AnswerOf(events)) <= MAX_STREAM_BYTES && Bytes(ThinkingOf(events)) <= MAX_STREAM_BYTES
  }

  /** What the events say. */
  function AnswerOf(events: seq<Event>): string {
    if events == [] then ""
    else
      var last := events[|events| - 1];
      AnswerOf(events[..|events| - 1]) + (if Speaks(last) then last.choices[0].answer else "")
  }

  function ThinkingOf(events: seq<Event>): string {
    if events == [] then ""
    else
      var last := events[|events| - 1];
      ThinkingOf(events[..|events| - 1]) + (if Speaks(last) then last.choices[0].thinking else "")
  }

  /** The finish reason the events announce. */
  function ReasonAnnounced(events: seq<Event>): Reason {
    if events == [] then Unknown
    else
      var last := events[|events| - 1];
      if Finishes(last) then last.choices[0].finish.reason else ReasonAnnounced(events[..|events| - 1])
  }

  /** The last completion count that was reported. */
  function CompletionReported(events: seq<Event>): Option<int> {
    if events == [] then None
    else
      var last := events[|events| - 1];
      if last.Chunk? && last.usage.Usage? && last.usage.completion.Counted? then Some(last.usage.completion.n)
      else CompletionReported(events[..|events| - 1])
  }

  /** The last reasoning count of the provider, which goes before one that was counted again. */
  function ReasoningProvided(events: seq<Event>): Option<int> {
    if events == [] then None
    else
      var last := events[|events| - 1];
      if last.Chunk? && last.usage.Usage? && last.usage.reasoning.Counted? then Some(last.usage.reasoning.n)
      else ReasoningProvided(events[..|events| - 1])
  }

  function ReasoningRecounted(events: seq<Event>): Option<int> {
    if events == [] then None
    else
      var last := events[|events| - 1];
      if last.TokenUsage? && last.source == Some(Retokenized) then last.tokens
      else ReasoningRecounted(events[..|events| - 1])
  }

  datatype Phase = Opening | Trailing(counted: bool) | Closed | Broken

  /** The phase a stream is in, one event at a time. */
  function Next(phase: Phase, e: Event): Phase {
    match phase
    case Opening => if Finishes(e) then Trailing(false) else if Opens(e) then Opening else Broken
    case Trailing(counted) =>
      if e.Done? then Closed
      else if UsageOnly(e) then phase
      else if TokenUsageFits(e) && !counted then Trailing(true)
      else Broken
    case _ => Broken
  }

  function PhaseOf(events: seq<Event>): Phase {
    if events == [] then Opening else Next(PhaseOf(events[..|events| - 1]), events[|events| - 1])
  }

  lemma {:induction false} OpeningIff(events: seq<Event>)
    ensures PhaseOf(events) == Opening <==> forall j :: 0 <= j < |events| ==> Opens(events[j])
  {
    if events == [] {
    } else {
      var init := events[..|events| - 1];
      OpeningIff(init);
      assert forall j :: 0 <= j < |init| ==> init[j] == events[j];
      assert forall j :: 0 <= j < |events| ==> j < |init| || events[j] == events[|events| - 1];
    }
  }

  /** The stream has announced its finish reason at `t`, and not ended yet. */
  ghost predicate TrailsFrom(events: seq<Event>, t: nat) {
    && t < |events| && Finishes(events[t])
    && (forall j :: 0 <= j < t ==> Opens(events[j]))
    && (forall j :: t < j < |events| ==> Trails(events[j]))
    && (forall j, k :: t < j < k < |events| ==> !(events[j].TokenUsage? && events[k].TokenUsage?))
  }

  lemma {:induction false} TrailingAt(events: seq<Event>) returns (t: nat)
    requires PhaseOf(events).Trailing?
    ensures TrailsFrom(events, t)
    ensures !PhaseOf(events).counted ==> forall j :: t < j < |events| ==> !events[j].TokenUsage?
  {
    var n := |events| - 1;
    var init := events[..n];
    assert forall j :: 0 <= j < n ==> init[j] == events[j];
    if PhaseOf(init).Opening? {
      OpeningIff(init);
      t := n;
    } else {
      t := TrailingAt(init);
    }
  }

  lemma {:induction false} TrailingIs(events: seq<Event>, t: nat)
    requires TrailsFrom(events, t)
    ensures PhaseOf(events) == Trailing(exists j :: t < j < |events| && events[j].TokenUsage?)
  {
    var n := |events| - 1;
    var init := events[..n];
    assert forall j :: 0 <= j < n ==> init[j] == events[j];
    if t == n {
      OpeningIff(init);
    } else {
      assert TrailsFrom(init, t);
      TrailingIs(init, t);
      if events[n].TokenUsage? {
        assert forall j :: t < j < n ==> !init[j].TokenUsage?;
      }
    }
  }

  /** The phases accept exactly the streams with one finish reason followed by one end. */
  lemma ClosedIff(events: seq<Event>)
    ensures PhaseOf(events) == Closed <==> exists t :: FinishesAt(events, t)
  {
    if events != [] {
      var n := |events| - 1;
      var init := events[..n];
      assert forall j :: 0 <= j < n ==> init[j] == events[j];
      if PhaseOf(events) == Closed {
        var t := TrailingAt(init);
        assert FinishesAt(events, t);
      }
      if t :| FinishesAt(events, t) {
        assert TrailsFrom(init, t);
        TrailingIs(init, t);
      }
    }
  }

  /** A stream never recovers: once it fails, or goes on after its end, it has failed. */
  lemma {:induction false} FailedStays(events: seq<Event>, n: nat)
    requires n <= |events|
    requires PhaseOf(events[..n]) == Broken || (PhaseOf(events[..n]) == Closed && n < |events|)
    ensures PhaseOf(events) == Broken
    decreases |events| - n
  {
    if n == |events| {
      assert events[..n] == events;
    } else {
      assert events[..n + 1][..n] == events[..n];
      FailedStays(events, n + 1);
    }
  }
}
