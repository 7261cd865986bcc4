/** Values that pass between the chat adapter, the assembler and its caller. */
module Generation {
  import opened Options
  import opened Runes

  datatype ContextError = Canceled | DeadlineExceeded

  datatype Reason = Unknown | Stop | Length | ToolCalls | Timeout | TransportEof | ContextCanceled

  datatype Source = Unavailable | Provider | Retokenized

  datatype Metadata = Metadata(
    finish: Reason,
    providerFinish: Reason,
    outputBudget: int,
    totalTokenBudget: int,
    maxSegments: int,
    softTargetPercent: int,
    completionTokens: int,
    completionTokensObserved: bool,
    reasoningTokens: Option<int>,
    reasoningSource: Source,
    segmentCount: int,
    continuationCount: int,
    terminalSSE: bool,
    doneReceived: bool,
    complete: bool)

  datatype Response = Response(answer: string, finish: Reason, generation: Option<Metadata>)

  datatype ProviderError = ContextFailure(cause: ContextError) | OtherFailure

  /** What one provider call does: the deltas it calls back with, and what it returns. */
  datatype Call = Call(deltas: seq<string>, response: Option<Response>, error: Option<ProviderError>)

  datatype Progress = Progress(text: string, units: seq<string>, metadata: Metadata)

  datatype Code =
    | InvalidRequest
    | InvalidPrefix
    | Ended(reason: Reason)
    | InconsistentResponse
    | TextLimit
    | Failed(reason: Reason)
    | MissingResponse
    | EmptyResult
    | FramingEof
    | Incomplete

  datatype Result = Result(answer: string, finish: Reason, generation: Metadata, code: Option<Code>)

  datatype Limits = Limits(segmentTokens: int, maxSegments: int, maxTotalTokens: int, softTargetPercent: int)

  /** The books of a run: tokens spent of the total, the budget of each call, and the single repair. */
  datatype Books = Books(
    spent: int,
    budgets: seq<int>,
    repaired: bool,
    repairs: nat,
    allCompletionObserved: bool,
    allReasoningObserved: bool)

  const MAX_TEXT_BYTES := 0x20000

  function ContextReason(e: ContextError): Reason {
    match e
    case DeadlineExceeded => Timeout
    case Canceled => ContextCanceled
  }

  /** The limits a run works with, from those requested. */
  method EffectiveGenerationLimits(maxTokens: int, requested: Limits) returns (limits: Limits)
    ensures 1 <= limits.segmentTokens <= 32768
    ensures 1 <= limits.maxSegments <= 3
    ensures 1 <= limits.maxTotalTokens <= limits.segmentTokens * limits.maxSegments
    ensures 70 <= limits.softTargetPercent <= 80
    ensures var wanted := if requested.segmentTokens > 0 then requested.segmentTokens
                          else if maxTokens > 0 then maxTokens else 512;
            limits.segmentTokens == if wanted > 32768 then 32768 else wanted
    ensures 0 < requested.maxSegments <= 3 <==> limits.maxSegments == requested.maxSegments
    ensures limits.maxSegments == requested.maxSegments || limits.maxSegments == 3
    ensures 0 < requested.maxTotalTokens <= limits.segmentTokens * limits.maxSegments ==>
              limits.maxTotalTokens == requested.maxTotalTokens
    ensures !(0 < requested.maxTotalTokens <= limits.segmentTokens * limits.maxSegments) ==>
              limits.maxTotalTokens == limits.segmentTokens * limits.maxSegments
    ensures limits.softTargetPercent == if requested.softTargetPercent <= 0 then 75
                                        else if requested.softTargetPercent < 70 then 70
                                        else if requested.softTargetPercent > 80 then 80 else requested.softTargetPercent
  {
    limits := requested;
    if limits.segmentTokens <= 0 {
      limits := limits.(segmentTokens := maxTokens);
    }
    if limits.segmentTokens <= 0 {
      limits := limits.(segmentTokens := 512);
    }
    if limits.segmentTokens > 32768 {
      limits := limits.(segmentTokens := 32768);
    }
    if limits.maxSegments <= 0 || limits.maxSegments > 3 {
      limits := limits.(maxSegments := 3);
    }
    if limits.maxTotalTokens <= 0 || limits.maxTotalTokens > limits.segmentTokens * limits.maxSegments {
      limits := limits.(maxTotalTokens := limits.segmentTokens * limits.maxSegments);
    }
    if limits.softTargetPercent <= 0 {
      limits := limits.(softTargetPercent := 75);
    }
    var soft := limits.softTargetPercent;
    limits := limits.(softTargetPercent := if soft < 70 then 70 else if soft > 80 then 80 else soft);
  }
}
