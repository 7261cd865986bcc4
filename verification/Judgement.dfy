/** How a segment ends: what the assembler makes of one provider call. */
module Judgement {
  import opened Runes
  import opened Scanner
  import opened ScanStructure
  import opened Overlap
  import opened Commits
  import opened SegmentCommits
  import opened Stability
  import opened Transcripts
  import opened Options
  import opened Generation

  /** Everything the call says, streamed or not. */
  function Said(call: Call): string {
    if call.response.Some? then call.response.value.answer else Concat(call.deltas)
  }

  function FinishOf(call: Call, previous: Reason): Reason {
    match call.response
    case None => previous
    case Some(response) => if response.generation.Some? then response.generation.value.finish else response.finish
  }

  /** The stream announced its end and was closed properly. */
  predicate Framed(call: Call) {
    && call.response.Some? && call.response.value.generation.Some?
    && call.response.value.generation.value.terminalSSE && call.response.value.generation.value.doneReceived
  }

  predicate StoppedComplete(call: Call) {
    Framed(call) && call.response.value.generation.value.finish == Stop && call.response.value.generation.value.complete
  }

  predicate Consistent(call: Call) {
    call.response.Some? ==> Concat(call.deltas) <= call.response.value.answer
  }

  predicate NeedsFraming(reason: Reason) {
    reason in {Stop, Length, ToolCalls}
  }

  /** The tokens a call is charged: what it reports, or its whole budget. */
  function Charge(call: Call, budget: int): (charge: int)
    ensures budget >= 0 ==> charge >= 0
    ensures call.response.None? || call.response.value.generation.None? ==> charge == budget
    ensures call.response.Some? && call.response.value.generation.Some? ==>
              var g := call.response.value.generation.value;
              charge == if g.completionTokensObserved && g.completionTokens >= 0 then g.completionTokens else budget
  {
    if Reports(call) then Reported(call) else budget
  }

  predicate Reports(call: Call) {
    && call.response.Some? && call.response.value.generation.Some?
    && call.response.value.generation.value.completionTokensObserved
    && call.response.value.generation.value.completionTokens >= 0
  }

  function Reported(call: Call): int {
    if Reports(call) then call.response.value.generation.value.completionTokens else 0
  }

  datatype Step = Continue | Repair | Halt(code: Option<Code>, complete: bool)

  predicate FailsEarly(call: Call, previous: Reason) {
    || call.error.Some? || call.response.None? || TrimSpace(Said(call)) == ""
    || (NeedsFraming(FinishOf(call, previous)) && !Framed(call))
  }

  /** Why: the first of these that applies. */
  function EarlyCode(call: Call, previous: Reason): Code {
    if call.error.Some? then
      Failed(if call.error.value.ContextFailure? then ContextReason(call.error.value.cause) else FinishOf(call, previous))
    else if call.response.None? then MissingResponse
    else if TrimSpace(Said(call)) == "" then EmptyResult
    else FramingEof
  }

  /** What follows an undisturbed call. */
  function Judge(u: Tables, base: string, call: Call, previous: Reason, repaired: bool): Step {
    if !Consistent(call) then Halt(Some(InconsistentResponse), false)
    else if FailsEarly(call, previous) then Halt(Some(EarlyCode(call, previous)), false)
    else if StoppedComplete(call) && BalancedText(u, Candidate(base, Said(call))) then Halt(None, true)
    else if FinishOf(call, previous) == Length && Framed(call) then Continue
    else if StoppedComplete(call) then (if repaired then Halt(None, false) else Repair)
    else Halt(Some(Incomplete), false)
  }

  /** The call was answered with something, and contradicts nothing that was streamed. */
  predicate Answers(call: Call) {
    && (call.response.Some? ==> Concat(call.deltas) <= call.response.value.answer)
    && call.error.None? && call.response.Some? && TrimSpace(call.response.value.answer) != ""
  }

  /** When each outcome occurs: completion after a proper stop of closed text, a continuation after a proper length
      limit, one repair after a proper stop of open text, and each failure for its own reason. */
  lemma Verdicts(u: Tables, base: string, call: Call, previous: Reason, repaired: bool)
    ensures var step := Judge(u, base, call, previous, repaired);
            var closed := BalancedText(u, Candidate(base, Said(call)));
            && (step == Halt(None, true) <==> Answers(call) && StoppedComplete(call) && closed)
            && (step == Repair <==> Answers(call) && StoppedComplete(call) && !closed && !repaired)
            && (step == Halt(None, false) <==> Answers(call) && StoppedComplete(call) && !closed && repaired)
            && (step == Continue <==> Answers(call) && FinishOf(call, previous) == Length && Framed(call))
            && (step == Halt(Some(InconsistentResponse), false) <==> !Consistent(call))
            && (step == Halt(Some(MissingResponse), false) <==> call.error.None? && call.response.None?)
            && (step == Halt(Some(EmptyResult), false) <==>
                  Consistent(call) && call.error.None? && call.response.Some? && TrimSpace(call.response.value.answer) == "")
            && (step == Halt(Some(FramingEof), false) <==>
                  Answers(call) && FinishOf(call, previous) in {Stop, Length, ToolCalls} && !Framed(call))
            && (step.Halt? && step.code.Some? && step.code.value.Failed? <==> Consistent(call) && call.error.Some?)
  {
    hide BalancedText, Candidate, TrimSpace, Concat;
  }

  /** A call that fails with its context fails with the reason of that; another reports what it finished with. */
  lemma FailureReason(u: Tables, base: string, call: Call, previous: Reason, repaired: bool)
    requires Consistent(call) && call.error.Some?
    ensures Judge(u, base, call, previous, repaired)
            == Halt(Some(Failed(match call.error.value
                                case OtherFailure => FinishOf(call, previous)
                                case ContextFailure(Canceled) => ContextCanceled
                                case ContextFailure(DeadlineExceeded) => Timeout)), false)
  {
    hide BalancedText, Candidate, TrimSpace, Concat;
  }

  /** Where an undisturbed call commits: how its text is split into deltas does not matter. A text that has become
      too long when the call ends is not looked at once more. */
  ghost function SegmentCuts(u: Tables, base: string, call: Call): seq<nat> {
    if !Consistent(call) || (call.error.None? && TrimSpace(Said(call)) == "") || (call.error.None? && call.response.None?)
       || Bytes(Candidate(base, Said(call))) > MAX_TEXT_BYTES then
      StreamCuts(u, base, Concat(call.deltas))
    else
      FinalCuts(u, base, Said(call), call.error.None? && StoppedComplete(call) && BalancedText(u, Candidate(base, Said(call))))
  }

  /** What is streamed fits beside what is committed, and the answer fits. */
  ghost predicate Fits(base: string, call: Call) {
    && Bytes(base) + Bytes(Concat(call.deltas)) <= MAX_TEXT_BYTES
    && Bytes(Said(call)) <= MAX_TEXT_BYTES
  }

  ghost predicate SteadyCall(u: Tables, base: string, call: Call) {
    Steady(u, base, Concat(call.deltas)) && Steady(u, base, Said(call))
  }

  /** The call ended with a stop that was properly framed, and its text closes every structure. */
  ghost predicate Completes(u: Tables, base: string, call: Call) {
    && Consistent(call) && call.error.None? && StoppedComplete(call)
    && TrimSpace(Said(call)) != "" && BalancedText(u, Candidate(base, Said(call)))
  }

  /** Chunk independence: two calls that say the same, however it is split into deltas, cut at the same places. */
  lemma ChunkIndependence(u: Tables, base: string, a: Call, b: Call, previous: Reason, repaired: bool)
    requires Concat(a.deltas) == Concat(b.deltas) && a.response == b.response && a.error == b.error
    ensures SegmentCuts(u, base, a) == SegmentCuts(u, base, b)
    ensures Judge(u, base, a, previous, repaired) == Judge(u, base, b, previous, repaired)
  {
    hide BalancedText, FinalCuts, StreamCuts, TrimSpace, Candidate, NeedsFraming;
  }

  /** Text without an escaped line feed is steady. */
  lemma UnescapedIsSteady(u: Tables, base: string, call: Call)
    requires NoEscapedNewline(Candidate(base, Concat(call.deltas))) && NoEscapedNewline(Candidate(base, Said(call)))
    ensures SteadyCall(u, base, call)
  {
    NoEscapeNoSwallow(u, Candidate(base, Concat(call.deltas)));
    NoEscapeNoSwallow(u, Candidate(base, Said(call)));
  }

  /** The outcome of a segment is the step that was judged. */
  ghost predicate Follows(step: Step, done: bool, code: Option<Code>, complete: bool, repaired: bool, before: bool) {
    match step
    case Continue => !done && code == None && !complete && repaired == before
    case Repair => !done && code == None && !complete && repaired && !before
    case Halt(c, ended) => done && code == c && complete == ended && repaired == before
  }

  /** Whether the end of a call is looked at once more, and whether its very end may be committed. */
  predicate LooksAgain(call: Call) {
    call.error.Some? || (call.response.Some? && TrimSpace(Said(call)) != "")
  }

  predicate TailAllowed(u: Tables, base: string, call: Call) {
    call.error.None? && StoppedComplete(call) && BalancedText(u, Candidate(base, Said(call)))
  }

  /** What the last look cuts. */
  function ClosingCuts(u: Tables, g: Segment, call: Call, from: nat): seq<nat> {
    if LooksAgain(call) then PublishedCuts(u, g.(overlapResolved := true), TailAllowed(u, g.base, call), from) else []
  }

  lemma ForcedOverlap(prefix: string, g: Segment, committed: string)
    requires Inside(prefix, g, committed) && !g.overlapResolved
    ensures Inside(prefix, g.(overlap := Longest(g.base, g.raw), overlapResolved := true), committed)
  {
  }

  /** What is spent after a charge: never more than the total. */
  function Spent(total: int, spent: int, charge: int): int {
    if charge >= total - spent then total else spent + charge
  }

  lemma StartInside(prefix: string, committed: string)
    requires prefix <= committed && Bytes(committed) <= MAX_TEXT_BYTES
    ensures Inside(prefix, Segment(committed, "", false, 0, committed == ""), committed)
  {
  }

  lemma FitsApart(base: string, call: Call)
    requires Fits(base, call)
    ensures Bytes(Concat(call.deltas)) <= MAX_TEXT_BYTES && Bytes(Said(call)) <= MAX_TEXT_BYTES
  {
  }

  lemma JudgedInconsistent(u: Tables, base: string, call: Call, previous: Reason, repaired: bool)
    requires !Consistent(call)
    ensures Follows(Judge(u, base, call, previous, repaired), true, Some(InconsistentResponse), false, repaired, repaired)
    ensures SegmentCuts(u, base, call) == StreamCuts(u, base, Concat(call.deltas))
  {
  }

  /** The cuts made while streaming and at the end add up to those of the whole text. */
  lemma CutsAddUp(u: Tables, g: Segment, call: Call, before: seq<nat>, cuts: seq<nat>, from: nat)
    requires g.raw == Said(call) && Consistent(call) && Fits(g.base, call) && SteadyCall(u, g.base, call)
    requires cuts == before + StreamCuts(u, g.base, Concat(call.deltas))
    requires from == LastOr(cuts[|before|..], |g.base|)
    ensures cuts + ClosingCuts(u, g, call, from) == before + SegmentCuts(u, g.base, call)
  {
    hide BalancedText, FinalBoundaries, TrimSpace, StoppedComplete, Candidate, Bytes, Steady, StreamCuts, Above, LastOr;
    var streamed := Concat(call.deltas);
    assert cuts[|before|..] == StreamCuts(u, g.base, streamed);
    if LooksAgain(call) {
      var more := Said(call)[|streamed|..];
      assert streamed + more == Said(call);
      LastLook(u, g.base, streamed, more, TailAllowed(u, g.base, call));
    }
  }

  lemma JudgedComplete(u: Tables, base: string, call: Call, previous: Reason, repaired: bool)
    requires Consistent(call) && Judge(u, base, call, previous, repaired) == Halt(None, true)
    ensures Completes(u, base, call) && TailAllowed(u, base, call) && LooksAgain(call)
  {
    hide BalancedText, Candidate, TrimSpace;
  }

  lemma FollowsComplete(step: Step, done: bool, code: Option<Code>, repaired: bool, before: bool)
    requires Follows(step, done, code, true, repaired, before)
    ensures exists c :: step == Halt(c, true) && done && code == c
  {
  }

  lemma CompleteHasNoCode(u: Tables, base: string, call: Call, previous: Reason, repaired: bool, c: Option<Code>)
    requires Judge(u, base, call, previous, repaired) == Halt(c, true)
    ensures c == None
  {
    hide BalancedText, Candidate, TrimSpace, NeedsFraming;
  }

  /** A complete segment is committed to its end, if and only if it fits. */
  lemma CompleteCommits(u: Tables, speech: string -> string, prefix: string, g: Segment, call: Call, w: Ledger, w': Ledger)
    requires Completes(u, g.base, call) && TailAllowed(u, g.base, call) && LooksAgain(call) && g.raw == Said(call)
    requires Sound(speech, prefix, w) && Sound(speech, prefix, w')
    requires w'.cuts == w.cuts + ClosingCuts(u, g, call, |w.committed|)
    requires w.committed <= w'.committed <= Candidate(g.base, g.raw) && Bytes(w'.committed) <= MAX_TEXT_BYTES
    ensures w'.committed == Candidate(g.base, g.raw) <==> Bytes(Candidate(g.base, g.raw)) <= MAX_TEXT_BYTES
  {
    var text := Candidate(g.base, g.raw);
    if Bytes(text) <= MAX_TEXT_BYTES {
      FinalBoundariesIncrease(u, text, true);
      NonBlank(Said(call));
      assert |text| >= |g.base|;
      CandidateNonEmpty(g.base, g.raw);
      AboveIncreasing(FinalBoundaries(u, text, true), |w.committed|, |text|);
      assert |text| in FinalBoundaries(u, text, true);
      if |text| > |w.committed| {
        var added := Above(FinalBoundaries(u, text, true), |w.committed|);
        assert |text| in added;
        assert added[|added| - 1] == |text|;
      }
    }
  }

  lemma NonBlank(s: string)
    requires TrimSpace(s) != ""
    ensures s != ""
  {
  }

  lemma CandidateNonEmpty(base: string, raw: string)
    requires raw != ""
    ensures Candidate(base, raw) != ""
  {
    LongestRepeats(base, raw);
  }

  /** The last look at a segment that does not end with a complete stop. */
  lemma ClosingLook(u: Tables, g: Segment, call: Call, tail: bool, from: nat)
    requires LooksAgain(call) && tail == TailAllowed(u, g.base, call)
    ensures PublishedCuts(u, Decided(g, true), tail, from) == ClosingCuts(u, g, call, from)
    ensures Decided(g, true).base == g.base && Decided(g, true).raw == g.raw && Decided(g, true).overlapResolved
  {
    hide BalancedText, FinalBoundaries, Longest, Bytes, Above, TailAllowed, LooksAgain, Candidate;
  }

  /** The end of a call that does not fail early is looked at, and its outcome read off the last look. */
  lemma LateLook(u: Tables, g: Segment, call: Call, previous: Reason, completeStop: bool, balanced: bool, from: nat)
    requires !FailsEarly(call, previous) && Consistent(call) && completeStop == StoppedComplete(call)
    requires balanced == BalancedText(u, Candidate(g.base, Said(call)))
    ensures LooksAgain(call)
    ensures PublishedCuts(u, g.(overlapResolved := true), completeStop && balanced, from) == ClosingCuts(u, g, call, from)
  {
    hide BalancedText, FinalBoundaries, TrimSpace, Candidate, Bytes, Above, Said, StoppedComplete, NeedsFraming;
  }

  lemma LateCall(call: Call, previous: Reason)
    requires !FailsEarly(call, previous)
    ensures call.error.None? && call.response.Some? && LooksAgain(call)
  {
  }

  lemma LateJudge(u: Tables, base: string, call: Call, previous: Reason, repaired: bool)
    requires !FailsEarly(call, previous) && Consistent(call)
    ensures Judge(u, base, call, previous, repaired)
            == if StoppedComplete(call) && BalancedText(u, Candidate(base, Said(call))) then Halt(None, true)
               else if FinishOf(call, previous) == Length && Framed(call) then Continue
               else if StoppedComplete(call) then (if repaired then Halt(None, false) else Repair)
               else Halt(Some(Incomplete), false)
  {
  }

  lemma EarlyJudge(u: Tables, base: string, call: Call, previous: Reason, repaired: bool)
    requires FailsEarly(call, previous) && Consistent(call)
    ensures Follows(Judge(u, base, call, previous, repaired), true, Some(EarlyCode(call, previous)), false, repaired, repaired)
  {
  }

  lemma StopSeen(call: Call, previous: Reason, framed: bool)
    requires call.response.Some? && framed == Framed(call)
    ensures StoppedComplete(call) <==>
            FinishOf(call, previous) == Stop && call.response.value.generation.Some?
            && call.response.value.generation.value.complete && framed
  {
  }

  lemma NoClosingLook(u: Tables, g: Segment, call: Call, from: nat)
    ensures !LooksAgain(call) ==> ClosingCuts(u, g, call, from) == []
  {
  }

  lemma EarlyLook(u: Tables, base: string, call: Call, previous: Reason)
    requires FailsEarly(call, previous) && Consistent(call)
    ensures LooksAgain(call) ==> !TailAllowed(u, base, call)
    ensures LooksAgain(call) <==> EarlyCode(call, previous).Failed? || EarlyCode(call, previous).FramingEof?
  {
    hide BalancedText, Candidate, TrimSpace, Concat;
  }
}
