/** Whole generations: for whatever limits are requested, and however their calls are split into deltas. */
module Generations {
  import opened Options
  import opened Runes
  import opened Scanner
  import opened Commits
  import opened Speech
  import opened SegmentCommits
  import opened Transcripts
  import opened Generation
  import opened Judgement
  import opened Runs
  import opened Assembler

  /** Serves any request: whatever limits it names, at most three calls are made, each is asked for a whole segment or
      for all that is left, and providers that keep to their budgets stay within the total that was requested. */
  method AssembleGeneration(u: Tables, speech: string -> string, maxTokens: int, requested: Limits, prefix: string,
                            hasChat: bool, hasProgress: bool, script: seq<Call>)
    returns (r: Result, limits: Limits, budgets: seq<int>)
    requires |script| >= 3
    ensures prefix <= r.answer && |budgets| <= 3 && Asked(limits, script, budgets)
    ensures forall j :: 0 <= j < |budgets| ==> 1 <= budgets[j] <= 32768
    ensures 0 < requested.segmentTokens <= 32768 ==> limits.segmentTokens == requested.segmentTokens
    ensures requested.segmentTokens > 0 ==> forall j :: 0 <= j < |budgets| ==> budgets[j] <= requested.segmentTokens
    ensures 0 < requested.maxSegments <= 3 ==> |budgets| <= requested.maxSegments
    ensures WithinBudgets(script, budgets) ==>
              && r.generation.completionTokens <= 3 * 32768
              && (requested.maxTotalTokens > 0 ==> r.generation.completionTokens <= requested.maxTotalTokens)
    ensures r.generation.complete ==> r.code == None && budgets != [] && StoppedComplete(script[|budgets| - 1])
  {
    hide Candidate, BalancedText, Bytes, Calm, Run, Spoken, Flatten, WithinBudgets, Reports, Asked, HandsOut, Heard, Completes, StoppedComplete,
         Sound, CutOff;
    limits := EffectiveGenerationLimits(maxTokens, requested);
    var run := new GenerationAssembler(u, speech, limits, prefix, hasChat, hasProgress);
    AtMostThree(limits);
    r := run.Assemble(script);
    budgets := run.books.budgets;
    if r.generation.complete {
      CompletesStopped(u, run.segment.base, script[|budgets| - 1]);
    }
  }

  lemma AtMostThree(limits: Limits)
    requires 1 <= limits.segmentTokens <= 32768 && 1 <= limits.maxSegments <= 3
    requires limits.maxTotalTokens <= limits.segmentTokens * limits.maxSegments
    ensures limits.maxTotalTokens <= 3 * 32768
  {
  }

  lemma CompletesStopped(u: Tables, base: string, call: Call)
    requires Completes(u, base, call)
    ensures StoppedComplete(call)
  {
  }

  /** Chunk independence: two generations whose calls say the same come out the same, however each call is split into
      deltas, in what they answer, where they cut it, what they speak, and how they end. */
  method AssembleTwice(u: Tables, speech: string -> string, limits: Limits, prefix: string, hasChat: bool,
                       a: seq<Call>, b: seq<Call>)
    returns (first: Result, second: Result, cuts: seq<seq<nat>>, spoken: seq<seq<string>>, undisturbed: bool)
    requires 1 <= limits.segmentTokens <= 32768 && 1 <= limits.maxSegments <= 3
    requires 1 <= limits.maxTotalTokens <= limits.segmentTokens * limits.maxSegments
    requires |a| == |b| >= limits.maxSegments && forall j :: 0 <= j < |a| ==> SaysTheSame(a[j], b[j])
    ensures |cuts| == 2 && |spoken| == 2
    ensures undisturbed && Calm(u, limits, a, 0, Standing(prefix, [], 0, false, Unknown)) ==>
              && first.answer == second.answer && cuts[0] == cuts[1] && spoken[0] == spoken[1]
              && first.code == second.code && first.generation.complete == second.generation.complete
  {
    hide Candidate, BalancedText, Bytes, Calm, Run, Spoken, Flatten, SaysTheSame, Completes, WithinBudgets, Asked, HandsOut, Heard, Sound, CutOff;
    var one := new GenerationAssembler(u, speech, limits, prefix, hasChat, true);
    var other := new GenerationAssembler(u, speech, limits, prefix, hasChat, true);
    first := one.Assemble(a);
    second := other.Assemble(b);
    RunChunkIndependence(u, limits, a, b, 0, Standing(prefix, [], 0, false, Unknown));
    cuts := [one.ledger.cuts, other.ledger.cuts];
    spoken := [Flatten(one.ledger.batches), Flatten(other.ledger.batches)];
    undisturbed := one.ended.None? && other.ended.None?;
  }
}
