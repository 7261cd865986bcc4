/** A complete generation whose answer is not committed: the stop is proper and the text closed, but too long. */
module LongAnswer {
  import opened Options
  import opened Runes
  import opened Scanner
  import opened ScanStructure
  import opened Overlap
  import opened Commits
  import opened SegmentCommits
  import opened Stability
  import opened Generation
  import opened Judgement
  import opened Runs
  import opened Assembler

  const PREFIX := "b"

  /** An answer that fits by itself, and no longer once the prefix stands before it. */
  predicate IsLong(answer: string) {
    |answer| == MAX_TEXT_BYTES && forall c :: c in answer ==> c == 'a'
  }

  function ProperStop(): Metadata {
    Metadata(Stop, Stop, 0, 0, 0, 0, 1, true, None, Unavailable, 1, 0, true, true, true)
  }

  /** One call, without deltas. */
  function Answering(answer: string): Call {
    Call([], Some(Response(answer, Stop, Some(ProperStop()))), None)
  }

  predicate Wordy(text: string) {
    forall c :: c in text ==> c == 'a' || c == 'b'
  }

  lemma WordyStep(u: Tables, text: string, i: nat)
    requires Wordy(text) && i < |text|
    ensures Scanner.Step(u, text, INITIAL.(i := i)) == INITIAL.(i := i + 1)
  {
    assert text[i] in text;
    if i > 0 {
      assert text[i - 1] in text;
    }
    var line := CurrentLine(text, i);
    assert line != "" ==> line[0] in text;
  }

  /** Words close what they do not open. */
  lemma {:induction false} WordyScan(u: Tables, text: string, i: nat)
    requires Wordy(text) && i <= |text|
    ensures ScanFrom(u, text, INITIAL.(i := i)) == INITIAL.(i := |text|)
    decreases |text| - i
  {
    if i == |text| {
    } else {
      WordyStep(u, text, i);
      WordyScan(u, text, i + 1);
    }
  }

  lemma {:induction false} WordyBytes(text: string)
    requires Wordy(text)
    ensures Bytes(text) == |text|
  {
    if text == "" {
    } else {
      var init := text[..|text| - 1];
      assert text[|text| - 1] in text;
      assert forall c :: c in init ==> c in text;
      WordyBytes(init);
    }
  }

  lemma WordyBalanced(u: Tables, text: string)
    requires Wordy(text)
    ensures BalancedText(u, text) && Boundaries(u, text) == []
  {
    WordyScan(u, text, 0);
  }

  lemma WordyTrims(text: string)
    requires Wordy(text) && text != ""
    ensures TrimSpace(text) == text
  {
    assert text[0] in text && text[|text| - 1] in text;
  }

  lemma WordyUnescaped(text: string)
    requires Wordy(text)
    ensures NoEscapedNewline(text)
  {
    assert forall i :: 0 <= i < |text| ==> text[i] in text;
  }

  lemma NoDeltas(call: Call)
    requires call.deltas == []
    ensures Concat(call.deltas) == ""
  {
  }

  /** Nothing of the answer repeats the prefix. */
  lemma NoOverlap(answer: string)
    requires IsLong(answer)
    ensures Candidate(PREFIX, answer) == PREFIX + answer && Wordy(PREFIX + answer)
    ensures Candidate(PREFIX, "") == PREFIX
  {
    LongestRepeats(PREFIX, answer);
    LongestRepeats(PREFIX, "");
    hide Longest;
    assert answer[0] in answer;
    assert Longest(PREFIX, answer) == 0 && Longest(PREFIX, "") == 0;
    assert PREFIX + answer[0..] == PREFIX + answer;
  }

  const START := Standing(PREFIX, [], 0, false, Unknown)

  /** The call completes its run: it ends with a proper stop, and its text is closed. */
  lemma AnswerCompletes(u: Tables, answer: string)
    requires IsLong(answer)
    ensures Completes(u, PREFIX, Answering(answer)) && Bytes(Candidate(PREFIX, answer)) > MAX_TEXT_BYTES
    ensures Judge(u, PREFIX, Answering(answer), Unknown, false) == Halt(None, true)
    ensures BalancedText(u, PREFIX)
  {
    hide BalancedText, Candidate, TrimSpace, Bytes, Concat;
    NoOverlap(answer);
    NoDeltas(Answering(answer));
    WordyBalanced(u, PREFIX);
    WordyBalanced(u, PREFIX + answer);
    WordyBytes(PREFIX + answer);
    WordyTrims(answer);
  }

  /** What is streamed and what is answered fit, and neither swallows a line. */
  lemma AnswerIsCalm(u: Tables, answer: string)
    requires IsLong(answer)
    ensures Fits(PREFIX, Answering(answer)) && SteadyCall(u, PREFIX, Answering(answer))
  {
    hide Candidate, Bytes, Concat, SwallowsLine, SteadyCall;
    NoOverlap(answer);
    NoDeltas(Answering(answer));
    WordyBytes(PREFIX);
    WordyBytes(answer);
    WordyBytes("");
    WordyUnescaped(PREFIX);
    WordyUnescaped(PREFIX + answer);
    UnescapedIsSteady(u, PREFIX, Answering(answer));
  }

  /** Nothing is committed: the stream shows no boundary beyond the prefix, and the end is not looked at. */
  lemma AnswerCutsNothing(u: Tables, answer: string)
    requires IsLong(answer)
    ensures SegmentCuts(u, PREFIX, Answering(answer)) == []
  {
    hide Candidate, Bytes, Concat, BalancedText, Boundaries, TrimSpace, FinalCuts, Completes, Judge, Resolved;
    AnswerCompletes(u, answer);
    NoOverlap(answer);
    NoDeltas(Answering(answer));
    WordyBalanced(u, PREFIX);
    assert Above([], 1) == [];
  }

  /** The run is complete, and its answer is the prefix: completeness does not mean that everything is committed. */
  lemma CompleteButCut(u: Tables, limits: Limits, calls: seq<Call>, answer: string)
    requires IsLong(answer) && limits.maxSegments >= 1 && limits.maxTotalTokens >= 1 && calls != [] && calls[0] == Answering(answer)
    ensures Calm(u, limits, calls, 0, START) && Run(u, limits, calls, 0, START) == Outcome(PREFIX, [], None, true)
    ensures Bytes(Candidate(PREFIX, Said(calls[0]))) > MAX_TEXT_BYTES
  {
    AnswerCompletes(u, answer);
    AnswerIsCalm(u, answer);
    AnswerCutsNothing(u, answer);
    hide Fits, SteadyCall, Judge, SegmentCuts, Candidate, Bytes;
  }

  /** The assembler, undisturbed, ends complete with nothing of the answer. */
  method AssembleLongAnswer(u: Tables, speech: string -> string, hasProgress: bool) returns (r: Result, ended: Option<ContextError>)
    ensures ended.None? ==> r.generation.complete && r.code == None && r.answer == PREFIX
  {
    var answer := seq(MAX_TEXT_BYTES, _ => 'a');
    assert IsLong(answer) && Wordy(PREFIX);
    WordyBytes(PREFIX);
    AnswerCompletes(u, answer);
    hide Answering, Bytes, BalancedText, Calm, Run, Completes, Judge, Candidate;
    var run := new GenerationAssembler(u, speech, Limits(4096, 1, 4096, 100), PREFIX, true, hasProgress);
    CompleteButCut(u, run.limits, [Answering(answer)], answer);
    r := run.Assemble([Answering(answer)]);
    ended := run.ended;
  }
}
