/** One turn of a spoken conversation: its states, the generation that answers it, and what every step keeps. */
module Turns {
  import opened Options
  import opened Playback
  import opened Delivery

  datatype State =
    | Idle | Recording | Transcribing | Thinking | Synthesizing | Playing | Canceling
    | Completed | Canceled | Failed | Incomplete

  datatype Input = Microphone | Replayed | Typed

  datatype Request = Request(input: Input, session: string, voiceSession: Option<nat>, voiceEpoch: nat)

  datatype Code =
    | NoCode | InvalidCompletionState | RecordingStorageFailed | TraceStorageFailed | IncompleteResponse
    | EmptyAudio | AudioLimit | PlaybackFailed | PlaybackTimeout | Expired | Reported(name: string)

  /** A generation: the audio there was before it, the units it handed to speech and those that were taken, in order,
      those still waiting, the one being synthesized, how many were spoken, whether speech has failed and only drains
      its queue, and whether the assembler has returned. */
  datatype Run = Run(
    first: nat,
    handed: seq<nat>,
    taken: seq<nat>,
    queue: seq<nat>,
    current: Option<nat>,
    spoken: nat,
    broken: bool,
    answered: bool)

  /** What is under way for a turn: its input was handed in, and is awaited by the step that accepts it; the second
      section of an approved text is still to come; generations were asked for and have not begun; and those of the
      current revision that have, with the audio there was before this revision. */
  datatype Work = Work(handedIn: bool, awaiting: bool, preparing: bool, starts: nat, base: nat, runs: seq<Run>)

  /** Streaming recognition: none, being opened, or open and having heard so many bytes. */
  datatype Recognition = Deaf | Opening | Hearing(heard: nat)

  datatype Turn = Turn(
    request: Request,
    approved: bool,
    created: int,
    state: State,
    revision: nat,
    plan: string,
    generation: Option<bool>,
    errorCode: Code,
    speechFailed: bool,
    listening: Recognition,
    units: seq<Unit>,
    chunks: map<nat, Chunk>,
    last: nat,
    bytes: nat,
    producerDone: bool,
    generationDone: bool,
    deadline: Option<int>,
    work: Work)

  const MAX_UNITS := 256
  const MAX_CHUNKS := 64
  const MAX_AUDIO_BYTES := 0x1000000
  const MAX_REVISION := 8

  predicate Terminal(s: State) {
    s.Completed? || s.Canceled? || s.Failed? || s.Incomplete?
  }

  predicate Live(t: Turn) {
    !Terminal(t.state)
  }

  predicate Generating(t: Turn) {
    t.state.Thinking? || t.state.Synthesizing? || t.state.Playing?
  }

  /** Typed input may end without its readout. */
  predicate TextWithoutSpeech(t: Turn) {
    t.request.input == Typed && t.speechFailed && t.generationDone
  }

  function Successor(s: State): State {
    match s
    case Idle => Recording
    case Recording => Transcribing
    case Transcribing => Thinking
    case Thinking => Synthesizing
    case Synthesizing => Playing
    case Playing => Completed
    case Canceling => Canceled
    case _ => s
  }

  /** The transitions a turn accepts. */
  predicate MayMove(t: Turn, state: State) {
    && Live(t)
    && (Successor(t.state) == state || state.Canceling? || state.Failed? || state.Incomplete?
        || (state == Completed && ((t.state == Thinking && t.generationDone) || TextWithoutSpeech(t))))
  }

  function Move(t: Turn, state: State): Turn {
    if MayMove(t, state) then t.(state := state) else t
  }

  /** The states from which a completion is accepted. */
  predicate MayComplete(t: Turn) {
    t.state == Playing || (t.state == Thinking && t.generationDone) || TextWithoutSpeech(t)
  }

  /** The final state and code of a turn: a failure to store beats the outcome that was asked for. */
  function Outcome(t: Turn, state: State, code: Code, recorded: bool, stored: bool): (State, Code) {
    if !stored then (Failed, TraceStorageFailed)
    else if !recorded then (Failed, RecordingStorageFailed)
    else if state == Completed && !MayComplete(t) then (Failed, InvalidCompletionState)
    else (state, code)
  }

  predicate Over(s: State) {
    Terminal(s) || s == Canceling
  }

  ghost function Finish(t: Turn, state: State, code: Code, recorded: bool, stored: bool): Turn
    requires Within(t.units, t.chunks) && Terminal(state)
  {
    var (s, c) := Outcome(t, state, code, recorded, stored);
    Move(t, s).(units := RefreshAll(t.units, t.chunks, true), errorCode := c, deadline := None)
  }

  /** A finish is final: it always ends the turn, whatever fails, if what is asked for may follow. */
  lemma FinishEnds(t: Turn, state: State, code: Code, recorded: bool, stored: bool)
    requires Live(t) && Within(t.units, t.chunks)
    requires state.Completed? || state.Failed? || state.Incomplete? || (state == Canceled && t.state == Canceling)
    ensures Terminal(Finish(t, state, code, recorded, stored).state)
    ensures Finish(t, state, code, recorded, stored).state == Outcome(t, state, code, recorded, stored).0
  {
  }

  ghost predicate HasUnit(units: seq<Unit>, id: nat) {
    exists i :: 0 <= i < |units| && units[i].id == id
  }

  /** How many generations the current revision has, will have, or may still be given. */
  function Claims(w: Work): nat {
    (if w.awaiting then 1 else 0) + (if w.preparing then 1 else 0) + w.starts + |w.runs|
  }

  /** How many there can be: one for its input, if that was handed in, and one for an approved text. */
  function Granted(t: Turn): nat {
    (if t.work.handedIn then 1 else 0) + (if t.approved then 1 else 0)
  }

  /** Each id is greater than the ones before it. */
  predicate Ascending(ids: seq<nat>) {
    forall i, j :: 0 <= i < j < |ids| ==> ids[i] < ids[j]
  }

  /** The books of a generation: what was taken, followed by what waits, is what was handed over, in that order, unless
      speech failed and what waited was dropped; what is being synthesized was taken last. */
  ghost predicate Books(t: Turn, r: Run) {
    && t.work.base <= r.first <= t.last && Ascending(r.handed)
    && (if r.broken then t.request.input == Typed && r.queue == [] && r.current.None? && r.taken <= r.handed
        else r.taken + r.queue == r.handed && |r.taken| == r.spoken + (if r.current.Some? then 1 else 0))
    && (r.current.Some? ==> r.taken != [] && r.taken[|r.taken| - 1] == r.current.value)
    && (forall id :: id in r.handed ==> HasUnit(t.units, id))
    && (r.answered && t.approved ==> r.handed != [])
  }

  /** The audio of a generation is that of the units that were taken, in the order in which they were handed over. */
  ghost predicate InTurn(chunks: map<nat, Chunk>, r: Run) {
    && (forall k :: k in chunks && chunks[k].unit in r.handed ==> chunks[k].unit in r.taken)
    && (forall j, k :: j in chunks && k in chunks && j < k && chunks[j].unit in r.handed && chunks[k].unit in r.handed ==>
          chunks[j].unit <= chunks[k].unit)
  }

  /** No unit is handed over by two generations. */
  ghost predicate Apart(runs: seq<Run>) {
    forall g, h, id :: 0 <= g < h < |runs| && id in runs[g].handed ==> id !in runs[h].handed
  }

  ghost predicate Orderly(t: Turn) {
    Apart(t.work.runs) && forall g :: 0 <= g < |t.work.runs| ==> InTurn(t.chunks, t.work.runs[g])
  }

  ghost predicate Accounts(t: Turn) {
    && t.work.base <= t.last <= MAX_CHUNKS && t.bytes <= MAX_AUDIO_BYTES && 1 <= t.revision <= MAX_REVISION
    && Claims(t.work) <= Granted(t)
    && (t.work.awaiting ==> t.work.handedIn) && (t.work.preparing ==> t.approved)
    && (t.approved ==> t.request.input == Replayed && t.revision == 1)
    && (forall g :: 0 <= g < |t.work.runs| ==> Books(t, t.work.runs[g]))
  }

  /** The only generation of this revision had nothing to say. */
  predicate Silent(t: Turn) {
    !t.approved && forall g :: 0 <= g < |t.work.runs| ==> t.work.runs[g].answered && t.work.runs[g].handed == []
  }

  predicate Speaks(w: Work) {
    exists g :: 0 <= g < |w.runs| && w.runs[g].handed != []
  }

  /** Which generations a live turn has, and what its state says about them. */
  ghost predicate Works(t: Turn) {
    && Claims(t.work) == Granted(t) && !t.state.Idle? && t.state != Canceling
    && (t.state.Recording? ==> !t.work.handedIn)
    && (t.state.Transcribing? ==> t.work.handedIn)
    && (t.state.Recording? || t.state.Transcribing? ==>
          && t.revision == 1 && !t.generationDone && !t.producerDone && t.last == 0
          && t.work.starts == 0 && t.work.runs == [])
    && (Generating(t) ==> t.work.starts + |t.work.runs| >= 1)
    && (t.state.Thinking? ==> t.last == t.work.base && !Speaks(t.work))
    && (t.state.Synthesizing? ==> Speaks(t.work))
    && (forall g :: 0 <= g < |t.work.runs| && t.work.runs[g].answered ==> t.generationDone)
    && (t.generationDone ==> t.generation.Some?)
    && (t.approved && t.generation.Some? ==> t.generation.value)
    && (t.producerDone ==>
          && t.generationDone && t.work.runs != []
          && ((t.request.input == Typed && t.speechFailed) || t.last > t.work.base || Silent(t)))
  }

  /** What the state of a live turn says about its audio. */
  ghost predicate Plays(t: Turn) {
    forall k :: k in t.chunks ==>
      && !t.chunks[k].interrupted && (k <= t.work.base ==> t.chunks[k].stopped)
      && (k > t.work.base && t.chunks[k].started ==> t.state == Playing)
  }

  ghost predicate Progresses(t: Turn) {
    Works(t) && Plays(t)
  }

  /** The invariant of a turn. */
  ghost predicate Consistent(t: Turn) {
    && Delivers(t.units, t.chunks, t.last) && Accounts(t) && Orderly(t)
    && t.errorCode != InvalidCompletionState
    && (Live(t) ==> Progresses(t))
    && (t.state == Incomplete ==> MayContinue(t))
    && (Terminal(t.state) ==> t.deadline == None) && t.state != Canceling
  }

  /** All audio has been played, and the only generation is over. */
  ghost predicate MayContinue(t: Turn) {
    (forall k :: k in t.chunks ==> t.chunks[k].stopped) && !t.approved && t.work.runs != []
  }

  /** Generations go on: what they handed over and what was taken only grows at its end. */
  ghost predicate RunsLater(runs: seq<Run>, runs': seq<Run>) {
    && |runs| <= |runs'|
    && forall g :: 0 <= g < |runs| ==> runs[g].handed <= runs'[g].handed && runs[g].taken <= runs'[g].taken
  }

  /** What no step takes back. */
  ghost predicate Later(t: Turn, t': Turn) {
    && t'.request == t.request && t'.created == t.created && t'.approved == t.approved
    && t.revision <= t'.revision && t.last <= t'.last
    && UnitsLater(t.units, t'.units) && ChunksLater(t.chunks, t'.chunks)
    && (forall k :: k in t'.chunks && k !in t.chunks ==> k > t.last)
    && (Terminal(t.state) && t.state != Incomplete ==> t'.state == t.state)
    && (t.state == Incomplete ==> t'.state == Incomplete || t'.revision > t.revision)
    && (t.state != Recording ==> t'.state != Recording && t'.work.handedIn == t.work.handedIn)
    && (t'.revision == t.revision ==>
          && (t.generationDone ==> t'.generationDone) && (t.producerDone ==> t'.producerDone)
          && t'.work.base == t.work.base && RunsLater(t.work.runs, t'.work.runs))
  }

  lemma LaterStill(t: Turn)
    ensures Later(t, t)
  {
  }

  lemma LaterOn(a: Turn, b: Turn, c: Turn)
    requires Later(a, b) && Later(b, c)
    ensures Later(a, c)
  {
    assert UnitsLater(a.units, c.units);
    hide UnitsLater;
    forall k | k in c.chunks && k !in a.chunks ensures k > a.last {
      assert k in b.chunks || k !in b.chunks;
    }
  }

  /** The completion of a generation that has been played is always accepted: `InvalidCompletionState` is dead. */
  lemma CompletionAccepted(t: Turn)
    requires Consistent(t) && Live(t) && t.producerDone && t.generationDone
    requires forall k :: k in t.chunks ==> t.chunks[k].stopped
    ensures MayComplete(t)
  {
    if t.state == Synthesizing && t.last > t.work.base {
      assert t.last in t.chunks;
    }
  }

  /** Speech is in order: whatever is taken is a prefix of what was handed over, and the audio of a generation belongs to
      its units in that order, piece by piece. */
  lemma SpeechInOrder(t: Turn, g: nat)
    requires Consistent(t) && g < |t.work.runs|
    ensures var r := t.work.runs[g];
            && r.taken <= r.handed
            && forall j, k :: j in t.chunks && k in t.chunks && j < k && t.chunks[j].unit in r.handed && t.chunks[k].unit in r.handed ==>
                 exists a, b :: 0 <= a <= b < |r.taken| && r.handed[a] == t.chunks[j].unit && r.handed[b] == t.chunks[k].unit
  {
    var r := t.work.runs[g];
    assert Books(t, r) && InTurn(t.chunks, r);
    assert r.taken <= r.handed;
    forall j, k | j in t.chunks && k in t.chunks && j < k && t.chunks[j].unit in r.handed && t.chunks[k].unit in r.handed
      ensures exists a, b :: 0 <= a <= b < |r.taken| && r.handed[a] == t.chunks[j].unit && r.handed[b] == t.chunks[k].unit
    {
      var a :| 0 <= a < |r.taken| && r.taken[a] == t.chunks[j].unit;
      var b :| 0 <= b < |r.taken| && r.taken[b] == t.chunks[k].unit;
      assert r.handed[a] == t.chunks[j].unit && r.handed[b] == t.chunks[k].unit;
      assert a <= b;
    }
  }

  /** From when a turn leaves recording, the number of generations of its revision is settled. It is two exactly for
      an approved text whose turn took an input as well. */
  lemma GenerationsSettled(t: Turn, t': Turn)
    requires Consistent(t) && Live(t) && Consistent(t') && Live(t') && Later(t, t')
    requires t'.revision == t.revision && t.state != Recording
    ensures Claims(t'.work) == Claims(t.work) && |t'.work.runs| <= Claims(t.work) <= 2
    ensures Claims(t.work) == 2 <==> t.approved && t.work.handedIn
  {
  }
}
