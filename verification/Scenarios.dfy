/** Two runs of the engine that end where no one would want them to: a voice session left unusable by silence, and an
    approved text that is spoken twice. */
module Scenarios {
  import opened Options
  import opened Playback
  import opened Delivery
  import opened Turns
  import opened TurnSteps
  import opened Registry
  import opened Engine

  /** A session is started and paused. */
  method PauseSession(conversation: string) returns (e: InteractionEngine)
    ensures fresh(e) && e.Valid() && !e.closed && e.active == None && e.hasAsr && e.streams && e.hasTts && e.hasChat
    ensures e.voice.Some? && e.voice == Some(VoiceSession(e.voice.value.id, conversation, 1, Paused, true))
  {
    hide Roster, Timed, Kept, Wedged, Consistent, Later, SilentIsCanceled, FailedWith, StorageFailed;
    e := new InteractionEngine(true, true, true, true, 0, 0);
    var ok := e.StartVoiceSession(conversation);
    ok := e.ChangeVoiceSession(e.voice.value.id, 1, Pause);
  }

  /** The turn that runs beside the paused session has ended the input of its microphone. */
  method ListenBeside(conversation: string, rate: int) returns (e: InteractionEngine, op: nat)
    requires MIN_RATE <= rate <= MAX_RATE
    ensures fresh(e) && e.Valid() && !e.closed && op in e.turns && e.active == Some(op) && Live(e.turns[op])
    ensures e.turns[op].request == Request(Microphone, conversation, None, 0)
    ensures e.turns[op].work.awaiting && e.turns[op].listening.Hearing?
    ensures e.voice.Some? && e.voice == Some(VoiceSession(e.voice.value.id, conversation, 1, Paused, true))
  {
    hide Roster, Timed, Kept, Wedged, Consistent, Later, SilentIsCanceled, FailedWith, StorageFailed;
    e := PauseSession(conversation);
    var started := e.Start(Request(Microphone, conversation, None, 0), false, false);
    op := started.value;
    var ok := e.BeginAsr(op, rate);
    ok := e.OpenAsr(op, true, NoCode);
    ok := e.HearAudio(op, 2, true);
    ok := e.EndAsr(op, "silence");
  }

  /** Then nothing is heard: no request is valid any more, until the session is paused again. */
  method SilenceWedges(conversation: string, rate: int) returns (stuck: Option<VoiceSession>, freed: Option<VoiceSession>)
    requires MIN_RATE <= rate <= MAX_RATE
    ensures Wedged(stuck) && stuck.Some? && stuck.value.state == Listening && stuck.value.conversation == conversation
    ensures !Wedged(freed) && freed == Some(stuck.value.(state := Paused))
  {
    hide Roster, Timed, Kept, Wedged, Consistent, Later, SilentIsCanceled, FailedWith, StorageFailed, OnlyTurn;
    var e, op := ListenBeside(conversation, rate);
    e.NoSpeech(op);
    stuck := e.voice;
    var ok := e.ChangeVoiceSession(stuck.value.id, 1, Pause);
    freed := e.voice;
  }

  /** The input of an approved text is handed in between its two sections. */
  method HandInBetween(r: Request, text: string) returns (e: InteractionEngine, op: nat)
    requires r.voiceSession.None? && r.voiceEpoch == 0 && ProperCandidate(text)
    ensures fresh(e) && e.Valid() && op in e.turns && e.active == Some(op)
    ensures var t := e.turns[op];
            && t.approved && t.state == Thinking && t.revision == 1 && t.units == []
            && t.work == Work(true, false, false, 2, 0, [])
  {
    hide Roster, Timed, Kept, Wedged, Consistent, Later, SilentIsCanceled, FailedWith, StorageFailed;
    e := new InteractionEngine(false, false, true, true, 0, 0);
    var started := e.StartPreparedCandidate(r, text, false);
    op := started.value;
    var ok := e.Commit(op, 1, "");
    e.FinishCandidate(op, true);
    e.AcceptTranscript(op, false, false, true);
  }

  /** The turn is given two generations of the same revision, and each hands the text to speech. */
  method SpokenTwice(r: Request, text: string) returns (t: Turn)
    requires r.voiceSession.None? && r.voiceEpoch == 0 && ProperCandidate(text)
    ensures Consistent(t) && Live(t) && t.approved && t.revision == 1 && t.state == Synthesizing
    ensures |t.work.runs| == 2 && |t.work.runs[0].handed| == 1 && |t.work.runs[1].handed| == 1 && |t.units| == 2
  {
    hide Roster, Timed, Kept, Wedged, Consistent, Later, SilentIsCanceled, FailedWith, StorageFailed, Progressed;
    var e, op := HandInBetween(r, text);
    e.BeginGeneration(op);
    e.BeginGeneration(op);
    ghost var begun := e.turns[op];
    assert begun.work.runs[0].handed == [] && begun.work.runs[1].handed == [];
    e.OnProgress(op, 1, 0, 1, true, text, true);
    ghost var first := FirstUnit(begun, e.turns[op], 0, text);
    e.OnProgress(op, 1, 1, 1, true, text, true);
    t := e.turns[op];
    ghost var second := FirstUnit(first, t, 1, text);
    e.Known(op);
  }

  /** What one unit handed to speech changes. */
  lemma FirstUnit(t: Turn, t': Turn, g: nat, text: string) returns (same: Turn)
    requires g < |t.work.runs| && t.work.runs[g].handed == [] && !t.work.runs[g].answered
    requires exists ids :: |ids| == 1 && NewIds(t.units, ids) && t' == Progressed(t, g, ids, true, text)
    ensures same == t' && |t'.work.runs| == |t.work.runs| && |t'.units| == |t.units| + 1
    ensures t' == t.(state := if t.state == Thinking then Synthesizing else t.state, plan := text,
                     generation := Some(true), units := t'.units, work := t.work.(runs := t'.work.runs))
    ensures |t'.work.runs[g].handed| == 1 && !t'.work.runs[g].answered
    ensures forall i :: 0 <= i < |t.work.runs| && i != g ==> t'.work.runs[i] == t.work.runs[i]
  {
    var ids :| |ids| == 1 && NewIds(t.units, ids) && t' == Progressed(t, g, ids, true, text);
    ProgressedState(t, g, ids, true, text);
    ProgressedIs(t, g, ids, true, text);
    assert ids == [ids[0]] && ids[..0] == [];
    same := t';
  }
}
