/** The interaction engine: every critical section as one step, in any order. */
module Engine {
  import opened Options
  import opened Runes
  import opened Playback
  import opened Delivery
  import opened Turns
  import opened TurnSteps
  import opened Registry

  datatype VoiceState = Starting | Listening | Responding | Paused | Ended

  datatype VoiceSession = VoiceSession(id: nat, conversation: string, epoch: nat, state: VoiceState, canceled: bool)

  datatype Phase = PhaseStarted | PhaseStopped | PhaseFailed

  datatype Action = Resume | Pause | End

  datatype Observation = Observation(sequence: nat, completed: bool)

  const MIN_RATE := 8000
  const MAX_RATE := 48000
  const MAX_INPUT_AUDIO := 0x800000
  const MAX_INPUT_TEXT := 0x4000
  const MAX_CANDIDATE := 180

  /** Why the input of streaming recognition may end. */
  const END_REASONS := {"manual", "silence", "provider_final", "idle_refresh", "duration_limit"}

  const MAX_AGE := 7 * 24 * 3600 * 1_000_000_000

  /** Input that can be handed in: some audio or text, neither too long. */
  predicate ProperInput(audio: nat, transcript: string) {
    audio <= MAX_INPUT_AUDIO && Bytes(transcript) <= MAX_INPUT_TEXT && (audio > 0 || !AllSpace(transcript))
  }

  predicate ProperCandidate(text: string) {
    !AllSpace(text) && |text| <= MAX_CANDIDATE
  }

  /** A request names the running voice session and its epoch, or none while none runs. */
  predicate ValidVoice(r: Request, voice: Option<VoiceSession>) {
    match r.voiceSession
    case None => r.voiceEpoch == 0 && (voice == None || voice.value.state == Ended || voice.value.state == Paused)
    case Some(id) =>
      voice.Some? && !voice.value.canceled && voice.value.id == id && voice.value.epoch == r.voiceEpoch && voice.value.conversation == r.session
  }

  /** A paused or ended voice session is canceled. */
  predicate SilentIsCanceled(voice: Option<VoiceSession>) {
    voice.Some? && (voice.value.state == Paused || voice.value.state == Ended) ==> voice.value.canceled
  }

  /** No other turn has changed. */
  ghost predicate OnlyTurn(turns: map<nat, Turn>, turns': map<nat, Turn>, op: nat) {
    turns'.Keys == turns.Keys && forall other :: other in turns && other != op ==> turns'[other] == turns[other]
  }

  predicate StorageFailed(t: Turn) {
    t.state == Failed && (t.errorCode == RecordingStorageFailed || t.errorCode == TraceStorageFailed)
  }

  /** The turn failed for the given reason, or because it could not be stored. */
  predicate FailedWith(t: Turn, code: Code) {
    (t.state == Failed && t.errorCode == code) || StorageFailed(t)
  }

  ghost predicate Wedged(voice: Option<VoiceSession>) {
    forall r: Request :: !ValidVoice(r, voice)
  }

  predicate Aged(t: Turn, now: int) {
    now - t.created > MAX_AGE
  }

  /** The head of the live turn has been waited for in time. */
  ghost predicate Timed(turns: map<nat, Turn>, active: Option<nat>, head: Option<nat>, since: int, now: int, margin: int) {
    active.Some? && active.value in turns ==>
      Timely(turns[active.value].chunks, turns[active.value].deadline, head, since, now, margin)
  }

  class InteractionEngine {
    const hasAsr: bool
    const streams: bool
    const hasTts: bool
    const hasChat: bool
    const margin: int

    var turns: map<nat, Turn>
    var active: Option<nat>
    var nextId: nat
    var closed: bool
    var voice: Option<VoiceSession>
    var now: int
    ghost var head: Option<nat>
    ghost var since: int

    ghost predicate Valid()
      reads this
    {
      && Roster(turns, active, nextId) && (closed ==> active == None)
      && Timed(turns, active, head, since, now, Margin(margin)) && SilentIsCanceled(voice)
    }

    constructor (hasAsr: bool, streams: bool, hasTts: bool, hasChat: bool, margin: int, now: int)
      ensures Valid() && turns == map[] && active == None && !closed && voice == None && this.now == now
      ensures this.hasAsr == hasAsr && this.streams == streams && this.hasTts == hasTts && this.hasChat == hasChat
    {
      this.hasAsr, this.streams, this.hasTts, this.hasChat := hasAsr, streams, hasTts, hasChat;
      this.margin, this.now := margin, now;
      turns, active, nextId, closed, voice := map[], None, 1, false, None;
      head, since := None, now;
    }

    lemma Known(op: nat)
      requires Valid() && op in turns
      ensures Consistent(turns[op]) && (Live(turns[op]) <==> active == Some(op))
      ensures IdsBelow(turns[op].units, nextId) && op < nextId
      ensures Live(turns[op]) ==> Timely(turns[op].chunks, turns[op].deadline, head, since, now, Margin(margin)) && !closed
    {
      hide Consistent, HasUnit;
    }

    /** A turn takes a step that neither ends nor revives it, and leaves its audio alone. */
    method Put(op: nat, t: Turn, ids: nat)
      requires Valid() && op in turns && Consistent(t) && (Live(t) <==> Live(turns[op])) && Later(turns[op], t)
      requires IdsBelow(t.units, nextId + ids)
      requires t.chunks == turns[op].chunks && t.deadline == turns[op].deadline
      modifies this`turns, this`nextId
      ensures Valid() && turns == old(turns)[op := t] && nextId == old(nextId) + ids && Kept(old(turns), turns)
    {
      hide Consistent, Later, Timely, IdsBelow;
      StepRoster(turns, active, nextId, op, t, nextId + ids);
      turns := turns[op := t];
      nextId := nextId + ids;
    }

    /** The live turn takes a step in its audio, which may give another piece its turn. */
    method PutAudio(op: nat, t: Turn, ghost next: Option<nat>, ghost from: int)
      requires Valid() && op in turns && active == Some(op) && Consistent(t) && Live(t) && Later(turns[op], t)
      requires IdsBelow(t.units, nextId) && Timely(t.chunks, t.deadline, next, from, now, Margin(margin))
      modifies this`turns, this`head, this`since
      ensures Valid() && turns == old(turns)[op := t] && Kept(old(turns), turns) && head == next && since == from
    {
      hide Consistent, Later, Timely, IdsBelow;
      StepRoster(turns, active, nextId, op, t, nextId);
      turns := turns[op := t];
      head, since := next, from;
    }

    /** What a turn ends with: what was asked for, or a failure when it cannot be recorded or traced. */
    method Settle(t: Turn, state: State, code: Code) returns (s: State, c: Code, ghost recorded: bool, ghost stored: bool)
      requires Terminal(state)
      ensures (s, c) == Outcome(t, state, code, recorded, stored) && Terminal(s)
      ensures !stored ==> s == Failed && c == TraceStorageFailed
      ensures stored && !recorded ==> s == Failed && c == RecordingStorageFailed
      ensures stored && recorded && state != Completed ==> s == state && c == code
    {
      s, c := state, code;
      if s == Completed && t.state != Playing && !(t.state == Thinking && t.generationDone) && !TextWithoutSpeech(t) {
        s, c := Failed, InvalidCompletionState;
      }
      recorded, stored := true, true;
      if * {
        recorded := false;
        s, c := Failed, RecordingStorageFailed;
      }
      if * {
        stored := false;
        s, c := Failed, TraceStorageFailed;
      }
    }

    method FinishTurn(t: Turn, state: State, code: Code) returns (t': Turn, ghost recorded: bool, ghost stored: bool)
      requires Within(t.units, t.chunks) && Terminal(state)
      ensures t' == Finish(t, state, code, recorded, stored)
    {
      hide RefreshAll, Refreshed, Within, MayMove, Outcome, Finish;
      var s, c;
      s, c, recorded, stored := Settle(t, state, code);
      var units := RefreshUnits(t.units, t.chunks, true);
      t' := t.(units := units, errorCode := c, deadline := None);
      MayMoveSame(t, t', s);
      FinishMoves(t, state, code, recorded, stored, s, c);
      if MayMove(t', s) {
        t' := t'.(state := s);
      }
    }

    /** Ends the live turn, whatever fails: nothing is live then. */
    method FinishLocked(op: nat, t: Turn, state: State, code: Code) returns (ghost recorded: bool, ghost stored: bool)
      requires Valid() && op in turns && active == Some(op) && Observes(turns[op], t) && code != InvalidCompletionState
      requires state.Completed? || state.Failed? || state.Incomplete? || (state == Canceled && t.state == Canceling)
      requires state == Completed ==> MayComplete(t)
      requires state == Incomplete ==> MayContinue(t)
      modifies this`turns, this`active
      ensures Valid() && active == None && Kept(old(turns), turns)
      ensures Within(t.units, t.chunks) && turns == old(turns)[op := Finish(t, state, code, recorded, stored)]
      ensures Terminal(turns[op].state)
    {
      hide Consistent, Later, Timely, Observes, Finish, MayComplete, HasUnit;
      Known(op);
      FinishKeepsAll(turns[op], t, state, code, nextId);
      var t';
      t', recorded, stored := FinishTurn(t, state, code);
      StepRoster(turns, active, nextId, op, t', nextId);
      turns := turns[op := t'];
      if active == Some(op) {
        active := None;
      }
    }

    method FailLocked(op: nat, t: Turn, code: Code)
      requires Valid() && op in turns && active == Some(op) && Observes(turns[op], t) && code != InvalidCompletionState
      modifies this`turns, this`active
      ensures Valid() && active == None && Kept(old(turns), turns)
      ensures OnlyTurn(old(turns), turns, op) && FailedWith(turns[op], code) && turns[op].generation == t.generation
    {
      hide Consistent, Later, Timely, Observes, MayComplete, HasUnit;
      ObservesLive(turns[op], t);
      ghost var recorded, stored := FinishLocked(op, t, Failed, code);
      FailsWith(t, code, recorded, stored);
    }

    /** Ends a live turn as canceled, with what was last observed of its audio. An ended turn stays as it is. */
    method CancelTurn(op: nat, chunks: map<nat, Chunk>)
      requires Valid() && op in turns
      requires chunks.Keys == turns[op].chunks.Keys && ChunksLater(turns[op].chunks, chunks) && Observed(chunks)
      modifies this`turns, this`active
      ensures Valid() && op in turns && turns == old(turns)[op := turns[op]] && Kept(old(turns), turns)
      ensures Terminal(turns[op].state) && active == (if old(active) == Some(op) then None else old(active))
      ensures Live(old(turns)[op]) ==> (turns[op].state == Canceled || StorageFailed(turns[op])) && turns[op].chunks == chunks
      ensures Live(old(turns)[op]) ==>
                turns[op].generation == (if old(turns)[op].generation == None then Some(false) else old(turns)[op].generation)
      ensures !Live(old(turns)[op]) ==> turns == old(turns)
    {
      hide Consistent, Later, Timely, Observes, ChunksLater, Observed, HasUnit, Finish;
      Known(op);
      if Live(turns[op]) {
        var t := turns[op];
        if t.generation == None {
          t := t.(generation := Some(false));
        }
        t := t.(chunks := chunks, state := Canceling);
        CancelObserves(turns[op], t);
        ghost var recorded, stored := FinishLocked(op, t, Canceled, NoCode);
        CancelEnds(t, recorded, stored);
      } else {
        KeptStill(turns);
      }
    }

    method Cancel(op: nat) returns (found: bool)
      requires Valid()
      modifies this`turns, this`active
      ensures Valid() && found == (op in old(turns)) && OnlyTurn(old(turns), turns, op) && Kept(old(turns), turns)
      ensures found ==> Terminal(turns[op].state) && active == (if old(active) == Some(op) then None else old(active))
      ensures found && Live(old(turns)[op]) ==> turns[op].state == Canceled || StorageFailed(turns[op])
      ensures !found ==> turns == old(turns) && active == old(active)
    {
      hide Consistent, Later, Timely, ChunksLater;
      if op !in turns {
        KeptStill(turns);
        return false;
      }
      Known(op);
      ConsistentObserved(turns[op]);
      CancelTurn(op, turns[op].chunks);
      return true;
    }

    /** A failure reported from outside, or by a stage: the live turn fails, an ended one stays as it is. */
    method Fail(op: nat, code: Code) returns (found: bool)
      requires Valid() && code != InvalidCompletionState
      modifies this`turns, this`active
      ensures Valid() && found == (op in old(turns)) && OnlyTurn(old(turns), turns, op) && Kept(old(turns), turns)
      ensures found && Live(old(turns)[op]) ==> FailedWith(turns[op], code) && active == None
      ensures !(found && Live(old(turns)[op])) ==> turns == old(turns) && active == old(active)
    {
      hide Consistent, Later, Timely, Observes, ChunksLater, HasUnit;
      if op !in turns {
        KeptStill(turns);
        return false;
      }
      Known(op);
      if Live(turns[op]) {
        ConsistentObserved(turns[op]);
        SelfObserves(turns[op]);
        FailLocked(op, turns[op], code);
      } else {
        KeptStill(turns);
      }
      return true;
    }

    /** A stage of the pipeline failed. A generation that failed is not complete. */
    method StageFailure(op: nat, generating: bool, code: Code)
      requires Valid() && code != InvalidCompletionState
      modifies this`turns, this`active
      ensures Valid() && OnlyTurn(old(turns), turns, op) && Kept(old(turns), turns)
      ensures op in turns && Live(old(turns)[op]) ==>
                && FailedWith(turns[op], code) && active == None
                && turns[op].generation == (if generating then Some(false) else old(turns)[op].generation)
      ensures !(op in old(turns) && Live(old(turns)[op])) ==> turns == old(turns) && active == old(active)
    {
      hide Consistent, Later, Timely, Observes, ChunksLater, HasUnit;
      if op !in turns {
        KeptStill(turns);
        return;
      }
      Known(op);
      if Live(turns[op]) {
        ConsistentObserved(turns[op]);
        SelfObserves(turns[op]);
        var t := turns[op];
        if generating {
          t := t.(generation := Some(false));
        }
        GenerationObserves(turns[op], t);
        FailLocked(op, t, code);
      } else {
        KeptStill(turns);
      }
    }

    /** Finds the oldest turn that has ended. */
    lemma SomeEnded() returns (op: nat)
      requires Valid() && active == None && |turns| > 0
      ensures op in turns && Terminal(turns[op].state)
    {
      hide AllConsistent, Numbered;
      assert turns.Keys != {};
      op :| op in turns;
    }

    lemma AllEnded()
      requires Valid() && active == None
      ensures forall op :: op in turns ==> Terminal(turns[op].state)
    {
      hide AllConsistent, Numbered;
    }

    lemma NoneLive()
      requires Valid() && forall op :: op in turns ==> Terminal(turns[op].state)
      ensures active == None
    {
      hide AllConsistent, Numbered;
    }

    lemma Unused()
      requires Valid()
      ensures nextId !in turns
    {
      hide AllConsistent, SingleLive;
    }

    method Oldest() returns (oldest: Option<nat>)
      ensures oldest.Some? ==> oldest.value in turns && Terminal(turns[oldest.value].state)
      ensures oldest.Some? ==> forall op :: op in turns && Terminal(turns[op].state) ==> turns[oldest.value].created <= turns[op].created
      ensures oldest.None? ==> forall op :: op in turns ==> Live(turns[op])
    {
      oldest := None;
      var todo := turns.Keys;
      while todo != {}
        invariant todo <= turns.Keys
        invariant oldest.Some? ==> oldest.value in turns && Terminal(turns[oldest.value].state)
        invariant forall op :: op in turns && op !in todo && Terminal(turns[op].state) ==>
                    oldest.Some? && turns[oldest.value].created <= turns[op].created
        decreases |todo|
      {
        var op :| op in todo;
        if Terminal(turns[op].state) && (oldest.None? || turns[op].created < turns[oldest.value].created) {
          oldest := Some(op);
        }
        todo := todo - {op};
      }
    }

    method Drop(op: nat)
      requires Valid() && op in turns && Terminal(turns[op].state)
      modifies this`turns
      ensures Valid() && turns == old(turns) - {op} && |turns| == |old(turns)| - 1 && Kept(old(turns), turns)
    {
      hide Consistent, Later, Timely, HasUnit;
      Known(op);
      DropRoster(turns, active, nextId, op);
      turns := turns - {op};
    }

    /** Forgets every turn that ended too long ago. */
    method DropAged()
      requires Valid()
      modifies this`turns
      ensures Valid() && turns.Keys <= old(turns).Keys && |turns| <= |old(turns)| && Kept(old(turns), turns)
      ensures forall op :: op in turns ==> turns[op] == old(turns)[op]
      ensures forall op :: op in old(turns) ==>
                (op in turns <==> !(Terminal(old(turns)[op].state) && Aged(old(turns)[op], now)))
    {
      hide Consistent, Later, Timely, HasUnit, Roster, Kept;
      KeptStill(turns);
      ghost var before := turns;
      var todo := turns.Keys;
      while todo != {}
        invariant Valid() && todo <= turns.Keys <= before.Keys && |turns| <= |before| && Kept(before, turns)
        invariant forall op :: op in turns ==> turns[op] == before[op]
        invariant forall op :: op in before && op !in todo ==> (op in turns <==> !(Terminal(before[op].state) && Aged(before[op], now)))
        decreases |todo|
      {
        var op :| op in todo;
        if Terminal(turns[op].state) && Aged(turns[op], now) {
          ghost var earlier := turns;
          Drop(op);
          KeptOn(before, earlier, turns);
        }
        todo := todo - {op};
      }
    }

    /** Forgets the oldest turn that has ended, if any has. */
    method DropOldest() returns (dropped: bool)
      requires Valid() && active == None
      modifies this`turns
      ensures Valid() && Kept(old(turns), turns) && (dropped <==> |old(turns)| > 0) && (!dropped ==> turns == old(turns))
      ensures dropped ==> exists op :: op in old(turns) && turns == old(turns) - {op} && |turns| == |old(turns)| - 1
                                       && forall kept :: kept in turns ==> old(turns)[op].created <= turns[kept].created
    {
      hide Consistent, Later, Timely, HasUnit, Kept, Roster;
      KeptStill(turns);
      AllEnded();
      if |turns| > 0 {
        ghost var some := SomeEnded();
      }
      var oldest := Oldest();
      if oldest.None? {
        return false;
      }
      Drop(oldest.value);
      return true;
    }

    /** Makes room for a turn: forgets turns that ended too long ago, and then the oldest. */
    method Prune()
      requires Valid() && active == None
      modifies this`turns
      ensures nextId !in old(turns)
      ensures Valid() && |turns| < MAX_TURNS && turns.Keys <= old(turns).Keys && Kept(old(turns), turns)
      ensures forall op :: op in turns ==> turns[op] == old(turns)[op] && !Aged(turns[op], now)
      ensures forall op, kept :: op in old(turns) && op !in turns && !Aged(old(turns)[op], now) && kept in turns ==>
                old(turns)[op].created <= turns[kept].created
    {
      hide Consistent, Later, Timely, HasUnit, Kept, Roster, Timed;
      Unused();
      AllEnded();
      ghost var before := turns;
      DropAged();
      while |turns| >= MAX_TURNS
        invariant Valid() && turns.Keys <= before.Keys && Kept(before, turns)
        invariant forall op :: op in turns ==> turns[op] == before[op] && Terminal(turns[op].state) && !Aged(turns[op], now)
        invariant forall op, kept :: op in before && op !in turns && !Aged(before[op], now) && kept in turns ==>
                    before[op].created <= turns[kept].created
        decreases |turns|
      {
        ghost var earlier := turns;
        var dropped := DropOldest();
        if !dropped {
          break;
        }
        KeptOn(before, earlier, turns);
      }
    }

    /** Starts a turn, unless one is live, the engine is closed, a stage is missing, the request is not for the voice
        session there is, or, as `busy` says, the event queue is too long or the trace store has failed. */
    method Start(request: Request, approved: bool, busy: bool) returns (op: Option<nat>)
      requires Valid() && (approved ==> request.input == Replayed)
      modifies this`turns, this`active, this`nextId, this`voice, this`head, this`since
      ensures Valid() && Kept(old(turns), turns)
      ensures op.Some? <==> !old(closed) && ValidVoice(request, old(voice)) && old(active) == None && MayServe(request) && !busy
      ensures op == None ==> turns == old(turns) && active == old(active) && voice == old(voice)
      ensures op.Some? ==>
                && op.value !in old(turns) && active == op && turns.Keys <= old(turns).Keys + {op.value}
                && op.value in turns && turns[op.value] == Opened(request, approved, now)
                && voice == (if request.voiceSession.Some? then Some(old(voice).value.(state := Listening)) else old(voice))
      ensures Wedged(voice) <==> Wedged(old(voice))
    {
      hide Consistent, Later, HasUnit, Kept, Timely, IdsBelow, Wedged, Roster, Timed;
      KeptStill(turns);
      if closed || !ValidVoice(request, voice) || active.Some? {
        return None;
      }
      if busy || !MayServe(request) {
        return None;
      }
      WedgedIff(voice);
      Prune();
      ghost var pruned := turns;
      op := Open(request, approved);
      KeptOpened(old(turns), pruned, turns, op.value);
      if request.voiceSession.Some? {
        voice := Some(voice.value.(state := Listening));
        WedgedIff(voice);
      }
    }

    /** The stages that a request needs are there. */
    predicate MayServe(r: Request)
    {
      (r.input == Microphone ==> hasAsr) && hasTts && hasChat
    }

    method Open(request: Request, approved: bool) returns (op: Option<nat>)
      requires (approved ==> request.input == Replayed) && Valid() && active == None && !closed && |turns| < MAX_TURNS
      modifies this`turns, this`active, this`nextId, this`head, this`since
      ensures Valid() && Kept(old(turns), turns) && op == Some(old(nextId)) && active == op
      ensures turns == old(turns)[old(nextId) := Opened(request, approved, now)]
    {
      hide Consistent, Later, HasUnit, Kept, Timely, IdsBelow;
      var t := Opened(request, approved, now);
      OpenedFits(request, approved, now, nextId, Margin(margin));
      OpenRoster(turns, nextId, t);
      op := Some(nextId);
      turns := turns[nextId := t];
      nextId := nextId + 1;
      active := op;
      head, since := None, now;
    }

    /** Starts a turn that speaks an approved text: it has no input of its own. */
    method StartPreparedCandidate(request: Request, text: string, busy: bool) returns (op: Option<nat>)
      requires Valid()
      modifies this`turns, this`active, this`nextId, this`voice, this`head, this`since
      ensures Valid() && Kept(old(turns), turns)
      ensures op.Some? <==>
              && ProperCandidate(text) && !old(closed) && ValidVoice(request, old(voice)) && old(active) == None
              && hasTts && hasChat && !busy
      ensures op == None ==> turns == old(turns) && active == old(active) && voice == old(voice)
      ensures op.Some? ==>
                && op.value !in old(turns) && active == op && op.value in turns
                && turns[op.value] == Opened(request.(input := Replayed), true, now)
      ensures Wedged(voice) <==> Wedged(old(voice))
    {
      hide Consistent, Later, Timely, HasUnit, Kept, Wedged;
      KeptStill(turns);
      if !ProperCandidate(text) {
        return None;
      }
      op := Start(request.(input := Replayed), true, busy);
    }

    /** The second section of an approved text: its turn skips the input and asks for a generation. The state the turn
        is in is not looked at, so a turn whose input was handed in meanwhile is given a second generation: it has
        a single one if and only if it is found recording. */
    method FinishCandidate(op: nat, recorded: bool)
      requires Valid() && op in turns && turns[op].work.preparing
      modifies this`turns, this`active, this`nextId
      ensures Valid() && OnlyTurn(old(turns), turns, op) && Kept(old(turns), turns)
      ensures !Live(old(turns)[op]) ==> turns == old(turns) && active == old(active)
      ensures Live(old(turns)[op]) && !recorded ==> FailedWith(turns[op], RecordingStorageFailed) && active == None
      ensures Live(old(turns)[op]) && recorded ==>
                && turns == old(turns)[op := Prepared(old(turns)[op])] && active == old(active) && Live(turns[op])
                && (Claims(turns[op].work) == 1 <==> old(turns)[op].state == Recording)
                && turns[op].state == (if old(turns)[op].state == Recording || old(turns)[op].state == Transcribing then Thinking
                                       else old(turns)[op].state)
    {
      hide Consistent, Later, Timely, HasUnit, Claims, Prepared;
      KeptStill(turns);
      Known(op);
      if !Live(turns[op]) {
        return;
      }
      if !recorded {
        var _ := Fail(op, RecordingStorageFailed);
        return;
      }
      PreparedKeeps(turns[op]);
      PreparedLeaves(turns[op]);
      Put(op, Prepared(turns[op]), 0);
    }

    /** Hands in the input of a recording turn. */
    method Commit(op: nat, audio: nat, transcript: string) returns (ok: bool)
      requires Valid()
      modifies this`turns, this`nextId
      ensures Valid() && Kept(old(turns), turns)
      ensures ok == (ProperInput(audio, transcript) && op in old(turns) && old(turns)[op].state == Recording
                     && old(turns)[op].listening == Deaf)
      ensures turns == if ok then old(turns)[op := Submitted(old(turns)[op])] else old(turns)
      ensures ok ==> turns[op].state == Transcribing && Claims(turns[op].work) == Claims(old(turns)[op].work) + 1
    {
      hide Consistent, Later, Timely, HasUnit, Submitted;
      KeptStill(turns);
      if !ProperInput(audio, transcript) || op !in turns || turns[op].state != Recording || turns[op].listening != Deaf {
        return false;
      }
      Submit(op);
      return true;
    }

    method Submit(op: nat)
      requires Valid() && op in turns && turns[op].state == Recording
      modifies this`turns, this`nextId
      ensures Valid() && Kept(old(turns), turns) && turns == old(turns)[op := Submitted(old(turns)[op])]
      ensures turns[op].state == Transcribing && Claims(turns[op].work) == Claims(old(turns)[op].work) + 1
    {
      hide Consistent, Later, Timely, HasUnit, Submitted;
      Known(op);
      SubmittedKeeps(turns[op]);
      SubmittedClaims(turns[op]);
      Put(op, Submitted(turns[op]), 0);
    }

    /** Opens streaming recognition for a turn that records a microphone. */
    method BeginAsr(op: nat, rate: int) returns (ok: bool)
      requires Valid()
      modifies this`turns, this`nextId
      ensures Valid() && Kept(old(turns), turns)
      ensures ok <==>
              && MIN_RATE <= rate <= MAX_RATE && hasAsr && streams
              && op in old(turns) && old(turns)[op].state == Recording && old(turns)[op].request.input == Microphone
              && old(turns)[op].listening == Deaf
              && (old(turns)[op].request.voiceSession.Some? ==> ValidVoice(old(turns)[op].request, voice))
      ensures turns == if ok then old(turns)[op := old(turns)[op].(listening := Opening)] else old(turns)
    {
      hide Consistent, Later, Timely, HasUnit;
      KeptStill(turns);
      if rate < MIN_RATE || rate > MAX_RATE || !hasAsr || !streams {
        return false;
      }
      if op !in turns || turns[op].state != Recording || turns[op].request.input != Microphone || turns[op].listening != Deaf {
        return false;
      }
      if turns[op].request.voiceSession.Some? && !ValidVoice(turns[op].request, voice) {
        return false;
      }
      Known(op);
      Listen(op, Opening);
      return true;
    }

    method Listen(op: nat, listening: Recognition)
      requires Valid() && op in turns && Live(turns[op])
      modifies this`turns, this`nextId
      ensures Valid() && Kept(old(turns), turns) && turns == old(turns)[op := old(turns)[op].(listening := listening)]
    {
      hide Consistent, Later, Timely, HasUnit;
      Known(op);
      UntouchedKeeps(turns[op], turns[op].(listening := listening));
      Put(op, turns[op].(listening := listening), 0);
    }

    /** The provider of recognition has opened its session, or has not. */
    method OpenAsr(op: nat, success: bool, code: Code) returns (ok: bool)
      requires Valid() && code != InvalidCompletionState && (op in turns && Live(turns[op]) ==> turns[op].listening == Opening)
      modifies this`turns, this`active, this`nextId
      ensures Valid() && OnlyTurn(old(turns), turns, op) && Kept(old(turns), turns)
      ensures ok == (success && op in old(turns) && Live(old(turns)[op]))
      ensures ok ==> turns == old(turns)[op := old(turns)[op].(listening := Hearing(0))] && active == old(active)
      ensures !success && op in old(turns) && Live(old(turns)[op]) ==> FailedWith(turns[op], code) && active == None
      ensures !(op in old(turns) && Live(old(turns)[op])) ==> turns == old(turns) && active == old(active)
    {
      hide Consistent, Later, Timely, HasUnit;
      KeptStill(turns);
      if !success {
        StageFailure(op, false, code);
        return false;
      }
      if op !in turns || !Live(turns[op]) {
        return false;
      }
      Listen(op, Hearing(0));
      return true;
    }

    /** A piece of audio for streaming recognition; an improper one fails the turn. */
    method HearAudio(op: nat, size: nat, proper: bool) returns (ok: bool)
      requires Valid() && (proper ==> size > 0)
      modifies this`turns, this`active, this`nextId
      ensures Valid() && OnlyTurn(old(turns), turns, op) && Kept(old(turns), turns)
      ensures ok == (proper && op in old(turns) && old(turns)[op].listening.Hearing? && old(turns)[op].state == Recording)
      ensures ok ==>
                && turns == old(turns)[op := old(turns)[op].(listening := Hearing(old(turns)[op].listening.heard + size))]
                && active == old(active)
      ensures !proper && op in old(turns) && old(turns)[op].listening.Hearing? && old(turns)[op].state == Recording ==>
                FailedWith(turns[op], Reported("invalid_audio")) && active == None
      ensures !(op in old(turns) && old(turns)[op].listening.Hearing? && old(turns)[op].state == Recording) ==> turns == old(turns)
    {
      hide Consistent, Later, Timely, HasUnit;
      KeptStill(turns);
      if op !in turns || !turns[op].listening.Hearing? || turns[op].state != Recording {
        return false;
      }
      if !proper {
        var _ := Fail(op, Reported("invalid_audio"));
        return false;
      }
      Listen(op, Hearing(turns[op].listening.heard + size));
      return true;
    }

    /** Ends the input of streaming recognition. A session that has heard nothing fails the turn. */
    method EndAsr(op: nat, reason: string) returns (ok: bool)
      requires Valid()
      modifies this`turns, this`active, this`nextId, this`voice
      ensures Valid() && OnlyTurn(old(turns), turns, op) && Kept(old(turns), turns)
      ensures ok <==>
              && reason in END_REASONS && op in old(turns) && old(turns)[op].listening.Hearing? && old(turns)[op].state == Recording
              && old(turns)[op].listening.heard > 0
      ensures ok ==> turns == old(turns)[op := Submitted(old(turns)[op])] && active == old(active)
      ensures reason in END_REASONS && op in old(turns) && old(turns)[op].listening == Hearing(0) && old(turns)[op].state == Recording ==>
                FailedWith(turns[op], Reported("invalid_audio")) && active == None
      ensures !(reason in END_REASONS && op in old(turns) && old(turns)[op].listening.Hearing? && old(turns)[op].state == Recording) ==>
                turns == old(turns) && active == old(active)
      ensures voice == if ok && old(turns)[op].request.voiceSession.Some? && ValidVoice(old(turns)[op].request, old(voice))
                       then Some(old(voice).value.(state := Responding)) else old(voice)
      ensures Wedged(voice) <==> Wedged(old(voice))
    {
      hide Consistent, Later, Timely, HasUnit, Wedged, Submitted;
      KeptStill(turns);
      if reason !in END_REASONS || op !in turns || !turns[op].listening.Hearing? || turns[op].state != Recording {
        return false;
      }
      if turns[op].listening.heard == 0 {
        var _ := Fail(op, Reported("invalid_audio"));
        return false;
      }
      if turns[op].request.voiceSession.Some? && ValidVoice(turns[op].request, voice) {
        WedgedIff(voice);
        voice := Some(voice.value.(state := Responding));
        WedgedIff(voice);
      }
      SubmittedKeeps(turns[op]);
      SubmittedClaims(turns[op]);
      Put(op, Submitted(turns[op]), 0);
      return true;
    }

    /** Recognition heard nothing: the turn ends as canceled. The voice session goes back to listening, and so does
        a paused or ended one beside which the turn ran: exactly then no request is valid for the session any more,
        until it is paused or ended again. */
    method NoSpeech(op: nat)
      requires Valid() && op in turns && turns[op].work.awaiting && turns[op].listening.Hearing?
      modifies this`turns, this`active, this`voice
      ensures Valid() && OnlyTurn(old(turns), turns, op) && Kept(old(turns), turns)
      ensures Live(old(turns)[op]) ==>
                && (turns[op].state == Canceled || StorageFailed(turns[op])) && active == None
                && voice == (if ValidVoice(old(turns)[op].request, old(voice)) && old(voice).Some?
                             then Some(old(voice).value.(state := Listening)) else old(voice))
      ensures !Live(old(turns)[op]) ==> turns == old(turns) && active == old(active) && voice == old(voice)
      ensures var r := old(turns)[op].request;
              Wedged(voice) <==>
                || Wedged(old(voice))
                || (Live(old(turns)[op]) && voice.Some? && ValidVoice(r, old(voice)) && r.voiceSession.None?)
    {
      hide Consistent, Later, Timely, Wedged;
      Known(op);
      if Terminal(turns[op].state) {
        KeptStill(turns);
        return;
      }
      WedgedIff(voice);
      if ValidVoice(turns[op].request, voice) && voice.Some? {
        voice := Some(voice.value.(state := Listening));
        WedgedIff(voice);
      }
      CancelSilently(op);
    }

    method CancelSilently(op: nat)
      requires Valid() && op in turns && Live(turns[op])
      modifies this`turns, this`active
      ensures Valid() && OnlyTurn(old(turns), turns, op) && Kept(old(turns), turns)
      ensures active == None && (turns[op].state == Canceled || StorageFailed(turns[op]))
    {
      hide Consistent, Later, Timely, Observes, ChunksLater, Observed, HasUnit, Finish;
      Known(op);
      var t := turns[op].(state := Canceling);
      ConsistentObserved(turns[op]);
      CancelObserves(turns[op], t);
      ghost var recorded, stored := FinishLocked(op, t, Canceled, NoCode);
      CancelEnds(t, recorded, stored);
    }

    /** Accepts the input of a turn. Blank input fails it, input that a resident command takes cancels it, and so
        a generation is asked for only with a recorded input. */
    method AcceptTranscript(op: nat, blank: bool, resident: bool, recorded: bool)
      requires Valid() && (op in turns ==> turns[op].work.awaiting)
      modifies this`turns, this`active, this`nextId
      ensures Valid() && OnlyTurn(old(turns), turns, op) && Kept(old(turns), turns)
      ensures op in turns && Live(old(turns)[op]) ==>
                if blank then FailedWith(turns[op], Reported("asr_empty_result"))
                else if resident then turns[op].state == Canceled || StorageFailed(turns[op])
                else if !recorded then FailedWith(turns[op], RecordingStorageFailed)
                else
                  && turns == old(turns)[op := Accepted(old(turns)[op])] && active == old(active) && Live(turns[op])
                  && Claims(turns[op].work) == Claims(old(turns)[op].work)
                  && turns[op].state == (if old(turns)[op].state == Transcribing then Thinking else old(turns)[op].state)
      ensures !(op in old(turns) && Live(old(turns)[op])) ==> turns == old(turns)
    {
      hide Consistent, Later, Timely, Observes, HasUnit, ChunksLater, Accepted, Claims;
      KeptStill(turns);
      if blank {
        StageFailure(op, false, Reported("asr_empty_result"));
        return;
      }
      if op !in turns || Terminal(turns[op].state) {
        return;
      }
      Known(op);
      ConsistentObserved(turns[op]);
      if resident {
        CancelTurn(op, turns[op].chunks);
        return;
      }
      if !recorded {
        var _ := Fail(op, RecordingStorageFailed);
        return;
      }
      AcceptedKeeps(turns[op]);
      AcceptedLeaves(turns[op]);
      Put(op, Accepted(turns[op]), 0);
    }

    /** A generation that was asked for begins, unless its turn has ended meanwhile. */
    method BeginGeneration(op: nat)
      requires Valid() && (op in turns && Live(turns[op]) ==> turns[op].work.starts > 0)
      modifies this`turns, this`nextId
      ensures Valid() && Kept(old(turns), turns) && active == old(active)
      ensures turns == if op in old(turns) && Live(old(turns)[op]) then old(turns)[op := Began(old(turns)[op])] else old(turns)
      ensures op in old(turns) && Live(old(turns)[op]) ==>
                turns[op].work.runs == old(turns)[op].work.runs + [Run(old(turns)[op].last, [], [], [], None, 0, false, false)]
    {
      hide Consistent, Later, Timely, HasUnit;
      KeptStill(turns);
      if op in turns && Live(turns[op]) {
        Known(op);
        BeganKeeps(turns[op]);
        Put(op, Began(turns[op]), 0);
      }
    }

    /** A callback of a generation counts only for a live turn, and only in the revision that made it. */
    predicate GenerationLive(op: nat, revision: nat)
      reads this
    {
      op in turns && Live(turns[op]) && turns[op].revision == revision
    }

    /** This is one of the generations of the revision. */
    predicate Begun(op: nat, revision: nat, g: nat)
      reads this
    {
      GenerationLive(op, revision) ==> g < |turns[op].work.runs|
    }

    /** The assembler of this generation is at work. An approved text is complete. */
    predicate Asking(op: nat, revision: nat, g: nat, complete: bool)
      reads this
    {
      GenerationLive(op, revision) ==>
        g < |turns[op].work.runs| && !turns[op].work.runs[g].answered && (turns[op].approved ==> complete)
    }

    /** The consumer of this generation is synthesizing a unit. */
    predicate Voicing(op: nat, revision: nat, g: nat)
      reads this
    {
      GenerationLive(op, revision) ==> g < |turns[op].work.runs| && turns[op].work.runs[g].current.Some?
    }

    /** This generation has been answered, and nothing of it is left to speak. */
    predicate Drained(op: nat, revision: nat, g: nat)
      reads this
    {
      GenerationLive(op, revision) ==>
        && g < |turns[op].work.runs| && turns[op].work.runs[g].answered
        && turns[op].work.runs[g].queue == [] && turns[op].work.runs[g].current.None?
    }

    method RegisterUnits(op: nat, count: nat) returns (units: seq<Unit>, ids: seq<nat>)
      requires op in turns
      ensures |ids| == count && forall i :: 0 <= i < count ==> ids[i] == nextId + i
      ensures units == RegisterAll(turns[op].units, ids, turns[op].revision)
    {
      units, ids := turns[op].units, [];
      for j := 0 to count
        invariant |ids| == j && forall i :: 0 <= i < j ==> ids[i] == nextId + i
        invariant units == RegisterAll(turns[op].units, ids, turns[op].revision)
      {
        units := units + [Unit(nextId + j, turns[op].revision, Unobserved, [], false, false)];
        assert (ids + [nextId + j])[..|ids|] == ids;
        ids := ids + [nextId + j];
      }
    }

    method HandOver(op: nat, revision: nat, g: nat, count: nat, complete: bool, plan: string)
      requires Valid() && Asking(op, revision, g, complete) && GenerationLive(op, revision)
      modifies this`turns, this`nextId
      ensures Valid() && Kept(old(turns), turns) && OnlyTurn(old(turns), turns, op)
      ensures exists ids :: |ids| == count && NewIds(old(turns)[op].units, ids)
                            && turns[op] == Progressed(old(turns)[op], g, ids, complete, plan)
                            && g < |turns[op].work.runs|
                            && turns[op].work.runs[g].handed == old(turns)[op].work.runs[g].handed + ids
      ensures Live(turns[op])
    {
      hide Consistent, Later, Timely, HasUnit, IdsBelow, RegisterAll, NewIds, Progressed;
      Known(op);
      var t := turns[op];
      var units, ids := RegisterUnits(op, count);
      IdsNew(t.units, nextId, ids);
      ProgressedKeeps(t, g, ids, complete, plan);
      ProgressedFits(t, g, ids, complete, plan, nextId);
      var s := t;
      if count > 0 && t.state == Thinking {
        s := Move(t, Synthesizing);
      }
      var r := t.work.runs[g];
      s := With(s, g, r.(handed := r.handed + ids, queue := if r.broken then [] else r.queue + ids)).(
             plan := plan, generation := Some(complete), units := units);
      ProgressedBy(t, g, ids, complete, plan, s);
      Put(op, s, count);
    }

    method TooManyUnits(op: nat, complete: bool, plan: string)
      requires Valid() && op in turns && active == Some(op)
      modifies this`turns, this`active
      ensures Valid() && active == None && Kept(old(turns), turns)
      ensures OnlyTurn(old(turns), turns, op) && FailedWith(turns[op], AudioLimit)
    {
      hide Consistent, Later, Timely, Observes;
      Known(op);
      var t := turns[op].(plan := plan, generation := Some(complete));
      ConsistentObserved(turns[op]);
      SelfObserves(turns[op]);
      TextObserves(turns[op], t);
      FailLocked(op, t, AudioLimit);
    }

    /** The assembler has committed more: its units are registered and handed to speech. */
    method OnProgress(op: nat, revision: nat, g: nat, count: nat, complete: bool, plan: string, recorded: bool)
      requires Valid() && Asking(op, revision, g, complete)
      modifies this`turns, this`active, this`nextId
      ensures Valid() && OnlyTurn(old(turns), turns, op) && Kept(old(turns), turns)
      ensures !old(GenerationLive(op, revision)) ==> turns == old(turns) && active == old(active)
      ensures old(GenerationLive(op, revision)) ==>
                if |old(turns)[op].units| + count > MAX_UNITS then FailedWith(turns[op], AudioLimit) && active == None
                else if !recorded then FailedWith(turns[op], RecordingStorageFailed) && active == None
                else
                  && Live(turns[op]) && active == old(active)
                  && exists ids :: |ids| == count && NewIds(old(turns)[op].units, ids)
                                   && turns[op] == Progressed(old(turns)[op], g, ids, complete, plan)
                                   && g < |turns[op].work.runs|
                                   && turns[op].work.runs[g].handed == old(turns)[op].work.runs[g].handed + ids
    {
      hide Consistent, Later, Timely, Observes, HasUnit, IdsBelow, RegisterAll, NewIds, Progressed;
      KeptStill(turns);
      if !GenerationLive(op, revision) {
        return;
      }
      Known(op);
      if |turns[op].units| + count > MAX_UNITS {
        TooManyUnits(op, complete, plan);
        return;
      }
      HandOver(op, revision, g, count, complete, plan);
      if !recorded {
        ghost var registered := turns;
        var _ := Fail(op, RecordingStorageFailed);
        KeptOn(old(turns), registered, turns);
      }
    }

    /** A failed assembler run leaves what it had committed. */
    method NoteFailedAnswer(op: nat, revision: nat, g: nat, complete: bool, plan: string)
      requires Valid() && Asking(op, revision, g, complete)
      modifies this`turns, this`nextId
      ensures Valid() && Kept(old(turns), turns)
      ensures turns == if old(GenerationLive(op, revision))
                       then old(turns)[op := old(turns)[op].(plan := plan, generation := Some(complete))] else old(turns)
    {
      hide Consistent, Later, Timely, HasUnit;
      KeptStill(turns);
      if GenerationLive(op, revision) {
        Known(op);
        UntouchedKeeps(turns[op], turns[op].(plan := plan, generation := Some(complete)));
        Put(op, turns[op].(plan := plan, generation := Some(complete)), 0);
      }
    }

    /** The assembler has returned an answer, complete or not. An approved text was handed to speech before. */
    method LlmAnswered(op: nat, revision: nat, g: nat, complete: bool, plan: string, recorded: bool)
      requires Valid() && Asking(op, revision, g, complete)
      requires GenerationLive(op, revision) && turns[op].approved ==> turns[op].work.runs[g].handed != []
      modifies this`turns, this`active, this`nextId
      ensures Valid() && OnlyTurn(old(turns), turns, op) && Kept(old(turns), turns)
      ensures !old(GenerationLive(op, revision)) ==> turns == old(turns) && active == old(active)
      ensures old(GenerationLive(op, revision)) ==>
                if recorded then
                  && turns[op] == Answered(old(turns)[op], g, complete, plan) && active == old(active)
                  && turns[op].generationDone && turns[op].generation == Some(complete) && turns[op].plan == plan
                else FailedWith(turns[op], RecordingStorageFailed) && active == None
    {
      hide Consistent, Later, Timely, Observes, HasUnit;
      KeptStill(turns);
      if !GenerationLive(op, revision) {
        return;
      }
      Known(op);
      AnsweredKeeps(turns[op], g, complete, plan);
      Put(op, Answered(turns[op], g, complete, plan), 0);
      if !recorded {
        ghost var answered := turns;
        var _ := Fail(op, RecordingStorageFailed);
        KeptOn(old(turns), answered, turns);
      }
    }

    /** The speech consumer takes the next unit off its queue. */
    method TakeUnit(op: nat, revision: nat, g: nat)
      requires Valid() && Begun(op, revision, g)
      requires GenerationLive(op, revision) ==> turns[op].work.runs[g].queue != [] && turns[op].work.runs[g].current.None?
      modifies this`turns, this`nextId
      ensures Valid() && Kept(old(turns), turns)
      ensures turns == if old(GenerationLive(op, revision)) then old(turns)[op := TakesUnit(old(turns)[op], g)] else old(turns)
      ensures old(GenerationLive(op, revision)) ==>
                var r, r' := old(turns)[op].work.runs[g], turns[op].work.runs[g];
                && |r.taken| < |r.handed| && r'.current == Some(r.handed[|r.taken|])
                && r'.taken == r.handed[..|r.taken| + 1] && r'.queue == r.handed[|r.taken| + 1..] && r'.handed == r.handed
    {
      hide Consistent, Later, Timely, HasUnit;
      KeptStill(turns);
      if GenerationLive(op, revision) {
        Known(op);
        FirstWaiting(turns[op], g);
        SpeechKeeps(turns[op], g);
        Put(op, TakesUnit(turns[op], g), 0);
      }
    }

    /** The synthesis of a unit returned without error: the consumer goes on. */
    method UnitSpoken(op: nat, revision: nat, g: nat)
      requires Valid() && Voicing(op, revision, g)
      modifies this`turns, this`nextId
      ensures Valid() && Kept(old(turns), turns)
      ensures turns == if old(GenerationLive(op, revision)) then old(turns)[op := Spoke(old(turns)[op], g)] else old(turns)
      ensures old(GenerationLive(op, revision)) ==>
                turns[op].work.runs[g] == old(turns)[op].work.runs[g].(current := None, spoken := old(turns)[op].work.runs[g].spoken + 1)
    {
      hide Consistent, Later, Timely, HasUnit;
      KeptStill(turns);
      if GenerationLive(op, revision) {
        Known(op);
        SpeechKeeps(turns[op], g);
        Put(op, Spoke(turns[op], g), 0);
      }
    }

    /** The synthesis of a unit failed: typed input goes on without speech, spoken input fails. */
    method SpeechFailed(op: nat, revision: nat, g: nat, code: Code)
      requires Valid() && code != InvalidCompletionState && Voicing(op, revision, g)
      modifies this`turns, this`active, this`nextId
      ensures Valid() && OnlyTurn(old(turns), turns, op) && Kept(old(turns), turns)
      ensures !old(GenerationLive(op, revision)) ==> turns == old(turns) && active == old(active)
      ensures old(GenerationLive(op, revision)) ==>
                if old(turns)[op].request.input == Typed then
                  && turns == old(turns)[op := GaveUp(old(turns)[op], g)] && active == old(active)
                  && turns[op].work.runs[g].broken && turns[op].work.runs[g].queue == [] && turns[op].work.runs[g].current == None
                else FailedWith(turns[op], code) && active == None
    {
      hide Consistent, Later, Timely, HasUnit;
      KeptStill(turns);
      if !GenerationLive(op, revision) {
        return;
      }
      Known(op);
      if turns[op].request.input == Typed {
        SpeechKeeps(turns[op], g);
        Put(op, GaveUp(turns[op], g), 0);
      } else {
        StageFailure(op, false, code);
      }
    }

    /** The synthesis of a unit has succeeded. This stays an observation of the unit even when its turn has ended
        meanwhile, but not when the turn is gone or in a later revision. */
    method SealUnit(op: nat, revision: nat, id: nat)
      requires Valid() && (op in turns && turns[op].revision == revision ==> HasUnit(turns[op].units, id))
      modifies this`turns, this`nextId
      ensures Valid() && Kept(old(turns), turns) && active == old(active)
      ensures !(op in old(turns) && old(turns)[op].revision == revision) ==> turns == old(turns)
      ensures op in old(turns) && old(turns)[op].revision == revision ==>
                exists i :: 0 <= i < |old(turns)[op].units| && old(turns)[op].units[i].id == id
                            && Within(old(turns)[op].units, old(turns)[op].chunks)
                            && turns == old(turns)[op := SealedUnit(old(turns)[op], i)]
                            && |turns[op].units| == |old(turns)[op].units| && turns[op].units[i].sealed
                            && forall j :: 0 <= j < |turns[op].units| && j != i ==> turns[op].units[j].sealed == old(turns)[op].units[j].sealed
    {
      hide Consistent, Later, Timely, IdsBelow, Within, SealedUnit, RefreshAll;
      KeptStill(turns);
      if op !in turns || turns[op].revision != revision {
        return;
      }
      Known(op);
      var t := turns[op];
      ConsistentIds(t);
      var i := FindUnit(t, id);
      SealKeeps(t, i);
      SealChanges(t, i, nextId);
      var units := RefreshUnits(Sealed(t.units, i), t.chunks, Over(t.state));
      Put(op, t.(units := units), 0);
    }

    /** Finds the unit with the given id. */
    method FindUnit(t: Turn, id: nat) returns (i: nat)
      requires HasUnit(t.units, id)
      ensures i < |t.units| && t.units[i].id == id
    {
      i := 0;
      while t.units[i].id != id
        invariant i < |t.units| && exists j :: i <= j < |t.units| && t.units[j].id == id
        decreases |t.units| - i
      {
        i := i + 1;
      }
    }

    /** A piece of audio of the unit that is being synthesized. It gets the next number, and does not move the
        deadline of the audio before it. */
    method EmitAudio(op: nat, revision: nat, g: nat, id: nat, duration: Option<nat>, size: nat) returns (ok: bool)
      requires Valid()
      requires GenerationLive(op, revision) && Speaking(turns[op], g, id) ==>
                 forall i :: 0 <= i < |turns[op].units| && turns[op].units[i].id == id ==> !turns[op].units[i].sealed
      modifies this`turns, this`head, this`since
      ensures Valid() && Kept(old(turns), turns)
      ensures ok == (old(GenerationLive(op, revision)) && Speaking(old(turns)[op], g, id) && duration.Some?
                     && old(turns)[op].bytes + size <= MAX_AUDIO_BYTES && old(turns)[op].last < MAX_CHUNKS)
      ensures !ok ==> turns == old(turns) && head == old(head) && since == old(since)
      ensures ok ==> since == if old(head).Some? then old(since) else now
      ensures ok ==>
                && OnlyTurn(old(turns), turns, op) && turns[op].last == old(turns)[op].last + 1
                && turns[op].last in turns[op].chunks && NewAudio(turns[op].chunks[turns[op].last], id, duration.value)
                && turns[op].bytes == old(turns)[op].bytes + size
                && (old(head).Some? ==> head == old(head) && turns[op].deadline == old(turns)[op].deadline)
      ensures ok ==> exists i :: 0 <= i < |old(turns)[op].units| && old(turns)[op].units[i].id == id
                                 && Heads(Audio(old(turns)[op], i, duration.value, size).chunks, head)
                                 && turns[op] == Rescheduled(Audio(old(turns)[op], i, duration.value, size), head, now, Margin(margin))
    {
      hide Consistent, Later, Timely, IdsBelow, HasUnit, Heads, Due, Waiting;
      KeptStill(turns);
      if !GenerationLive(op, revision) || !Speaking(turns[op], g, id) || duration.None? {
        return false;
      }
      Known(op);
      var t := turns[op];
      ChunkCount(t);
      if t.bytes + size > MAX_AUDIO_BYTES || |t.chunks| >= MAX_CHUNKS {
        return false;
      }
      CurrentUnit(t, g, id);
      var i := FindUnit(t, id);
      var k := |t.chunks| + 1;
      var a := t.(chunks := Queued(t.chunks, k, id, duration.value), units := Appended(t.units, i, k), last := k, bytes := t.bytes + size);
      var waiting, deadline := NextPlaybackDeadline(a.chunks, now, margin);
      ghost var next :| Scheduled(a.chunks, now, margin, next, waiting, deadline);
      EmitFits(t, g, i, duration.value, size, head, since, next, now, Margin(margin), nextId);
      PutAudio(op, a.(chunks := waiting, deadline := deadline), next, if head.Some? then since else now);
      return true;
    }

    method AllStopped(chunks: map<nat, Chunk>) returns (all: bool)
      ensures all <==> forall k :: k in chunks ==> chunks[k].stopped
    {
      var todo := chunks.Keys;
      while todo != {}
        invariant todo <= chunks.Keys && forall k :: k in chunks && k !in todo ==> chunks[k].stopped
        decreases |todo|
      {
        var k :| k in todo;
        if !chunks[k].stopped {
          return false;
        }
        todo := todo - {k};
      }
      return true;
    }

    /** Ends a turn whose generation and audio are over: completed if its answer is, and incomplete otherwise. The
        completion is never rejected for the state of the turn; only storage can fail it. */
    method CompleteIfPlayed(op: nat)
      requires Valid() && op in turns
      modifies this`turns, this`active
      ensures Valid() && OnlyTurn(old(turns), turns, op) && Kept(old(turns), turns)
      ensures turns[op].chunks == old(turns)[op].chunks
      ensures old(turns)[op].producerDone && old(turns)[op].generationDone && Live(old(turns)[op])
              && (forall k :: k in old(turns)[op].chunks ==> old(turns)[op].chunks[k].stopped) ==>
                && active == None
                && (|| turns[op].state == (if old(turns)[op].generation == Some(true) then Completed else Incomplete)
                    || StorageFailed(turns[op]))
      ensures !(old(turns)[op].producerDone && old(turns)[op].generationDone && Live(old(turns)[op])
                && (forall k :: k in old(turns)[op].chunks ==> old(turns)[op].chunks[k].stopped)) ==>
                turns == old(turns) && active == old(active)
    {
      hide Consistent, Later, Timely, Observes, HasUnit, MayComplete, Finish, Roster, Timed, Kept;
      KeptStill(turns);
      var t := turns[op];
      if !t.producerDone || !t.generationDone || Terminal(t.state) {
        return;
      }
      var all := AllStopped(t.chunks);
      if !all {
        return;
      }
      Known(op);
      ConsistentObserved(t);
      SelfObserves(t);
      CompletionAccepted(t);
      CompletionContinues(t);
      ghost var recorded, stored;
      if t.generation == Some(true) {
        recorded, stored := FinishLocked(op, t, Completed, NoCode);
        FinishedAs(t, Completed, NoCode, recorded, stored);
      } else {
        recorded, stored := FinishLocked(op, t, Incomplete, IncompleteResponse);
        FinishedAs(t, Incomplete, IncompleteResponse, recorded, stored);
      }
    }

    /** Nothing more will be spoken of this generation. Speech without any audio since it began fails the turn. */
    method FinishSpeech(op: nat, revision: nat, g: nat)
      requires Valid() && Drained(op, revision, g)
      modifies this`turns, this`active, this`nextId
      ensures Valid() && OnlyTurn(old(turns), turns, op) && Kept(old(turns), turns)
      ensures !old(GenerationLive(op, revision)) ==> turns == old(turns) && active == old(active)
      ensures old(GenerationLive(op, revision)) ==>
                && (Live(turns[op]) ==>
                      && turns[op] == Produced(old(turns)[op], g) && turns[op].producerDone
                      && turns[op].speechFailed == (old(turns)[op].speechFailed || old(turns)[op].work.runs[g].broken))
                && (if Unheard(old(turns)[op], g) then FailedWith(turns[op], EmptyAudio)
                    else Live(turns[op])
                         || turns[op].state == (if old(turns)[op].generation == Some(true) then Completed else Incomplete)
                         || StorageFailed(turns[op]))
    {
      hide Consistent, Later, Timely, Kept, Roster, Timed;
      KeptStill(turns);
      if !GenerationLive(op, revision) {
        return;
      }
      Known(op);
      var r := turns[op].work.runs[g];
      if !r.broken && r.spoken > 0 && turns[op].last == r.first {
        FailUnspoken(op);
        return;
      }
      AudioSinceFirst(turns[op], g);
      Produce(op, g);
      ghost var produced := turns;
      CompleteIfPlayed(op);
      KeptOn(old(turns), produced, turns);
    }

    /** Every unit was spoken, and none gave any audio. */
    method FailUnspoken(op: nat)
      requires Valid() && op in turns && Live(turns[op])
      modifies this`turns, this`active
      ensures Valid() && OnlyTurn(old(turns), turns, op) && Kept(old(turns), turns)
      ensures active == None && FailedWith(turns[op], EmptyAudio)
    {
      hide Consistent, Later, Timely, Observes, HasUnit;
      Known(op);
      ConsistentObserved(turns[op]);
      SelfObserves(turns[op]);
      ProducerObserves(turns[op], turns[op].(producerDone := true));
      FailLocked(op, turns[op].(producerDone := true), EmptyAudio);
    }

    method Produce(op: nat, g: nat)
      requires Valid() && op in turns && Live(turns[op]) && Drained(op, turns[op].revision, g)
      requires !turns[op].work.runs[g].broken && turns[op].work.runs[g].spoken > 0 ==>
                 turns[op].last > turns[op].work.runs[g].first
      modifies this`turns, this`nextId
      ensures Valid() && turns == old(turns)[op := Produced(old(turns)[op], g)] && Kept(old(turns), turns)
    {
      hide Consistent, Later, Timely, IdsBelow;
      Known(op);
      ProducedKeeps(turns[op], g);
      Put(op, Produced(turns[op], g), 0);
    }

    /** The start of a piece of audio is acknowledged. */
    method StartPlaying(op: nat, k: nat, recorded: bool)
      requires Valid() && op in turns && k in turns[op].chunks && !turns[op].chunks[k].started
      requires turns[op].state == Synthesizing || turns[op].state == Playing
      modifies this`turns, this`active, this`head, this`since
      ensures Valid() && OnlyTurn(old(turns), turns, op) && Kept(old(turns), turns) && head == old(head) && since == old(since)
      ensures if recorded then
                && active == Some(op)
                && turns[op].chunks.Keys == old(turns)[op].chunks.Keys && turns[op].chunks[k].started && turns[op].state == Playing
                && turns[op].chunks[k].startedAt == now && turns[op].generation == old(turns)[op].generation
                && (head != Some(k) ==> turns[op].deadline == old(turns)[op].deadline)
                && Within(old(turns)[op].units, old(turns)[op].chunks) && Heads(PlayStarted(old(turns)[op], k, now).chunks, head)
                && turns[op] == Rescheduled(PlayStarted(old(turns)[op], k, now), head, now, Margin(margin))
              else active == None && FailedWith(turns[op], RecordingStorageFailed)
    {
      hide Consistent, Later, Timely, Observes, HasUnit, IdsBelow, RefreshAll, Heads, Due, Waiting, Within, PlayStarted, Roster, Timed, Kept;
      Known(op);
      var t := turns[op];
      PlayStartedKeeps(t, k, now);
      var chunks := Started(t.chunks, k, now);
      StartChanges(t, k, now);
      var units := RefreshUnits(t.units, chunks, false);
      var p := t.(state := Playing, chunks := chunks, units := units);
      if !recorded {
        FailLocked(op, p, RecordingStorageFailed);
        return;
      }
      var waiting, deadline := NextPlaybackDeadline(p.chunks, now, margin);
      ghost var next :| Scheduled(p.chunks, now, margin, next, waiting, deadline);
      StartFits(t, k, head, since, next, now, Margin(margin), nextId);
      PutAudio(op, p.(chunks := waiting, deadline := deadline), next, since);
    }

    /** The natural end of a piece of audio is acknowledged: the next piece, if any, is waited for from now on. */
    method StopPlaying(op: nat, k: nat, recorded: bool)
      requires Valid() && op in turns && Live(turns[op])
      requires k in turns[op].chunks && turns[op].chunks[k].started && !turns[op].chunks[k].stopped
      modifies this`turns, this`active, this`head, this`since
      ensures Valid() && OnlyTurn(old(turns), turns, op) && Kept(old(turns), turns)
      ensures if recorded then
                && active == Some(op)
                && turns[op].chunks.Keys == old(turns)[op].chunks.Keys && turns[op].chunks[k].started && turns[op].chunks[k].stopped
                && turns[op].generation == old(turns)[op].generation
                && old(head).Some? && (head.Some? ==> old(head).value <= head.value)
                && (if old(head) == Some(k) then since == now
                    else head == old(head) && since == old(since) && turns[op].deadline == old(turns)[op].deadline)
                && Within(old(turns)[op].units, old(turns)[op].chunks) && Heads(PlayStopped(old(turns)[op], k).chunks, head)
                && turns[op] == Rescheduled(PlayStopped(old(turns)[op], k), head, now, Margin(margin))
              else active == None && FailedWith(turns[op], RecordingStorageFailed)
    {
      hide Consistent, Later, Timely, Observes, HasUnit, IdsBelow, RefreshAll, Heads, Due, Waiting, Within, PlayStopped, Roster, Timed, Kept;
      Known(op);
      var t := turns[op];
      PlayStoppedKeeps(t, k);
      var chunks := Stopped(t.chunks, k);
      StopChanges(t, k);
      var units := RefreshUnits(t.units, chunks, false);
      var p := t.(chunks := chunks, units := units);
      if !recorded {
        FailLocked(op, p, RecordingStorageFailed);
        return;
      }
      var waiting, deadline := NextPlaybackDeadline(p.chunks, now, margin);
      ghost var next :| Scheduled(p.chunks, now, margin, next, waiting, deadline);
      StopFits(t, k, head, since, next, now, Margin(margin), nextId);
      PutAudio(op, p.(chunks := waiting, deadline := deadline), next, if head == Some(k) then now else since);
    }

    /** An observation of playback. It only counts while the turn is live, once, and in order: audio starts while
        the turn synthesizes or plays, and stops after it started. */
    method Playback(op: nat, k: nat, phase: Phase, recorded: bool) returns (ok: bool)
      requires Valid()
      modifies this`turns, this`active, this`head, this`since
      ensures Valid() && OnlyTurn(old(turns), turns, op) && Kept(old(turns), turns)
      ensures ok <==> op in old(turns) && (Live(old(turns)[op]) ==> Observable(old(turns)[op], k, phase, recorded))
      ensures !(op in old(turns) && Live(old(turns)[op])) ==> turns == old(turns) && active == old(active)
      ensures old(head).Some? && head.Some? && active == old(active) ==> old(head).value <= head.value
      ensures active == old(active) ==> since == old(since) || (since == now && old(head) == Some(k) && phase == PhaseStopped)
      ensures op in old(turns) && Live(old(turns)[op]) ==>
                if !Counts(old(turns)[op], k, phase) then turns == old(turns) && active == old(active)
                else if phase == PhaseFailed then FailedWith(turns[op], PlaybackFailed)
                else if !recorded then FailedWith(turns[op], RecordingStorageFailed)
                else
                  && k in turns[op].chunks && turns[op].chunks[k].started && (phase == PhaseStopped ==> turns[op].chunks[k].stopped)
                  && (phase == PhaseStarted ==> turns[op].chunks[k].startedAt == now)
                  && (|| Live(turns[op]) || StorageFailed(turns[op])
                      || turns[op].state == (if old(turns)[op].generation == Some(true) then Completed else Incomplete))
    {
      hide Consistent, Later, Timely, Kept, Roster, Timed;
      KeptStill(turns);
      if op !in turns {
        return false;
      }
      if Terminal(turns[op].state) {
        return true;
      }
      if k !in turns[op].chunks {
        return false;
      }
      Known(op);
      match phase {
        case PhaseStarted =>
          if turns[op].chunks[k].started {
            return true;
          }
          if turns[op].state != Synthesizing && turns[op].state != Playing {
            return false;
          }
          StartPlaying(op, k, recorded);
        case PhaseStopped =>
          if turns[op].chunks[k].stopped {
            return true;
          }
          if !turns[op].chunks[k].started {
            return false;
          }
          StopPlaying(op, k, recorded);
        case PhaseFailed =>
          var _ := Fail(op, PlaybackFailed);
          return true;
      }
      ok := recorded;
      if ok {
        ghost var played := turns;
        CompleteIfPlayed(op);
        KeptOn(old(turns), played, turns);
      }
    }

    /** The timer of the live turn fires, which it only does when the player is late: audio that started is still not
        stopped a margin after its whole duration, or audio has not started a margin after it became the next to play.
        A turn whose audio starts and stops in time is never failed by it. */
    method TimerFires()
      requires Valid() && active.Some? && turns[active.value].deadline.Some? && turns[active.value].deadline.value <= now
      modifies this`turns, this`active
      ensures Valid() && turns.Keys == old(turns).Keys && Kept(old(turns), turns)
      ensures active == None && FailedWith(turns[old(active).value], PlaybackTimeout)
      ensures old(head).Some? && old(head).value in old(turns)[old(active).value].chunks
              && Late(old(turns)[old(active).value].chunks[old(head).value], old(since), now, Margin(margin))
    {
      TimerIff();
      hide Consistent, Later, Timely;
      Known(active.value);
      var _ := Fail(active.value, PlaybackTimeout);
    }

    /** The timer is due exactly when the player is late. */
    lemma TimerIff()
      requires Valid() && active.Some?
      ensures head.Some? ==> head.value in turns[active.value].chunks
      ensures turns[active.value].deadline.Some? && turns[active.value].deadline.value <= now <==>
              head.Some? && Late(turns[active.value].chunks[head.value], since, now, Margin(margin))
    {
      hide Consistent;
      if head.Some? {
        HeadHasTime(turns[active.value].chunks, turns[active.value].deadline, head.value, since, now, Margin(margin));
      }
    }

    /** Time passes; the timer of the live turn fires before time passes beyond its deadline. */
    method Wait(d: nat)
      requires Valid()
      requires active.Some? && turns[active.value].deadline.Some? && d > 0 ==> now + d <= turns[active.value].deadline.value
      modifies this`now
      ensures Valid() && now == old(now) + d
    {
      hide Consistent, Timely;
      if active.Some? {
        WaitedTimely(turns[active.value].chunks, turns[active.value].deadline, head, since, now, now + d, Margin(margin));
      }
      now := now + d;
    }

    /** Every piece of audio whose turn it is stops, or its turn is over, within two margins and its duration. */
    lemma HeadBounded()
      requires Valid() && active.Some? && head.Some?
      ensures head.value in turns[active.value].chunks && !turns[active.value].chunks[head.value].stopped
      ensures now <= since + 2 * Margin(margin) + turns[active.value].chunks[head.value].duration
    {
      hide Consistent;
      HeadIsBounded(turns[active.value].chunks, turns[active.value].deadline, head.value, since, now, Margin(margin));
    }

    /** The user speaks over the answer: what was heard of it is recorded, and the turn is canceled. */
    method Interrupt(op: nat, r: Request, revision: nat, playback: seq<Observation>) returns (ok: bool)
      requires Valid()
      modifies this`turns, this`active
      ensures Valid() && OnlyTurn(old(turns), turns, op) && Kept(old(turns), turns)
      ensures ok <==>
              && op in old(turns) && old(turns)[op].request.session == r.session && old(turns)[op].revision == revision
              && old(turns)[op].request.voiceSession == r.voiceSession && old(turns)[op].request.voiceEpoch == r.voiceEpoch
              && ValidVoice(old(turns)[op].request, voice)
              && |playback| <= 64 && ProperObservations(old(turns)[op].chunks, playback)
      ensures !ok ==> turns == old(turns) && active == old(active)
      ensures ok && !Live(old(turns)[op]) ==> turns == old(turns)
      ensures ok && Live(old(turns)[op]) ==>
                && active == None && (turns[op].state == Canceled || StorageFailed(turns[op]))
                && turns[op].chunks.Keys == old(turns)[op].chunks.Keys
                && (forall j :: 0 <= j < |playback| ==>
                      turns[op].chunks[playback[j].sequence] == Heard(old(turns)[op].chunks[playback[j].sequence], playback[j].completed))
                && (forall k :: k in turns[op].chunks && (forall j :: 0 <= j < |playback| ==> playback[j].sequence != k) ==>
                      turns[op].chunks[k] == old(turns)[op].chunks[k])
    {
      hide Consistent, Later, Timely, Observes, ChunksLater, Observed, HasUnit;
      KeptStill(turns);
      if op !in turns || r.session != turns[op].request.session || revision != turns[op].revision
         || r.voiceSession != turns[op].request.voiceSession || r.voiceEpoch != turns[op].request.voiceEpoch
         || !ValidVoice(turns[op].request, voice) || |playback| > 64 {
        return false;
      }
      var proper := CheckObservations(turns[op].chunks, playback);
      if !proper {
        return false;
      }
      Known(op);
      if Live(turns[op]) {
        ConsistentObserved(turns[op]);
        NoneInterrupted(turns[op]);
        var chunks := ApplyObservations(turns[op].chunks, playback);
        CancelWith(op, chunks);
      }
      return true;
    }

    /** Cancels a live turn with what was last observed of its audio. */
    method CancelWith(op: nat, chunks: map<nat, Chunk>)
      requires Valid() && op in turns && Live(turns[op])
      requires chunks.Keys == turns[op].chunks.Keys && ChunksLater(turns[op].chunks, chunks) && Observed(chunks)
      modifies this`turns, this`active
      ensures Valid() && OnlyTurn(old(turns), turns, op) && Kept(old(turns), turns)
      ensures active == None && (turns[op].state == Canceled || StorageFailed(turns[op])) && turns[op].chunks == chunks
    {
      hide Consistent, Later, Timely, Observes, ChunksLater, Observed, HasUnit, Finish;
      Known(op);
      CancelTurn(op, chunks);
    }

    /** An approved text was cut off: the given piece of audio was heard in part, unless it had already ended. */
    method ObserveCandidateStop(op: nat, k: nat) returns (ok: bool)
      requires Valid()
      modifies this`turns, this`active
      ensures Valid() && OnlyTurn(old(turns), turns, op) && Kept(old(turns), turns)
      ensures ok <==> op in old(turns) && old(turns)[op].approved && k in old(turns)[op].chunks
      ensures !ok || !Live(old(turns)[op]) ==> turns == old(turns) && active == old(active)
      ensures ok && Live(old(turns)[op]) ==>
                && active == None && (turns[op].state == Canceled || StorageFailed(turns[op]))
                && k in turns[op].chunks && turns[op].chunks[k] == Heard(old(turns)[op].chunks[k], false)
    {
      hide Consistent, Later, Timely, Observes, ChunksLater, Observed, HasUnit;
      KeptStill(turns);
      if op !in turns || !turns[op].approved || k !in turns[op].chunks {
        return false;
      }
      Known(op);
      if Live(turns[op]) {
        ConsistentObserved(turns[op]);
        NoneInterrupted(turns[op]);
        HeardLater(turns[op].chunks, turns[op].chunks, k, false);
        StoppedStarted(turns[op], k);
        var c := turns[op].chunks[k];
        if !c.stopped {
          c := c.(started := true, interrupted := true);
        }
        CancelWith(op, turns[op].chunks[k := c]);
      }
      return true;
    }

    /** Forgets a turn that is too old; a live one fails first. */
    method Expire(op: nat)
      requires Valid()
      modifies this`turns, this`active
      ensures Valid() && Kept(old(turns), turns)
      ensures if op in old(turns) && Aged(old(turns)[op], now) then
                op !in turns && turns.Keys == old(turns).Keys - {op}
                && active == (if old(active) == Some(op) then None else old(active))
              else turns == old(turns) && active == old(active)
    {
      hide Consistent, Later, Timely, Kept;
      KeptStill(turns);
      if op in turns && Aged(turns[op], now) {
        Known(op);
        var _ := Fail(op, Expired);
        ghost var failed := turns;
        Known(op);
        Drop(op);
        KeptOn(old(turns), failed, turns);
      }
    }

    /** An incomplete turn goes on with the next revision, from what it had committed. */
    method Continue(op: nat, busy: bool, recorded: bool) returns (ok: bool, prefix: string)
      requires Valid()
      modifies this`turns, this`active, this`head, this`since
      ensures Valid() && Kept(old(turns), turns)
      ensures ok <==>
              && op in old(turns) && !Aged(old(turns)[op], now) && !closed && old(active) == None
              && old(turns)[op].state == Incomplete && old(turns)[op].revision < MAX_REVISION && !busy && recorded
      ensures ok ==> active == Some(op) && turns == old(turns)[op := Continued(old(turns)[op])] && prefix == old(turns)[op].plan
      ensures ok ==> GoesOn(old(turns)[op], turns[op])
      ensures !ok && !(op in old(turns) && Aged(old(turns)[op], now)) ==> turns == old(turns) && active == old(active)
    {
      hide Consistent, Later, Timely, IdsBelow, Kept, Heads, Roster, Timed, Continued;
      ContinuedGoesOn();
      Expire(op);
      if op !in turns || closed || active.Some? || turns[op].state != Incomplete {
        return false, "";
      }
      if busy || turns[op].revision >= MAX_REVISION || !recorded {
        return false, "";
      }
      prefix := turns[op].plan;
      Revive(op);
      return true, prefix;
    }

    method Revive(op: nat)
      requires Valid() && op in turns && !closed && active == None
      requires turns[op].state == Incomplete && turns[op].revision < MAX_REVISION
      modifies this`turns, this`active, this`head, this`since
      ensures Valid() && Kept(old(turns), turns) && active == Some(op)
      ensures turns == old(turns)[op := Continued(old(turns)[op])]
    {
      hide Consistent, Later, Timely, IdsBelow, Kept, Heads;
      Known(op);
      var t := Continued(turns[op]);
      ContinuedKeeps(turns[op]);
      ContinuedTimely(turns[op], now, Margin(margin));
      StepRoster(turns, active, nextId, op, t, nextId);
      turns := turns[op := t];
      active := Some(op);
      head, since := None, now;
    }

    /** Closes the engine: nothing is live any more, and nothing starts or continues. */
    method Close()
      requires Valid()
      modifies this`turns, this`active, this`closed, this`voice
      ensures Valid() && closed && active == None && turns.Keys == old(turns).Keys && Kept(old(turns), turns)
      ensures forall op :: op in turns ==> Terminal(turns[op].state)
      ensures !old(closed) && voice.Some? ==> voice.value.state == Ended && voice.value.canceled
      ensures Wedged(voice) <==> old(closed) && Wedged(old(voice))
    {
      hide Consistent, Later, Timely, Kept, ChunksLater, Observed, Wedged;
      KeptStill(turns);
      if closed {
        AllEnded();
        return;
      }
      if voice.Some? {
        voice := Some(voice.value.(state := Ended, canceled := true));
      }
      WedgedIff(voice);
      CancelAll();
      closed := true;
    }

    method CancelAll()
      requires Valid()
      modifies this`turns, this`active
      ensures Valid() && active == None && turns.Keys == old(turns).Keys && Kept(old(turns), turns)
      ensures forall op :: op in turns ==> Terminal(turns[op].state)
    {
      hide Consistent, Later, Timely, Kept, ChunksLater, Observed, Roster, Timed;
      KeptStill(turns);
      var todo := turns.Keys;
      while todo != {}
        invariant Valid() && turns.Keys == old(turns).Keys && Kept(old(turns), turns) && todo <= turns.Keys
        invariant forall op :: op in turns && op !in todo ==> Terminal(turns[op].state)
        decreases |todo|
      {
        var op :| op in todo;
        ghost var earlier := turns;
        Known(op);
        ConsistentObserved(turns[op]);
        CancelTurn(op, turns[op].chunks);
        KeptOn(old(turns), earlier, turns);
        todo := todo - {op};
      }
      NoneLive();
    }

    /** Starts a voice session when no turn is live and the last session, if any, has ended. */
    method StartVoiceSession(conversation: string) returns (ok: bool)
      requires Valid()
      modifies this`voice, this`nextId
      ensures Valid() && nextId >= old(nextId)
      ensures ok == (!closed && active == None && (old(voice).Some? ==> old(voice).value.state == Ended))
      ensures voice == if ok then Some(VoiceSession(old(nextId), conversation, 1, Starting, false)) else old(voice)
      ensures turns == old(turns) && (Wedged(voice) <==> Wedged(old(voice)))
    {
      hide Consistent, Timely, HasUnit, Wedged;
      WedgedIff(voice);
      WedgedIff(Some(VoiceSession(nextId, conversation, 1, Starting, false)));
      if closed || active.Some? {
        return false;
      }
      if voice.Some? && voice.value.state != Ended {
        return false;
      }
      voice := Some(VoiceSession(nextId, conversation, 1, Starting, false));
      nextId := nextId + 1;
      return true;
    }

    /** Pausing or ending a voice session leaves no turn of it live; resuming it begins its next epoch, so that no
        request of an earlier epoch is valid any more. */
    method ChangeVoiceSession(id: nat, epoch: nat, action: Action) returns (ok: bool)
      requires Valid()
      modifies this`turns, this`active, this`voice
      ensures Valid() && turns.Keys == old(turns).Keys && Kept(old(turns), turns)
      ensures !ok ==> turns == old(turns) && active == old(active) && voice == old(voice)
      ensures ok <==>
              && !closed && old(voice).Some? && old(voice).value.id == id && old(voice).value.epoch == epoch
              && (action == Resume ==> old(voice).value.state == Paused && old(active) == None)
      ensures ok ==> voice.Some?
      ensures Wedged(voice) <==> !ok && Wedged(old(voice))
      ensures ok && action == Resume ==>
                && turns == old(turns)
                && voice.value == old(voice).value.(epoch := epoch + 1, state := Starting, canceled := false)
                && forall r: Request :: ValidVoice(r, voice) && r.voiceSession == Some(id) ==> r.voiceEpoch == epoch + 1
      ensures ok && action != Resume ==>
                && (forall op :: op in turns && Live(turns[op]) ==> turns[op].request.voiceSession != Some(id))
                && active == (if old(active).Some? && old(turns)[old(active).value].request.voiceSession == Some(id) then None
                              else old(active))
                && voice.value == old(voice).value.(canceled := true,
                                    state := if action == End || old(voice).value.state == Ended then Ended else Paused)
    {
      hide Consistent, Later, Timely, ChunksLater, Observed, Kept, Wedged;
      KeptStill(turns);
      if closed || voice.None? || voice.value.id != id || voice.value.epoch != epoch {
        return false;
      }
      if action == Resume {
        if voice.value.state != Paused || active.Some? {
          return false;
        }
        voice := Some(voice.value.(epoch := epoch + 1, state := Starting, canceled := false));
        WedgedIff(voice);
        return true;
      }
      voice := Some(voice.value.(canceled := true));
      if active.Some? && turns[active.value].request.voiceSession == Some(id) {
        Known(active.value);
        ConsistentObserved(turns[active.value]);
        CancelTurn(active.value, turns[active.value].chunks);
      }
      if action == End {
        voice := Some(voice.value.(state := Ended));
      } else if voice.value.state != Ended {
        voice := Some(voice.value.(state := Paused));
      }
      WedgedIff(voice);
      return true;
    }
  }

  /** The player is late with the audio that is next to play since `since`. */
  predicate Late(c: Chunk, since: int, now: int, margin: int) {
    !c.stopped && now >= margin + (if c.started then c.startedAt + c.duration else since)
  }

  /** The next revision starts over, behind the audio and the text of the one before. */
  predicate GoesOn(t: Turn, t': Turn) {
    && t'.revision == t.revision + 1 && t'.state == Thinking && t'.errorCode == NoCode && t'.generation == None
    && !t'.producerDone && !t'.generationDone && t'.work.starts == 1 && t'.work.runs == [] && t'.work.base == t.last
    && t'.plan == t.plan && t'.units == t.units && t'.chunks == t.chunks && t'.last == t.last && t'.bytes == t.bytes
  }

  lemma ContinuedGoesOn()
    ensures forall t :: GoesOn(t, Continued(t))
  {
  }

  lemma ContinuedTimely(t: Turn, now: int, margin: int)
    requires Consistent(t) && t.state == Incomplete
    ensures Timely(Continued(t).chunks, Continued(t).deadline, None, now, now, margin)
  {
  }

  /** What an observation makes of a piece of audio: nothing more once it has ended. */
  function Heard(c: Chunk, completed: bool): (h: Chunk)
    ensures h.started && (h.stopped <==> c.stopped || completed)
    ensures h.interrupted == if c.stopped then c.interrupted else !completed
  {
    if c.stopped then c.(started := true) else c.(started := true, stopped := completed, interrupted := !completed)
  }

  predicate ProperObservations(chunks: map<nat, Chunk>, playback: seq<Observation>) {
    && (forall j :: 0 <= j < |playback| ==> playback[j].sequence in chunks)
    && (forall i, j :: 0 <= i < j < |playback| ==> playback[i].sequence != playback[j].sequence)
  }

  method CheckObservations(chunks: map<nat, Chunk>, playback: seq<Observation>) returns (ok: bool)
    ensures ok <==> ProperObservations(chunks, playback)
  {
    var seen: set<nat> := {};
    for j := 0 to |playback|
      invariant forall k :: k in seen <==> exists i :: 0 <= i < j && playback[i].sequence == k
      invariant ProperObservations(chunks, playback[..j])
    {
      if playback[j].sequence !in chunks || playback[j].sequence in seen {
        return false;
      }
      seen := seen + {playback[j].sequence};
    }
    assert playback[..|playback|] == playback;
    return true;
  }

  lemma NoneInterrupted(t: Turn)
    requires Consistent(t) && Live(t)
    ensures forall k :: k in t.chunks ==> !t.chunks[k].interrupted
  {
  }

  lemma StoppedStarted(t: Turn, k: nat)
    requires Consistent(t) && k in t.chunks
    ensures t.chunks[k].stopped ==> t.chunks[k].started
  {
  }

  lemma HeardLater(chunks: map<nat, Chunk>, some: map<nat, Chunk>, k: nat, completed: bool)
    requires k in chunks && k in some && some[k] == chunks[k] && !chunks[k].interrupted
    requires some.Keys == chunks.Keys && ChunksLater(chunks, some) && Observed(some)
    ensures var heard := some[k := Heard(some[k], completed)];
            heard.Keys == chunks.Keys && ChunksLater(chunks, heard) && Observed(heard)
  {
    assert some[k := Heard(some[k], completed)].Keys == some.Keys + {k};
  }

  /** Applies observations of distinct pieces of audio. */
  method ApplyObservations(chunks: map<nat, Chunk>, playback: seq<Observation>) returns (heard: map<nat, Chunk>)
    requires ProperObservations(chunks, playback) && Observed(chunks) && forall k :: k in chunks ==> !chunks[k].interrupted
    ensures heard.Keys == chunks.Keys && ChunksLater(chunks, heard) && Observed(heard)
    ensures forall j :: 0 <= j < |playback| ==>
              heard[playback[j].sequence] == Heard(chunks[playback[j].sequence], playback[j].completed)
    ensures forall k :: k in chunks && (forall j :: 0 <= j < |playback| ==> playback[j].sequence != k) ==> heard[k] == chunks[k]
  {
    heard := chunks;
    AudioStays(chunks);
    hide ChunksLater, Observed;
    for j := 0 to |playback|
      invariant heard.Keys == chunks.Keys && ChunksLater(chunks, heard) && Observed(heard)
      invariant forall i :: 0 <= i < j ==>
                  heard[playback[i].sequence] == Heard(chunks[playback[i].sequence], playback[i].completed)
      invariant forall k :: k in chunks && (forall i :: 0 <= i < j ==> playback[i].sequence != k) ==> heard[k] == chunks[k]
    {
      var o := playback[j];
      HeardLater(chunks, heard, o.sequence, o.completed);
      var c := heard[o.sequence].(started := true);
      if !c.stopped {
        c := c.(stopped := o.completed, interrupted := !o.completed);
      }
      heard := heard[o.sequence := c];
    }
  }

  /** No request is valid exactly while a session is canceled and neither paused nor ended. */
  lemma WedgedIff(voice: Option<VoiceSession>)
    ensures Wedged(voice) <==> voice.Some? && voice.value.canceled && voice.value.state != Paused && voice.value.state != Ended
  {
    var beside := Request(Typed, "", None, 0);
    if voice.None? || voice.value.state == Paused || voice.value.state == Ended {
      assert ValidVoice(beside, voice);
    } else if !voice.value.canceled {
      assert ValidVoice(Request(Typed, voice.value.conversation, Some(voice.value.id), voice.value.epoch), voice);
    }
  }

  lemma FailsWith(t: Turn, code: Code, recorded: bool, stored: bool)
    requires Live(t) && Within(t.units, t.chunks)
    ensures FailedWith(Finish(t, Failed, code, recorded, stored), code)
    ensures Finish(t, Failed, code, recorded, stored).generation == t.generation
  {
    hide RefreshAll;
  }

  lemma FinishedAs(t: Turn, state: State, code: Code, recorded: bool, stored: bool)
    requires Live(t) && Within(t.units, t.chunks) && ((state == Completed && MayComplete(t)) || state == Incomplete)
    ensures var t' := Finish(t, state, code, recorded, stored);
            (t'.state == state || StorageFailed(t')) && t'.chunks == t.chunks
  {
    hide RefreshAll;
  }

  lemma ProducerObserves(t: Turn, t': Turn)
    requires Observes(t, t) && t' == t.(producerDone := true)
    ensures Observes(t, t')
  {
  }

  /** Units of this generation were spoken, and gave no audio. */
  predicate Unheard(t: Turn, g: nat)
    requires g < |t.work.runs|
  {
    !t.work.runs[g].broken && t.work.runs[g].spoken > 0 && t.last == t.work.runs[g].first
  }

  lemma AudioSinceFirst(t: Turn, g: nat)
    requires Consistent(t) && g < |t.work.runs|
    ensures t.work.runs[g].first <= t.last
  {
    assert Books(t, t.work.runs[g]);
  }

  /** A turn whose answer is not complete has one generation, and that is over. */
  lemma CompletionContinues(t: Turn)
    requires Consistent(t) && Live(t) && t.producerDone && t.generationDone
    requires forall k :: k in t.chunks ==> t.chunks[k].stopped
    ensures t.generation != Some(true) ==> MayContinue(t)
  {
  }

  lemma SubmittedClaims(t: Turn)
    requires Consistent(t) && t.state == Recording
    ensures Claims(Submitted(t).work) == Claims(t.work) + 1
    ensures Submitted(t).units == t.units && Submitted(t).chunks == t.chunks && Submitted(t).deadline == t.deadline
  {
    hide Delivers, HasUnit;
  }

  lemma PreparedLeaves(t: Turn)
    ensures Prepared(t).units == t.units && Prepared(t).chunks == t.chunks && Prepared(t).deadline == t.deadline
  {
    hide MayMove;
    var s := Move(t, Transcribing);
    assert s == t.(state := s.state);
  }

  lemma AcceptedLeaves(t: Turn)
    ensures Accepted(t).units == t.units && Accepted(t).chunks == t.chunks && Accepted(t).deadline == t.deadline
  {
  }

  /** Which observations of playback a live turn takes, and which of them change it. */
  predicate Observable(t: Turn, k: nat, phase: Phase, recorded: bool) {
    && k in t.chunks
    && match phase
       case PhaseStarted => t.chunks[k].started || (Counts(t, k, phase) && recorded)
       case PhaseStopped => t.chunks[k].stopped || (Counts(t, k, phase) && recorded)
       case PhaseFailed => true
  }

  predicate Counts(t: Turn, k: nat, phase: Phase) {
    && k in t.chunks
    && match phase
       case PhaseStarted => !t.chunks[k].started && (t.state == Synthesizing || t.state == Playing)
       case PhaseStopped => !t.chunks[k].stopped && t.chunks[k].started
       case PhaseFailed => true
  }

  lemma StartChanges(t: Turn, k: nat, now: int)
    requires Consistent(t) && k in t.chunks && (t.state == Synthesizing || t.state == Playing) && Within(t.units, t.chunks)
    ensures Within(t.units, Started(t.chunks, k, now))
    ensures PlayStarted(t, k, now)
            == t.(state := Playing, chunks := Started(t.chunks, k, now), units := RefreshAll(t.units, Started(t.chunks, k, now), false))
  {
    PlayStartedProgresses(t, k, now);
  }

  lemma StartFits(t: Turn, k: nat, head: Option<nat>, since: int, next: Option<nat>, now: int, margin: int, nextId: nat)
    requires Consistent(t) && k in t.chunks && !t.chunks[k].started && (t.state == Synthesizing || t.state == Playing)
    requires Timely(t.chunks, t.deadline, head, since, now, margin) && margin > 0 && IdsBelow(t.units, nextId)
    requires Heads(Started(t.chunks, k, now), next) && Within(t.units, t.chunks)
    ensures next == head && Heads(PlayStarted(t, k, now).chunks, next)
    ensures var r := Rescheduled(PlayStarted(t, k, now), next, now, margin);
            && Consistent(r) && Live(r) && Later(t, r) && IdsBelow(r.units, nextId) && r.state == Playing
            && r.chunks.Keys == t.chunks.Keys && r.chunks[k].started && r.chunks[k].startedAt == now && r.generation == t.generation
            && Timely(r.chunks, r.deadline, next, since, now, margin) && (head != Some(k) ==> r.deadline == t.deadline)
  {
    hide Consistent, Later, Timely, HasUnit, Heads, Due, Observes, RefreshAll, PlayStarted, Within;
    var p := PlayStarted(t, k, now);
    StartChanges(t, k, now);
    PlayStartedKeeps(t, k, now);
    RescheduledKeeps(p, next, now, margin);
    SameKeys(t.chunks, p.chunks, next, now);
    LaterOn(t, p, Rescheduled(p, next, now, margin));
    UnstartedRuns(t, k);
    StartedTimely(t.chunks, t.deadline, head, since, now, margin, k, next);
    RefreshIds(t.units, p.chunks, p.units, nextId);
  }

  lemma SameKeys(chunks: map<nat, Chunk>, chunks': map<nat, Chunk>, next: Option<nat>, now: int)
    requires Heads(chunks', next) && (forall k :: k in chunks <==> k in chunks')
    ensures Waiting(chunks', next, now).Keys == chunks.Keys
  {
  }

  lemma UnstartedRuns(t: Turn, k: nat)
    requires Consistent(t) && k in t.chunks && !t.chunks[k].started
    ensures !t.chunks[k].stopped
  {
  }

  lemma RefreshIds(units: seq<Unit>, chunks: map<nat, Chunk>, units': seq<Unit>, nextId: nat)
    requires Within(units, chunks) && units' == RefreshAll(units, chunks, false) && IdsBelow(units, nextId)
    ensures IdsBelow(units', nextId)
  {
    SameIds(units', units);
    hide HasUnit;
  }

  lemma StopChanges(t: Turn, k: nat)
    requires Consistent(t) && Live(t) && k in t.chunks && t.chunks[k].started && Within(t.units, t.chunks)
    ensures Within(t.units, Stopped(t.chunks, k))
    ensures PlayStopped(t, k) == t.(chunks := Stopped(t.chunks, k), units := RefreshAll(t.units, Stopped(t.chunks, k), false))
  {
    PlayStoppedProgresses(t, k);
  }

  lemma StopFits(t: Turn, k: nat, head: Option<nat>, since: int, next: Option<nat>, now: int, margin: int, nextId: nat)
    requires Consistent(t) && Live(t) && k in t.chunks && t.chunks[k].started && !t.chunks[k].stopped
    requires Timely(t.chunks, t.deadline, head, since, now, margin) && margin > 0 && IdsBelow(t.units, nextId)
    requires Heads(Stopped(t.chunks, k), next) && Within(t.units, t.chunks)
    ensures head.Some? && (next.Some? ==> head.value <= next.value) && Heads(PlayStopped(t, k).chunks, next)
    ensures var r := Rescheduled(PlayStopped(t, k), next, now, margin);
            && Consistent(r) && Live(r) && Later(t, r) && IdsBelow(r.units, nextId)
            && r.chunks.Keys == t.chunks.Keys && r.chunks[k].started && r.chunks[k].stopped && r.generation == t.generation
            && Timely(r.chunks, r.deadline, next, if head == Some(k) then now else since, now, margin)
            && (head != Some(k) ==> next == head && r.deadline == t.deadline)
  {
    hide Consistent, Later, Timely, HasUnit, Heads, Due, Observes, RefreshAll, PlayStopped, Within;
    var p := PlayStopped(t, k);
    StopChanges(t, k);
    PlayStoppedKeeps(t, k);
    RescheduledKeeps(p, next, now, margin);
    SameKeys(t.chunks, p.chunks, next, now);
    LaterOn(t, p, Rescheduled(p, next, now, margin));
    StoppedTimely(t.chunks, t.deadline, head, since, now, margin, k, next);
    RefreshIds(t.units, p.chunks, p.units, nextId);
  }

  /** Audio of a unit that nothing was observed of. */
  predicate NewAudio(c: Chunk, id: nat, duration: nat) {
    c.unit == id && c.duration == duration && !c.started && !c.stopped && !c.interrupted
  }

  /** What new audio does to a live turn. */
  lemma EmitFits(t: Turn, g: nat, i: nat, duration: nat, size: nat, head: Option<nat>, since: int, next: Option<nat>, now: int, margin: int, nextId: nat)
    requires Consistent(t) && Live(t) && i < |t.units| && !t.units[i].sealed && Speaking(t, g, t.units[i].id)
    requires t.last < MAX_CHUNKS && t.bytes + size <= MAX_AUDIO_BYTES && margin > 0 && IdsBelow(t.units, nextId)
    requires Timely(t.chunks, t.deadline, head, since, now, margin)
    requires Heads(Audio(t, i, duration, size).chunks, next)
    ensures head.Some? ==> next == head
    ensures var r := Rescheduled(Audio(t, i, duration, size), next, now, margin);
            && Consistent(r) && Live(r) && Later(t, r) && IdsBelow(r.units, nextId)
            && Timely(r.chunks, r.deadline, next, if head.Some? then since else now, now, margin)
            && t.last + 1 in r.chunks && NewAudio(r.chunks[t.last + 1], t.units[i].id, duration) && r.bytes == t.bytes + size
            && (head.Some? ==> r.deadline == t.deadline)
  {
    hide Consistent, Later, Timely, HasUnit, Heads, Due;
    var a := Audio(t, i, duration, size);
    AudioKeeps(t, g, i, duration, size);
    RescheduledKeeps(a, next, now, margin);
    LaterOn(t, a, Rescheduled(a, next, now, margin));
    NumberedBelow(t);
    QueuedTimely(t.chunks, t.deadline, head, since, now, margin, t.last + 1, t.units[i].id, duration, next);
    SameIds(a.units, t.units);
  }

  lemma ConsistentIds(t: Turn)
    requires Consistent(t)
    ensures Within(t.units, t.chunks)
  {
  }

  lemma SealChanges(t: Turn, i: nat, nextId: nat)
    requires Consistent(t) && i < |t.units| && Within(t.units, t.chunks) && IdsBelow(t.units, nextId)
    ensures Within(Sealed(t.units, i), t.chunks)
    ensures SealedUnit(t, i) == t.(units := RefreshAll(Sealed(t.units, i), t.chunks, Over(t.state)))
    ensures IdsBelow(SealedUnit(t, i).units, nextId)
    ensures |SealedUnit(t, i).units| == |t.units| && SealedUnit(t, i).units[i].sealed
    ensures forall j :: 0 <= j < |t.units| && j != i ==> SealedUnit(t, i).units[j].sealed == t.units[j].sealed
  {
    SealDelivers(t.units, t.chunks, t.last, i, Over(t.state));
    hide HasUnit;
  }

  /** The audio is counted by its last number. */
  lemma ChunkCount(t: Turn)
    requires Consistent(t)
    ensures |t.chunks| == t.last && t.last <= MAX_CHUNKS
  {
    CountTo(t.chunks.Keys, t.last);
  }

  lemma {:induction false} CountTo(keys: set<nat>, last: nat)
    requires forall k :: k in keys <==> 1 <= k <= last
    ensures |keys| == last
  {
    if last == 0 {
      assert keys == {};
    } else {
      CountTo(keys - {last}, last - 1);
    }
  }

  /** What waits is what was handed over and not yet taken. */
  lemma FirstWaiting(t: Turn, g: nat)
    requires Consistent(t) && g < |t.work.runs| && t.work.runs[g].queue != []
    ensures var r := t.work.runs[g];
            && |r.taken| < |r.handed| && r.queue == r.handed[|r.taken|..] && r.taken == r.handed[..|r.taken|]
            && r.taken + [r.queue[0]] == r.handed[..|r.taken| + 1] && r.queue[1..] == r.handed[|r.taken| + 1..]
  {
    assert Books(t, t.work.runs[g]);
  }

  lemma CurrentUnit(t: Turn, g: nat, id: nat)
    requires Consistent(t) && Speaking(t, g, id)
    ensures HasUnit(t.units, id)
  {
    assert Books(t, t.work.runs[g]);
  }

  lemma NumberedBelow(t: Turn)
    requires Consistent(t)
    ensures forall k :: k in t.chunks ==> k < t.last + 1
  {
  }

  lemma TextObserves(t: Turn, t': Turn)
    requires Observes(t, t) && t' == t.(plan := t'.plan, generation := t'.generation)
    ensures Observes(t, t')
  {
  }

  lemma IdsNew(units: seq<Unit>, nextId: nat, ids: seq<nat>)
    requires IdsBelow(units, nextId) && forall i :: 0 <= i < |ids| ==> ids[i] == nextId + i
    ensures NewIds(units, ids)
  {
    hide HasUnit;
  }

  lemma ProgressedBy(t: Turn, g: nat, ids: seq<nat>, complete: bool, plan: string, s: Turn)
    requires g < |t.work.runs|
    requires var r := t.work.runs[g];
             s == With(if ids != [] && t.state == Thinking then Move(t, Synthesizing) else t, g,
                       r.(handed := r.handed + ids, queue := if r.broken then [] else r.queue + ids)).(
                    plan := plan, generation := Some(complete), units := RegisterAll(t.units, ids, t.revision))
    ensures s == Progressed(t, g, ids, complete, plan)
  {
    hide Move, With, RegisterAll;
  }

  lemma ProgressedFits(t: Turn, g: nat, ids: seq<nat>, complete: bool, plan: string, nextId: nat)
    requires g < |t.work.runs| && Consistent(t) && NewIds(t.units, ids) && IdsBelow(t.units, nextId)
    requires forall i :: 0 <= i < |ids| ==> ids[i] == nextId + i
    ensures var t' := Progressed(t, g, ids, complete, plan);
            t'.chunks == t.chunks && t'.deadline == t.deadline && IdsBelow(t'.units, nextId + |ids|)
  {
    hide HasUnit, Delivers, Accounts, Progresses, RegisterAll, Progressed, UnitsLater;
    ProgressedIs(t, g, ids, complete, plan);
    RegisterAllDelivers(t.units, t.chunks, t.last, ids, t.revision);
  }

  lemma OpenedFits(request: Request, approved: bool, now: int, nextId: nat, margin: int)
    requires approved ==> request.input == Replayed
    ensures var t := Opened(request, approved, now);
            Consistent(t) && Live(t) && IdsBelow(t.units, nextId) && Timely(t.chunks, t.deadline, None, now, now, margin)
  {
    OpenedKeeps(request, approved, now);
  }

  lemma KeptOpened(a: map<nat, Turn>, b: map<nat, Turn>, c: map<nat, Turn>, op: nat)
    requires Kept(a, b) && Kept(b, c) && op !in a && c.Keys <= b.Keys + {op}
    ensures Kept(a, c)
  {
    hide Later;
    forall other | other in a && other in c ensures Later(a[other], c[other]) {
      LaterOn(a[other], b[other], c[other]);
    }
  }

  lemma ConsistentObserved(t: Turn)
    requires Consistent(t)
    ensures Observed(t.chunks) && ChunksLater(t.chunks, t.chunks)
  {
    hide Owned, Accurate, Accounts, Progresses;
  }

  lemma SelfObserves(t: Turn)
    requires Live(t) && Observed(t.chunks)
    ensures Observes(t, t)
  {
  }

  lemma GenerationObserves(t: Turn, t': Turn)
    requires Observes(t, t) && t' == t.(generation := t'.generation)
    ensures Observes(t, t')
  {
  }

  lemma CancelObserves(t: Turn, t': Turn)
    requires Live(t) && t' == t.(generation := t'.generation, chunks := t'.chunks, state := Canceling)
    requires t'.chunks.Keys == t.chunks.Keys && ChunksLater(t.chunks, t'.chunks) && Observed(t'.chunks)
    ensures Observes(t, t')
  {
    hide ChunksLater, Observed;
  }

  lemma CancelEnds(t: Turn, recorded: bool, stored: bool)
    requires t.state == Canceling && Within(t.units, t.chunks)
    ensures Finish(t, Canceled, NoCode, recorded, stored).chunks == t.chunks
    ensures Finish(t, Canceled, NoCode, recorded, stored).generation == t.generation
    ensures Finish(t, Canceled, NoCode, recorded, stored).state == Canceled || StorageFailed(Finish(t, Canceled, NoCode, recorded, stored))
  {
  }

  lemma FinishKeepsAll(t: Turn, t': Turn, state: State, code: Code, nextId: nat)
    requires Consistent(t) && Live(t) && Observes(t, t') && code != InvalidCompletionState && IdsBelow(t.units, nextId)
    requires state.Completed? || state.Failed? || state.Incomplete? || (state == Canceled && t'.state == Canceling)
    requires state == Completed ==> MayComplete(t')
    requires state == Incomplete ==> MayContinue(t')
    ensures Within(t'.units, t'.chunks)
    ensures forall recorded, stored :: var t'' := Finish(t', state, code, recorded, stored);
              Consistent(t'') && Later(t, t'') && Terminal(t''.state) && IdsBelow(t''.units, nextId)
  {
    hide Consistent, Later, MayComplete, Observes, Finish;
    FinishKeeps(t, t', state, code, true, true);
    forall recorded, stored
      ensures var t'' := Finish(t', state, code, recorded, stored);
              Consistent(t'') && Later(t, t'') && Terminal(t''.state) && IdsBelow(t''.units, nextId)
    {
      FinishKeeps(t, t', state, code, recorded, stored);
      FinishIds(t, t', state, code, recorded, stored, nextId);
    }
  }

  lemma FinishMoves(t: Turn, state: State, code: Code, recorded: bool, stored: bool, s: State, c: Code)
    requires Within(t.units, t.chunks) && Terminal(state) && (s, c) == Outcome(t, state, code, recorded, stored)
    ensures Finish(t, state, code, recorded, stored)
            == t.(state := if MayMove(t, s) then s else t.state, units := RefreshAll(t.units, t.chunks, true), errorCode := c, deadline := None)
  {
    hide RefreshAll, Refreshed, Within, MayMove, Outcome;
  }

  lemma MayMoveSame(t: Turn, t': Turn, s: State)
    requires t' == t.(units := t'.units, errorCode := t'.errorCode, deadline := t'.deadline)
    ensures MayMove(t', s) == MayMove(t, s)
  {
  }

  lemma ObservesLive(t: Turn, t': Turn)
    requires Observes(t, t')
    ensures Live(t')
  {
  }

  lemma FinishIds(t: Turn, t': Turn, state: State, code: Code, recorded: bool, stored: bool, nextId: nat)
    requires Observes(t, t') && IdsBelow(t.units, nextId) && Within(t'.units, t'.chunks) && Terminal(state)
    ensures IdsBelow(Finish(t', state, code, recorded, stored).units, nextId)
  {
    SameIds(Finish(t', state, code, recorded, stored).units, t.units);
    hide HasUnit;
  }
}
