/** Streaming recognition: which updates of a session are accepted, and which are shown. */
module Asr {
  import opened Runes
  import opened Options
  import Wav

  const MAX_REVISIONS := 2048
  const MAX_TRANSCRIPT_BYTES := 0x4000
  const MAX_CHUNK_BYTES := 0x10000
  const MAX_PCM_BYTES := 0x800000

  datatype Kind = Activity | NoSpeech | Partial | Stable | Final | Failure | Timeout | Canceled | Unknown

  datatype Measure = Measure(audioMs: int, lastSpeechMs: int, speechMs: int, hasSpeech: bool, proper: bool)

  /** `proper` says that identifiers and encodings are well formed, and the diagnostic, if any, in its range. */
  datatype Update = Update(
    segment: nat,
    revision: int,
    kind: Kind,
    transcript: string,
    stablePrefix: string,
    provider: string,
    model: string,
    monotonicMs: int,
    errorCode: string,
    activity: Option<Measure>,
    diagnostic: Option<int>,
    proper: bool)

  /** What the session has measured so far. */
  datatype Tally = Tally(provider: string, model: string, audioMs: int, speechMs: int, lastSpeechMs: int, samples: nat, clipped: nat)

  predicate Textual(u: Update) {
    u.kind == Partial || u.kind == Stable || u.kind == Final
  }

  predicate Terminates(u: Update) {
    u.kind == Failure || u.kind == Timeout || u.kind == Canceled
  }

  ghost predicate Rising(updates: seq<Update>) {
    forall i, j :: 0 <= i < j < |updates| ==> updates[i].revision < updates[j].revision
  }

  /** Each stable prefix extends the ones before it. */
  ghost predicate Chained(accepted: seq<Update>) {
    forall i, j :: 0 <= i < j < |accepted| && Textual(accepted[i]) && Textual(accepted[j]) ==>
      accepted[i].stablePrefix <= accepted[j].stablePrefix
  }

  ghost predicate Extended(accepted: seq<Update>, prefix: string) {
    forall i :: 0 <= i < |accepted| && Textual(accepted[i]) ==> accepted[i].stablePrefix <= prefix
  }

  function LastRevision(updates: seq<Update>): int {
    if updates == [] then 0 else updates[|updates| - 1].revision
  }

  /** A slot of the dispatcher holds an accepted update that is newer than all that were shown. */
  ghost predicate Slot(slot: Option<Update>, accepted: seq<Update>, emitted: seq<Update>, activity: bool) {
    slot.Some? ==>
      slot.value in accepted && slot.value.revision > LastRevision(emitted) && (slot.value.kind == Activity <==> activity)
  }

  /** What a session has heard: the newest update it accepted, the text that is settled, the final, and the two
      slots that wait to be shown. */
  datatype Hearing = Hearing(
    live: bool,
    lastRevision: int,
    lastMonotonicMs: int,
    stablePrefix: string,
    speechObserved: bool,
    final: Option<Update>,
    pending: Option<Update>,
    pendingActivity: Option<Update>,
    tally: Tally)

  predicate Speaking(u: Update) {
    u.kind == Activity && u.activity.Some? && u.activity.value.hasSpeech
  }

  ghost predicate Spoken(accepted: seq<Update>) {
    exists i :: 0 <= i < |accepted| && Speaking(accepted[i])
  }

  /** The history of accepted updates. */
  ghost predicate Accepts(h: Hearing, accepted: seq<Update>) {
    && Rising(accepted) && h.lastRevision == LastRevision(accepted) && 0 <= h.lastRevision <= MAX_REVISIONS
    && (forall i :: 0 <= i < |accepted| ==> 0 < accepted[i].revision <= h.lastRevision)
    && Chained(accepted) && (h.speechObserved <==> Spoken(accepted))
    && (h.live && (h.final.None? || h.final.value.kind == Final) ==> Extended(accepted, h.stablePrefix))
    && (h.live && h.final.Some? ==>
          || h.final.value.kind == NoSpeech
          || (h.final.value.kind == Final && h.final.value.transcript == h.stablePrefix && TrimSpace(h.final.value.transcript) != ""))
  }

  /** What is shown comes in order, and the final update keeps its slot until it is shown. */
  ghost predicate Shows(h: Hearing, accepted: seq<Update>, emitted: seq<Update>) {
    && Rising(emitted) && (forall u :: u in emitted ==> u in accepted)
    && Slot(h.pending, accepted, emitted, false) && Slot(h.pendingActivity, accepted, emitted, true)
    && (h.live && h.final.Some? ==> FinalKept(h, accepted, emitted))
  }

  ghost predicate FinalKept(h: Hearing, accepted: seq<Update>, emitted: seq<Update>) {
    && h.final.Some? && h.final.value in accepted && h.final.value.revision == h.lastRevision
    && (h.pending == h.final || (h.pending.None? && h.final.value in emitted))
  }

  predicate MeasureFits(a: Measure, tally: Tally, sampleRate: int)
    requires sampleRate > 0
  {
    && a.proper && 0 <= a.audioMs <= 60000 && 0 <= a.lastSpeechMs <= a.audioMs && 0 <= a.speechMs <= a.audioMs + 32
    && tally.audioMs <= a.audioMs && tally.speechMs <= a.speechMs && tally.lastSpeechMs <= a.lastSpeechMs
    && a.audioMs <= tally.samples * 1000 / sampleRate + 32
  }

  datatype Setting = Setting(segment: nat, sampleRate: int, activityMode: bool, knowsSilence: bool)

  /** The update is well formed and agrees with what was accepted. */
  predicate Agrees(setting: Setting, ended: bool, h: Hearing, u: Update)
    requires setting.sampleRate > 0
  {
    && h.final.None? && u.proper
    && (u.diagnostic.Some? ==> u.provider == "macos-speech" && (u.kind == Failure || u.kind == Final))
    && u.revision <= MAX_REVISIONS && h.lastMonotonicMs <= u.monotonicMs && 0 <= u.monotonicMs
    && Bytes(u.transcript) <= MAX_TRANSCRIPT_BYTES && u.stablePrefix <= u.transcript
    && (h.tally.provider != "" ==> h.tally.provider == u.provider && h.tally.model == u.model)
    && match u.kind
       case Activity =>
         && setting.activityMode && u.activity.Some? && MeasureFits(u.activity.value, h.tally, setting.sampleRate)
         && (h.speechObserved ==> u.activity.value.hasSpeech)
         && u.transcript == "" && u.stablePrefix == "" && u.errorCode == ""
       case NoSpeech =>
         setting.knowsSilence && ended && u.transcript == "" && u.stablePrefix == "" && u.errorCode == "" && u.activity.None?
       case Unknown => false
       case _ =>
         if Terminates(u) then u.transcript == "" && u.stablePrefix == "" && u.activity.None?
         else
           && u.activity.None? && u.errorCode == "" && h.stablePrefix <= u.stablePrefix
           && (u.kind == Final ==> TrimSpace(u.transcript) != "" && u.stablePrefix == u.transcript)
           && (u.kind == Stable ==> u.stablePrefix != "")
  }

  /** The update is newer than all accepted ones, and the turn still listens. */
  predicate Regards(setting: Setting, completed: bool, h: Hearing, u: Update) {
    h.live && !completed && u.segment == setting.segment && u.revision > h.lastRevision
  }

  function Silenced(h: Hearing): Hearing {
    h.(live := false, final := None, pending := None, pendingActivity := None, stablePrefix := "")
  }

  /** What an agreeing update does. */
  function Took(h: Hearing, u: Update): Hearing
    requires u.kind == Activity ==> u.activity.Some?
  {
    var newer := h.(lastRevision := u.revision, lastMonotonicMs := u.monotonicMs,
                    tally := h.tally.(provider := u.provider, model := u.model));
    if u.kind == Activity then
      newer.(tally := newer.tally.(audioMs := u.activity.value.audioMs, speechMs := u.activity.value.speechMs,
                                   lastSpeechMs := u.activity.value.lastSpeechMs),
             speechObserved := h.speechObserved || u.activity.value.hasSpeech, pendingActivity := Some(u))
    else if Terminates(u) then Silenced(newer)
    else newer.(stablePrefix := u.stablePrefix, pending := Some(u),
                final := if u.kind == Final || u.kind == NoSpeech then Some(u) else h.final)
  }

  lemma RisingAppend(accepted: seq<Update>, last: int, u: Update)
    requires Rising(accepted) && last == LastRevision(accepted) && u.revision > last >= 0
    requires forall i :: 0 <= i < |accepted| ==> 0 < accepted[i].revision <= last
    ensures Rising(accepted + [u]) && LastRevision(accepted + [u]) == u.revision
    ensures forall i :: 0 <= i < |accepted + [u]| ==> 0 < (accepted + [u])[i].revision <= u.revision
  {
  }

  lemma SpokenAppend(accepted: seq<Update>, u: Update)
    ensures Spoken(accepted + [u]) <==> Spoken(accepted) || Speaking(u)
  {
    var all := accepted + [u];
    if Spoken(accepted) {
      var i :| 0 <= i < |accepted| && Speaking(accepted[i]);
      assert Speaking(all[i]);
    }
    if Speaking(u) {
      assert Speaking(all[|accepted|]);
    }
  }

  lemma ChainAppend(accepted: seq<Update>, prefix: string, u: Update)
    requires Chained(accepted) && Extended(accepted, prefix) && (Textual(u) ==> prefix <= u.stablePrefix)
    ensures Chained(accepted + [u])
    ensures Extended(accepted + [u], if Textual(u) then u.stablePrefix else prefix)
  {
  }

  lemma SlotAppend(slot: Option<Update>, accepted: seq<Update>, emitted: seq<Update>, activity: bool, u: Update)
    requires Slot(slot, accepted, emitted, activity)
    ensures Slot(slot, accepted + [u], emitted, activity)
  {
  }

  /** Accepting an agreeing update keeps the history in order and settled text settled. */
  lemma TookAccepts(setting: Setting, ended: bool, h: Hearing, accepted: seq<Update>, u: Update)
    requires setting.sampleRate > 0 && Accepts(h, accepted)
    requires Regards(setting, false, h, u) && Agrees(setting, ended, h, u)
    ensures u.kind == Activity ==> u.activity.Some?
    ensures Accepts(Took(h, u), accepted + [u])
  {
    hide MeasureFits, Bytes, TrimSpace, Rising, Chained, Extended, Spoken;
    RisingAppend(accepted, h.lastRevision, u);
    SpokenAppend(accepted, u);
    ChainAppend(accepted, h.stablePrefix, u);
  }

  /** It goes into its slot, and a final waits there from then on. */
  lemma TookShows(setting: Setting, ended: bool, h: Hearing, accepted: seq<Update>, emitted: seq<Update>, u: Update)
    requires setting.sampleRate > 0 && Accepts(h, accepted) && Shows(h, accepted, emitted)
    requires Regards(setting, false, h, u) && Agrees(setting, ended, h, u)
    ensures u.kind == Activity ==> u.activity.Some?
    ensures Shows(Took(h, u), accepted + [u], emitted)
  {
    SlotAppend(h.pending, accepted, emitted, false, u);
    SlotAppend(h.pendingActivity, accepted, emitted, true, u);
    NewSlot(h.lastRevision, accepted, emitted, u);
    hide MeasureFits, Bytes, TrimSpace, Rising, Slot;
  }

  lemma NewSlot(last: int, accepted: seq<Update>, emitted: seq<Update>, u: Update)
    requires u.revision > last >= 0 && (forall i :: 0 <= i < |accepted| ==> accepted[i].revision <= last)
    requires forall e :: e in emitted ==> e in accepted
    ensures Slot(Some(u), accepted + [u], emitted, u.kind == Activity)
    ensures Slot(None, accepted + [u], emitted, false) && Slot(None, accepted + [u], emitted, true)
  {
    if emitted != [] {
      assert emitted[|emitted| - 1] in accepted;
    }
  }

  /** Shows the older of the two slots. */
  function Next(h: Hearing): Option<Update> {
    if h.pendingActivity.Some? && (h.pending.None? || h.pendingActivity.value.revision < h.pending.value.revision) then h.pendingActivity
    else h.pending
  }

  function Shown(h: Hearing): Hearing {
    if Next(h) == h.pendingActivity then h.(pendingActivity := None) else h.(pending := None)
  }

  /** Showing the older slot keeps the order of what is shown, and loses no final. */
  lemma ShownShows(h: Hearing, accepted: seq<Update>, emitted: seq<Update>)
    requires Accepts(h, accepted) && Shows(h, accepted, emitted) && Next(h).Some?
    ensures Shows(Shown(h), accepted, emitted + [Next(h).value]) && Accepts(Shown(h), accepted)
  {
    hide Chained, Extended, Spoken;
    var u := Next(h).value;
    assert h.pending.Some? && h.pendingActivity.Some? ==> h.pending.value.revision != h.pendingActivity.value.revision by {
      if h.pending.Some? && h.pendingActivity.Some? {
        DistinctRevisions(accepted, h.pending.value, h.pendingActivity.value);
      }
    }
    ShownRising(emitted, u);
  }

  lemma DistinctRevisions(accepted: seq<Update>, a: Update, b: Update)
    requires Rising(accepted) && a in accepted && b in accepted && a != b
    ensures a.revision != b.revision
  {
  }

  lemma ShownRising(emitted: seq<Update>, u: Update)
    requires Rising(emitted) && u.revision > LastRevision(emitted)
    ensures Rising(emitted + [u]) && LastRevision(emitted + [u]) == u.revision
  {
  }

  /** A settled text never changes: whatever was stable is a prefix of the final transcript. */
  lemma FinalExtendsAll(h: Hearing, accepted: seq<Update>, i: nat)
    requires Accepts(h, accepted) && h.live && h.final.Some? && h.final.value.kind == Final
    requires i < |accepted| && Textual(accepted[i])
    ensures accepted[i].stablePrefix <= h.final.value.transcript
  {
  }

  datatype Outcome = Ignored | Rejected | Silence | Heard(transcript: string)

  /** More audio, counted. */
  function Counted(h: Hearing, samples: nat, clipped: nat): Hearing {
    h.(tally := h.tally.(samples := h.tally.samples + samples, clipped := h.tally.clipped + clipped))
  }

  class AsrSession {
    const setting: Setting
    var hearing: Hearing
    var ended: bool
    var completed: bool
    var sequence: nat
    var bytes: nat
    ghost var accepted: seq<Update>
    ghost var emitted: seq<Update>

    ghost predicate Valid()
      reads this
    {
      && 8000 <= setting.sampleRate <= 48000
      && Accepts(hearing, accepted) && Shows(hearing, accepted, emitted)
      && bytes <= MAX_PCM_BYTES && bytes <= setting.sampleRate * 2 * 60 && 2 * hearing.tally.samples == bytes
    }

    constructor (setting: Setting)
      requires 8000 <= setting.sampleRate <= 48000
      ensures Valid() && hearing.live && accepted == [] && emitted == [] && bytes == 0 && this.setting == setting
    {
      this.setting := setting;
      hearing := Hearing(true, 0, -1, "", false, None, None, None, Tally("", "", 0, 0, 0, 0, 0));
      ended, completed, sequence, bytes := false, false, 0, 0;
      accepted, emitted := [], [];
    }

    /** The turn has ended: nothing more is accepted or shown. */
    method EndTurn()
      requires Valid()
      modifies this`hearing
      ensures Valid() && hearing == Silenced(old(hearing))
    {
      hearing := hearing.(live := false);
      hearing := hearing.(final := None, pending := None, pendingActivity := None, stablePrefix := "");
    }

    /** An update that is regarded either agrees, and is accepted, or fails the turn. */
    method Receive(u: Update)
      requires Valid()
      modifies this`hearing, this`accepted
      ensures Valid()
      ensures !Regards(setting, completed, old(hearing), u) ==> hearing == old(hearing) && accepted == old(accepted)
      ensures Regards(setting, completed, old(hearing), u) && !Agrees(setting, ended, old(hearing), u) ==>
                hearing == Silenced(old(hearing)) && accepted == old(accepted)
      ensures Regards(setting, completed, old(hearing), u) && Agrees(setting, ended, old(hearing), u) ==>
                && (u.kind == Activity ==> u.activity.Some?)
                && hearing == Took(old(hearing), u) && accepted == old(accepted) + [u]
    {
      hide Accepts, Shows, Agrees;
      if !Regards(setting, completed, hearing, u) {
        return;
      }
      if !Agrees(setting, ended, hearing, u) {
        EndTurn();
        return;
      }
      TookAccepts(setting, ended, hearing, accepted, u);
      TookShows(setting, ended, hearing, accepted, emitted, u);
      var h := hearing.(lastRevision := u.revision, lastMonotonicMs := u.monotonicMs);
      h := h.(tally := h.tally.(provider := u.provider, model := u.model));
      if u.kind == Activity {
        var activity := u.activity.value;
        h := h.(tally := h.tally.(audioMs := activity.audioMs, speechMs := activity.speechMs, lastSpeechMs := activity.lastSpeechMs));
        if activity.hasSpeech && !h.speechObserved {
          h := h.(speechObserved := true);
        }
        h := h.(pendingActivity := Some(u));
      } else {
        h := h.(stablePrefix := u.stablePrefix);
        if u.kind == Final || u.kind == NoSpeech {
          h := h.(final := Some(u));
        }
        if Terminates(u) {
          h := Silenced(h);
        } else {
          h := h.(pending := Some(u));
        }
      }
      hearing, accepted := h, accepted + [u];
    }

    /** Shows one waiting update. */
    method Dispatch() returns (event: Option<Update>)
      requires Valid()
      modifies this`hearing, this`emitted
      ensures Valid()
      ensures event == if old(hearing).live then Next(old(hearing)) else None
      ensures emitted == (if event.Some? then old(emitted) + [event.value] else old(emitted))
      ensures event.Some? ==> event.value.revision > LastRevision(old(emitted)) && hearing == Shown(old(hearing))
      ensures event.None? ==> hearing == old(hearing)
    {
      hide Accepts, Rising;
      if !hearing.live || (hearing.pending.None? && hearing.pendingActivity.None?) {
        return None;
      }
      ShownShows(hearing, accepted, emitted);
      if hearing.pendingActivity.Some? && (hearing.pending.None? || hearing.pendingActivity.value.revision < hearing.pending.value.revision) {
        event := hearing.pendingActivity;
        hearing := hearing.(pendingActivity := None);
      } else {
        event := hearing.pending;
        hearing := hearing.(pending := None);
      }
      emitted := emitted + [event.value];
    }

    /** The next piece of audio: in sequence, of whole samples, and within the limits of the session. */
    predicate Fitting(number: nat, pcm: seq<Wav.Byte>)
      reads this
    {
      && number == sequence + 1 && 0 < |pcm| <= MAX_CHUNK_BYTES && |pcm| % 2 == 0
      && bytes + |pcm| <= MAX_PCM_BYTES && bytes + |pcm| <= setting.sampleRate * 2 * 60
    }

    /** Takes the next piece of audio, which is also counted when the provider does not take it. Once a final is
        there the provider is not asked. Audio that does not fit fails the turn, and so does a failing provider. */
    method Append(number: nat, pcm: seq<Wav.Byte>, taken: bool) returns (ok: bool)
      requires Valid()
      modifies this`hearing, this`sequence, this`bytes
      ensures Valid()
      ensures ok <==> old(hearing).live && !ended && old(Fitting(number, pcm)) && (taken || old(hearing).final.Some?)
      ensures if old(hearing).live && !ended && old(Fitting(number, pcm)) then
                && sequence == number && bytes == old(bytes) + |pcm|
                && var heard := Counted(old(hearing), |pcm| / 2, Clipped(pcm));
                   hearing == if ok then heard else Silenced(heard)
              else
                && sequence == old(sequence) && bytes == old(bytes)
                && hearing == if old(hearing).live && !ended then Silenced(old(hearing)) else old(hearing)
    {
      hide Accepts, Shows;
      if !hearing.live || ended {
        return false;
      }
      if number != sequence + 1 || |pcm| == 0 || |pcm| % 2 != 0 || |pcm| > MAX_CHUNK_BYTES
         || bytes + |pcm| > MAX_PCM_BYTES || bytes + |pcm| > setting.sampleRate * 2 * 60 {
        EndTurn();
        return false;
      }
      sequence, bytes := number, bytes + |pcm|;
      var clipped := CountClipped(pcm);
      TallyKeeps(hearing, Counted(hearing, |pcm| / 2, clipped), accepted, emitted);
      hearing := hearing.(tally := hearing.tally.(samples := hearing.tally.samples + |pcm| / 2,
                                                  clipped := hearing.tally.clipped + clipped));
      if hearing.final.None? && !taken {
        EndTurn();
        return false;
      }
      return true;
    }

    /** Ends the input. Input without any audio fails the turn. */
    method EndInput() returns (ok: bool)
      requires Valid()
      modifies this`hearing, this`ended
      ensures Valid() && ok == (old(hearing).live && !old(ended) && bytes > 0)
      ensures ended == (ok || old(ended))
      ensures hearing == if old(hearing).live && !old(ended) && bytes == 0 then Silenced(old(hearing)) else old(hearing)
    {
      hide Accepts, Shows;
      if !hearing.live || ended {
        return false;
      }
      if bytes == 0 {
        EndTurn();
        return false;
      }
      ended := true;
      return true;
    }

    /** Takes the final of the provider, which may have been published before: both must be the same. What is heard
        then extends every text that was settled on the way. */
    method Finish(reply: Option<Update>) returns (outcome: Outcome)
      requires Valid() && !completed
      modifies this`hearing, this`accepted, this`completed
      ensures Valid() && old(accepted) <= accepted
      ensures outcome.Heard? ==>
                && completed && hearing.live && reply.Some? && hearing.final == reply && reply.value.kind == Final
                && reply.value in accepted && outcome.transcript == reply.value.transcript && TrimSpace(outcome.transcript) != ""
                && Extended(accepted, outcome.transcript)
                && (setting.activityMode ==> Spoken(accepted))
      ensures outcome == Silence ==> completed && reply.Some? && reply.value.kind == NoSpeech && reply.value in accepted
      ensures !outcome.Heard? ==> !hearing.live
    {
      hide Agrees, Took, TrimSpace;
      if reply.None? {
        EndTurn();
        return Ignored;
      }
      Receive(reply.value);
      if !hearing.live {
        return Ignored;
      }
      if hearing.final != reply {
        EndTurn();
        return Rejected;
      }
      if reply.value.kind == Final && setting.activityMode && !hearing.speechObserved {
        EndTurn();
        return Rejected;
      }
      completed := true;
      if reply.value.kind == NoSpeech {
        EndTurn();
        return Silence;
      }
      return Heard(reply.value.transcript);
    }
  }

  /** A sample at the edge of its range. */
  predicate AtEdge(v: int) {
    v >= 32760 || v <= -32760
  }

  function Clipped(pcm: seq<Wav.Byte>): nat {
    if |pcm| < 2 then 0 else Clipped(pcm[..|pcm| - 2]) + (if AtEdge(Wav.Sample(pcm, |pcm| - 2)) then 1 else 0)
  }

  lemma {:induction false} ClippedCounts(pcm: seq<Wav.Byte>)
    requires |pcm| % 2 == 0
    ensures Clipped(pcm)
            == |set k: nat | k < |pcm| / 2 && (Wav.Sample(pcm, 2 * k) >= 32760 || Wav.Sample(pcm, 2 * k) <= -32760)|
  {
    var all := set k: nat | k < |pcm| / 2 && (Wav.Sample(pcm, 2 * k) >= 32760 || Wav.Sample(pcm, 2 * k) <= -32760);
    if |pcm| < 2 {
      assert all == {};
    } else {
      var init, n: nat := pcm[..|pcm| - 2], |pcm| / 2 - 1;
      ClippedCounts(init);
      var some := set k: nat | k < |init| / 2 && (Wav.Sample(init, 2 * k) >= 32760 || Wav.Sample(init, 2 * k) <= -32760);
      assert forall k: nat :: k < |init| / 2 ==> Wav.Sample(init, 2 * k) == Wav.Sample(pcm, 2 * k);
      assert all == some + (if AtEdge(Wav.Sample(pcm, 2 * n)) then {n} else {});
    }
  }

  method CountClipped(pcm: seq<Wav.Byte>) returns (n: nat)
    requires |pcm| % 2 == 0
    ensures n == Clipped(pcm)
    ensures n == |set k: nat | k < |pcm| / 2 && (Wav.Sample(pcm, 2 * k) >= 32760 || Wav.Sample(pcm, 2 * k) <= -32760)|
  {
    ClippedCounts(pcm);
    n := 0;
    var offset := 0;
    while offset < |pcm|
      invariant offset % 2 == 0 && offset <= |pcm| && n == Clipped(pcm[..offset])
    {
      assert pcm[..offset + 2][..offset] == pcm[..offset];
      var sample := Wav.Sample(pcm, offset);
      if sample >= 32760 || sample <= -32760 {
        n := n + 1;
      }
      offset := offset + 2;
    }
    assert pcm[..offset] == pcm;
  }

  lemma TallyKeeps(h: Hearing, h': Hearing, accepted: seq<Update>, emitted: seq<Update>)
    requires h' == h.(tally := h'.tally) && Accepts(h, accepted) && Shows(h, accepted, emitted)
    ensures Accepts(h', accepted) && Shows(h', accepted, emitted)
  {
  }
}
