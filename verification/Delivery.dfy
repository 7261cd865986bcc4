/** What was spoken of an answer: speech units, the audio of each, and what was observed of its playback. */
module Delivery {
  import opened Options
  import opened Playback

  datatype UnitState = Unobserved | Audible | Finished | Broken

  /** A unit of speech: sealed once its synthesis has succeeded; `sequences` numbers its pieces of audio. */
  datatype Unit = Unit(id: nat, revision: nat, state: UnitState, sequences: seq<nat>, sealed: bool, started: bool)

  /** The whole unit was synthesized, and every piece of it was heard to its natural end. */
  predicate Played(u: Unit, chunks: map<nat, Chunk>)
    requires forall k :: k in u.sequences ==> k in chunks
  {
    u.sealed && u.sequences != [] && forall k :: k in u.sequences ==> chunks[k].stopped && !chunks[k].interrupted
  }

  predicate SomeStarted(u: Unit, chunks: map<nat, Chunk>)
    requires forall k :: k in u.sequences ==> k in chunks
  {
    exists k :: k in u.sequences && chunks[k].started
  }

  predicate SomeInterrupted(u: Unit, chunks: map<nat, Chunk>)
    requires forall k :: k in u.sequences ==> k in chunks
  {
    exists k :: k in u.sequences && chunks[k].interrupted
  }

  function Refresh(u: Unit, chunks: map<nat, Chunk>, over: bool): Unit
    requires forall k :: k in u.sequences ==> k in chunks
  {
    u.(started := SomeStarted(u, chunks),
       state := if Played(u, chunks) then Finished
                else if SomeInterrupted(u, chunks) then Broken
                else if SomeStarted(u, chunks) && !over then Audible
                else Unobserved)
  }

  ghost predicate Within(units: seq<Unit>, chunks: map<nat, Chunk>) {
    forall i, k :: 0 <= i < |units| && k in units[i].sequences ==> k in chunks
  }

  ghost predicate Refreshed(units: seq<Unit>, chunks: map<nat, Chunk>, over: bool, units': seq<Unit>) {
    && |units'| == |units|
    && forall i :: 0 <= i < |units| ==>
         (forall k :: k in units[i].sequences ==> k in chunks) && units'[i] == Refresh(units[i], chunks, over)
  }

  /** Every unit, observed again; `over` says that the turn has ended or is being canceled. */
  ghost function RefreshAll(units: seq<Unit>, chunks: map<nat, Chunk>, over: bool): (units': seq<Unit>)
    requires Within(units, chunks)
    ensures Refreshed(units, chunks, over, units')
  {
    seq(|units|, i requires 0 <= i < |units| => Refresh(units[i], chunks, over))
  }

  /** How a unit reads, from its own audio: completed, interrupted, audible or not heard. */
  predicate ReadsOf(u: Unit, chunks: map<nat, Chunk>, over: bool, u': Unit)
    requires forall k :: k in u.sequences ==> k in chunks
  {
    var ended := u.sealed && u.sequences != [] && forall k :: k in u.sequences ==> chunks[k].stopped && !chunks[k].interrupted;
    var cut := exists k :: k in u.sequences && chunks[k].interrupted;
    var begun := exists k :: k in u.sequences && chunks[k].started;
    && (u'.state == Finished <==> ended) && (u'.state == Broken <==> !ended && cut)
    && (u'.state == Audible <==> !ended && !cut && begun && !over) && (u'.started <==> begun)
    && u'.id == u.id && u'.revision == u.revision && u'.sequences == u.sequences && u'.sealed == u.sealed
  }

  method RefreshUnits(units: seq<Unit>, chunks: map<nat, Chunk>, over: bool) returns (units': seq<Unit>)
    requires Within(units, chunks)
    ensures units' == RefreshAll(units, chunks, over)
    ensures |units'| == |units| && forall i :: 0 <= i < |units| ==> ReadsOf(units[i], chunks, over, units'[i])
  {
    units' := [];
    for i := 0 to |units|
      invariant |units'| == i
      invariant forall j :: 0 <= j < i ==> units'[j] == Refresh(units[j], chunks, over)
    {
      var u := RefreshUnit(units[i], chunks, over);
      units' := units' + [u];
    }
  }

  method RefreshUnit(u: Unit, chunks: map<nat, Chunk>, over: bool) returns (u': Unit)
    requires forall k :: k in u.sequences ==> k in chunks
    ensures u' == Refresh(u, chunks, over)
  {
    var started, interrupted, complete := false, false, u.sealed && |u.sequences| > 0;
    for j := 0 to |u.sequences|
      invariant started <==> exists m :: 0 <= m < j && chunks[u.sequences[m]].started
      invariant interrupted <==> exists m :: 0 <= m < j && chunks[u.sequences[m]].interrupted
      invariant complete <==> u.sealed && |u.sequences| > 0
                              && forall m :: 0 <= m < j ==> chunks[u.sequences[m]].stopped && !chunks[u.sequences[m]].interrupted
    {
      var c := chunks[u.sequences[j]];
      started := started || c.started;
      interrupted := interrupted || c.interrupted;
      complete := complete && c.stopped && !c.interrupted;
    }
    u' := u.(state := Unobserved, started := started);
    if complete {
      u' := u'.(state := Finished);
    } else if interrupted {
      u' := u'.(state := Broken);
    } else if started && !over {
      u' := u'.(state := Audible);
    }
  }

  ghost predicate Home(units: seq<Unit>, k: nat) {
    exists i :: 0 <= i < |units| && k in units[i].sequences
  }

  /** The audio is numbered 1 to `last`, and each piece belongs to one unit, in order. */
  ghost predicate Owned(units: seq<Unit>, chunks: map<nat, Chunk>, last: nat) {
    && (forall k :: k in chunks <==> 1 <= k <= last)
    && (forall i, j :: 0 <= i < j < |units| ==> units[i].id != units[j].id)
    && (forall i, k :: 0 <= i < |units| && k in units[i].sequences ==> k in chunks && chunks[k].unit == units[i].id)
    && (forall k :: k in chunks ==> Home(units, k))
    && (forall i :: 0 <= i < |units| ==> InOrder(units[i].sequences))
  }

  ghost predicate InOrder(sequences: seq<nat>) {
    forall a, b :: 0 <= a < b < |sequences| ==> sequences[a] < sequences[b]
  }

  ghost predicate Observed(chunks: map<nat, Chunk>) {
    forall k :: k in chunks ==>
      && (chunks[k].stopped || chunks[k].interrupted ==> chunks[k].started)
      && !(chunks[k].stopped && chunks[k].interrupted)
  }

  /** A unit reads completed exactly when it was played to its end, interrupted exactly when a piece of an
      unfinished unit was, and started exactly when some piece was. */
  ghost predicate AccurateUnit(u: Unit, chunks: map<nat, Chunk>) {
    && (forall k :: k in u.sequences ==> k in chunks)
    && (u.state == Finished <==> Played(u, chunks))
    && (u.state == Broken <==> !Played(u, chunks) && SomeInterrupted(u, chunks))
    && (u.started <==> SomeStarted(u, chunks))
  }

  ghost predicate Accurate(units: seq<Unit>, chunks: map<nat, Chunk>) {
    forall i :: 0 <= i < |units| ==> AccurateUnit(units[i], chunks)
  }

  ghost predicate Delivers(units: seq<Unit>, chunks: map<nat, Chunk>, last: nat) {
    Owned(units, chunks, last) && Observed(chunks) && Accurate(units, chunks)
  }

  /** Every piece of audio belongs to exactly one unit. */
  lemma OwnerUnique(units: seq<Unit>, chunks: map<nat, Chunk>, last: nat, k: nat)
    requires Owned(units, chunks, last) && 1 <= k <= last
    ensures exists i :: 0 <= i < |units| && k in units[i].sequences && forall j :: 0 <= j < |units| && k in units[j].sequences ==> j == i
  {
    assert k in chunks && Home(units, k);
    var i :| 0 <= i < |units| && k in units[i].sequences;
    assert forall j :: 0 <= j < |units| && k in units[j].sequences ==> chunks[k].unit == units[j].id;
  }

  ghost predicate SameAudio(units: seq<Unit>, units': seq<Unit>) {
    && |units'| == |units|
    && forall i :: 0 <= i < |units| ==> units'[i].id == units[i].id && units'[i].sequences == units[i].sequences
  }

  lemma OwnedSame(units: seq<Unit>, chunks: map<nat, Chunk>, last: nat, units': seq<Unit>)
    requires Owned(units, chunks, last) && SameAudio(units, units')
    ensures Owned(units', chunks, last)
  {
    hide InOrder;
    forall k | k in chunks ensures Home(units', k) {
      assert Home(units, k);
      var i :| 0 <= i < |units| && k in units[i].sequences;
      assert k in units'[i].sequences;
    }
  }

  /** What observing again keeps: after any change of what was observed, the units are accurate again. */
  lemma RefreshDelivers(units: seq<Unit>, chunks: map<nat, Chunk>, last: nat, over: bool, units': seq<Unit>)
    requires Owned(units, chunks, last) && Observed(chunks) && Refreshed(units, chunks, over, units')
    ensures Delivers(units', chunks, last)
  {
    OwnedSame(units, chunks, last, units');
    forall i | 0 <= i < |units| ensures AccurateUnit(units'[i], chunks) {
      RefreshAccurate(units[i], chunks, over);
    }
  }

  lemma RefreshAccurate(u: Unit, chunks: map<nat, Chunk>, over: bool)
    requires forall k :: k in u.sequences ==> k in chunks
    ensures AccurateUnit(Refresh(u, chunks, over), chunks)
  {
  }

  function Registered(units: seq<Unit>, id: nat, revision: nat): seq<Unit> {
    units + [Unit(id, revision, Unobserved, [], false, false)]
  }

  lemma RegisterDelivers(units: seq<Unit>, chunks: map<nat, Chunk>, last: nat, id: nat, revision: nat)
    requires Delivers(units, chunks, last) && forall i :: 0 <= i < |units| ==> units[i].id != id
    ensures Delivers(Registered(units, id, revision), chunks, last)
  {
    hide AccurateUnit, Owned, Observed;
    RegisterOwned(units, chunks, last, id, revision);
    NewUnitAccurate(chunks, id, revision);
  }

  lemma RegisterOwned(units: seq<Unit>, chunks: map<nat, Chunk>, last: nat, id: nat, revision: nat)
    requires Owned(units, chunks, last) && forall i :: 0 <= i < |units| ==> units[i].id != id
    ensures Owned(Registered(units, id, revision), chunks, last)
  {
    var units' := Registered(units, id, revision);
    assert forall i :: 0 <= i < |units| ==> units'[i] == units[i];
    NewUnitAccurate(chunks, id, revision);
    hide InOrder;
    forall k | k in chunks ensures Home(units', k) {
      assert Home(units, k);
      var i :| 0 <= i < |units| && k in units[i].sequences;
      assert k in units'[i].sequences;
    }
  }

  lemma NewUnitAccurate(chunks: map<nat, Chunk>, id: nat, revision: nat)
    ensures AccurateUnit(Unit(id, revision, Unobserved, [], false, false), chunks) && InOrder([])
  {
  }

  /** A new piece of audio of the i-th unit. */
  function Appended(units: seq<Unit>, i: nat, k: nat): seq<Unit>
    requires i < |units|
  {
    units[i := units[i].(sequences := units[i].sequences + [k])]
  }

  lemma AppendDelivers(units: seq<Unit>, chunks: map<nat, Chunk>, last: nat, i: nat, duration: nat)
    requires Delivers(units, chunks, last) && i < |units| && !units[i].sealed
    ensures Delivers(Appended(units, i, last + 1), Queued(chunks, last + 1, units[i].id, duration), last + 1)
  {
    AppendOwned(units, chunks, last, i, duration);
    var units', chunks' := Appended(units, i, last + 1), Queued(chunks, last + 1, units[i].id, duration);
    forall j | 0 <= j < |units| ensures AccurateUnit(units'[j], chunks') {
      Claimed(units, chunks, last, j);
      AppendObserves(units[j], chunks, last, units[i].id, duration, units'[j]);
    }
  }

  lemma Claimed(units: seq<Unit>, chunks: map<nat, Chunk>, last: nat, j: nat)
    requires Owned(units, chunks, last) && j < |units|
    ensures forall k :: k in units[j].sequences ==> k in chunks && k <= last
  {
    forall k | k in units[j].sequences ensures k in chunks && k <= last {
      assert k in chunks;
      assert 1 <= k <= last;
    }
  }

  lemma InOrderAppend(sequences: seq<nat>, k: nat)
    requires InOrder(sequences) && forall j :: j in sequences ==> j < k
    ensures InOrder(sequences + [k])
  {
    assert forall a :: 0 <= a < |sequences| ==> sequences[a] in sequences;
  }

  lemma AppendOwned(units: seq<Unit>, chunks: map<nat, Chunk>, last: nat, i: nat, duration: nat)
    requires Owned(units, chunks, last) && i < |units|
    ensures Owned(Appended(units, i, last + 1), Queued(chunks, last + 1, units[i].id, duration), last + 1)
  {
    var units', chunks' := Appended(units, i, last + 1), Queued(chunks, last + 1, units[i].id, duration);
    Claimed(units, chunks, last, i);
    InOrderAppend(units[i].sequences, last + 1);
    hide InOrder;
    forall k ensures k in chunks' <==> 1 <= k <= last + 1 {
      assert k in chunks <==> 1 <= k <= last;
    }
    forall j, k | 0 <= j < |units'| && k in units'[j].sequences ensures k in chunks' && chunks'[k].unit == units'[j].id {
      if j != i {
        Claimed(units, chunks, last, j);
        assert k in units[j].sequences;
      } else if k != last + 1 {
        assert k in units[i].sequences;
      }
    }
    forall k | k in chunks' ensures Home(units', k) {
      if k == last + 1 {
        assert k in units'[i].sequences;
      } else {
        assert Home(units, k);
        var j :| 0 <= j < |units| && k in units[j].sequences;
        assert k in units'[j].sequences;
      }
    }
  }

  lemma AppendObserves(u: Unit, chunks: map<nat, Chunk>, last: nat, id: nat, duration: nat, u': Unit)
    requires AccurateUnit(u, chunks) && forall k :: k in u.sequences ==> k <= last
    requires u' == u || (u' == u.(sequences := u.sequences + [last + 1]) && !u.sealed)
    ensures AccurateUnit(u', Queued(chunks, last + 1, id, duration))
  {
    var chunks' := Queued(chunks, last + 1, id, duration);
    if k :| k in u.sequences && chunks[k].started {
      assert k in u'.sequences && chunks'[k].started;
    }
    if k :| k in u.sequences && chunks[k].interrupted {
      assert k in u'.sequences && chunks'[k].interrupted;
    }
  }

  function Sealed(units: seq<Unit>, i: nat): seq<Unit>
    requires i < |units|
  {
    units[i := units[i].(sealed := true)]
  }

  ghost predicate SameFlags(chunks: map<nat, Chunk>, chunks': map<nat, Chunk>) {
    && chunks'.Keys == chunks.Keys
    && forall k :: k in chunks ==>
         chunks'[k] == chunks[k].(waitingAt := chunks'[k].waitingAt)
  }

  lemma SameFlagsDeliver(units: seq<Unit>, chunks: map<nat, Chunk>, last: nat, chunks': map<nat, Chunk>)
    requires Delivers(units, chunks, last) && SameFlags(chunks, chunks')
    ensures Delivers(units, chunks', last)
  {
    hide InOrder, Home;
    forall i | 0 <= i < |units| ensures AccurateUnit(units[i], chunks') {
      assert AccurateUnit(units[i], chunks);
    }
  }

  /** What was observed of audio only grows, and a natural end stays one. */
  ghost predicate ChunksLater(chunks: map<nat, Chunk>, chunks': map<nat, Chunk>) {
    forall k :: k in chunks ==>
      && k in chunks' && chunks'[k].unit == chunks[k].unit && chunks'[k].duration == chunks[k].duration
      && (chunks[k].started ==> chunks'[k].started)
      && (chunks[k].stopped ==> chunks'[k].stopped)
      && (chunks[k].interrupted ==> chunks'[k].interrupted)
      && (chunks[k].stopped ==> chunks'[k].interrupted == chunks[k].interrupted)
  }

  /** Units are only added, a sealed unit gets no more audio, and a completed unit stays completed. */
  ghost predicate UnitsLater(units: seq<Unit>, units': seq<Unit>) {
    && |units| <= |units'|
    && forall i :: 0 <= i < |units| ==>
         && units'[i].id == units[i].id && units'[i].revision == units[i].revision
         && units[i].sequences <= units'[i].sequences
         && (units[i].sealed ==> units'[i].sealed && units'[i].sequences == units[i].sequences)
         && (units[i].state == Finished ==> units'[i].state == Finished)
  }

  /** The last of these follows from the rest, for units that are accurate before and after. */
  lemma CompletedStays(units: seq<Unit>, chunks: map<nat, Chunk>, units': seq<Unit>, chunks': map<nat, Chunk>)
    requires Accurate(units, chunks) && Accurate(units', chunks') && ChunksLater(chunks, chunks')
    requires |units| <= |units'|
    requires forall i :: 0 <= i < |units| ==>
               && units'[i].id == units[i].id && units'[i].revision == units[i].revision
               && units[i].sequences <= units'[i].sequences
               && (units[i].sealed ==> units'[i].sealed && units'[i].sequences == units[i].sequences)
    ensures UnitsLater(units, units')
  {
  }
}
