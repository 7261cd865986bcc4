/** The steps of a turn, and that each keeps the turn consistent and takes nothing back. */
module TurnSteps {
  import opened Options
  import opened Playback
  import opened Delivery
  import opened Turns

  function Opened(request: Request, approved: bool, now: int): Turn {
    Turn(request, approved, now, Recording, 1, "", None, NoCode, false, Deaf, [], map[], 0, 0, false, false, None,
         Work(false, false, approved, 0, 0, []))
  }

  lemma OpenedKeeps(request: Request, approved: bool, now: int)
    requires approved ==> request.input == Replayed
    ensures Consistent(Opened(request, approved, now)) && Live(Opened(request, approved, now))
  {
  }

  /** Only what the invariant does not look at has changed. The text of an approved turn is complete. */
  ghost predicate Untouched(t: Turn, t': Turn) {
    && t' == t.(plan := t'.plan, generation := t'.generation, listening := t'.listening)
    && (t'.generation == t.generation || (t'.generation.Some? && (t.approved ==> t'.generation.value)))
  }

  lemma UntouchedKeeps(t: Turn, t': Turn)
    requires Consistent(t) && Untouched(t, t')
    ensures Consistent(t') && Later(t, t')
  {
    hide Delivers, HasUnit, Speaks;
  }

  /** The input was handed in. */
  function Submitted(t: Turn): Turn {
    Move(t, Transcribing).(work := t.work.(handedIn := true, awaiting := true))
  }

  lemma SubmittedKeeps(t: Turn)
    requires Consistent(t) && t.state == Recording
    ensures Consistent(Submitted(t)) && Later(t, Submitted(t)) && Submitted(t).state == Transcribing
  {
    hide Delivers, HasUnit;
  }

  /** The input was accepted: a generation is asked for, whatever state the turn is in by now. */
  function Accepted(t: Turn): Turn {
    Move(t, Thinking).(work := t.work.(awaiting := false, starts := t.work.starts + 1))
  }

  lemma AcceptedKeeps(t: Turn)
    requires Consistent(t) && Live(t) && t.work.awaiting
    ensures Consistent(Accepted(t)) && Later(t, Accepted(t)) && Generating(Accepted(t))
    ensures Accepted(t).state == if t.state == Transcribing then Thinking else t.state
    ensures Claims(Accepted(t).work) == Claims(t.work)
  {
    hide Delivers, HasUnit;
  }

  /** The second section of an approved text: the turn skips its input, if it can, and a generation is asked for. */
  function Prepared(t: Turn): Turn {
    Move(Move(t, Transcribing), Thinking).(work := t.work.(preparing := false, starts := t.work.starts + 1))
  }

  lemma PreparedKeeps(t: Turn)
    requires Consistent(t) && Live(t) && t.work.preparing
    ensures Consistent(Prepared(t)) && Later(t, Prepared(t)) && Generating(Prepared(t))
    ensures Prepared(t).state == if t.state == Recording || t.state == Transcribing then Thinking else t.state
    ensures Claims(Prepared(t).work) == Claims(t.work) && (Claims(t.work) == 1 <==> t.state == Recording)
  {
    PreparedIs(t);
    PreparedAccounts(t, Prepared(t).state);
    AudioStays(t.chunks);
    hide Delivers, HasUnit, Accounts, Prepared, Speaks, ChunksLater, UnitsLater;
    assert UnitsLater(t.units, t.units) by {
      UnitsStay(t.units);
    }
  }

  lemma PreparedIs(t: Turn)
    requires Live(t) && !t.state.Idle? && t.state != Canceling
    ensures Prepared(t) == t.(state := if t.state == Recording || t.state == Transcribing then Thinking else t.state,
                              work := t.work.(preparing := false, starts := t.work.starts + 1))
  {
    var s := Move(t, Transcribing);
    assert s == t.(state := if t.state == Recording then Transcribing else t.state);
    assert Move(s, Thinking) == t.(state := if s.state == Transcribing then Thinking else t.state);
    hide Move;
  }

  lemma PreparedAccounts(t: Turn, state: State)
    requires Accounts(t) && t.work.preparing
    ensures var t' := t.(state := state, work := t.work.(preparing := false, starts := t.work.starts + 1));
            Accounts(t') && Claims(t'.work) == Claims(t.work)
            && (t.work.awaiting || t.work.handedIn || Claims(t.work) == 1)
  {
    hide HasUnit;
  }

  lemma UnitsStay(units: seq<Unit>)
    ensures UnitsLater(units, units)
  {
  }

  /** A generation that was asked for begins. */
  function Began(t: Turn): Turn
    requires t.work.starts > 0
  {
    t.(work := t.work.(starts := t.work.starts - 1, runs := t.work.runs + [Run(t.last, [], [], [], None, 0, false, false)]))
  }

  lemma BeganKeeps(t: Turn)
    requires Consistent(t) && Live(t) && t.work.starts > 0
    ensures Consistent(Began(t)) && Later(t, Began(t)) && Claims(Began(t).work) == Claims(t.work)
  {
    BeganAccounts(t);
    BeganProgresses(t);
    BeganOrderly(t);
    AudioStays(t.chunks);
    UnitsStay(t.units);
    hide Delivers, Accounts, Progresses, Orderly, RunsLater, UnitsLater, ChunksLater;
  }

  lemma BeganAccounts(t: Turn)
    requires Accounts(t) && t.work.starts > 0
    ensures Accounts(Began(t))
  {
    hide HasUnit;
    var t' := Began(t);
    assert Books(t', Run(t.last, [], [], [], None, 0, false, false));
    forall g | 0 <= g < |t'.work.runs| ensures Books(t', t'.work.runs[g]) {
      assert g < |t.work.runs| ==> Books(t, t.work.runs[g]);
    }
  }

  lemma BeganProgresses(t: Turn)
    requires Progresses(t) && Live(t) && t.work.starts > 0
    ensures Progresses(Began(t))
  {
    var runs := Began(t).work.runs;
    assert forall g :: 0 <= g < |t.work.runs| ==> runs[g] == t.work.runs[g];
    assert forall g :: 0 <= g < |runs| && runs[g].handed != [] ==> g < |t.work.runs|;
  }

  lemma BeganOrderly(t: Turn)
    requires Orderly(t) && t.work.starts > 0
    ensures Orderly(Began(t)) && RunsLater(t.work.runs, Began(t).work.runs)
  {
    forall g | 0 <= g < |t.work.runs| ensures InTurn(t.chunks, Began(t).work.runs[g]) {
      assert InTurn(t.chunks, t.work.runs[g]);
    }
  }

  /** A generation has got on. */
  function With(t: Turn, g: nat, run: Run): Turn
    requires g < |t.work.runs|
  {
    t.(work := t.work.(runs := t.work.runs[g := run]))
  }

  /** A generation that hands over nothing more keeps its order. */
  lemma OrderlyWith(t: Turn, g: nat, r: Run)
    requires Orderly(t) && g < |t.work.runs|
    requires r.handed == t.work.runs[g].handed && t.work.runs[g].taken <= r.taken
    ensures Orderly(With(t, g, r)) && RunsLater(t.work.runs, With(t, g, r).work.runs)
  {
    var runs := With(t, g, r).work.runs;
    assert forall h :: 0 <= h < |runs| ==> runs[h].handed == t.work.runs[h].handed;
    assert forall k :: k in t.work.runs[g].taken ==> k in r.taken;
    assert InTurn(t.chunks, t.work.runs[g]);
    forall h | 0 <= h < |runs| ensures InTurn(t.chunks, runs[h]) {
      assert InTurn(t.chunks, t.work.runs[h]);
    }
  }

  /** Whatever is observed of the audio, its order stays. */
  lemma OrderlySame(t: Turn, t': Turn)
    requires Orderly(t) && t'.work.runs == t.work.runs
    requires t'.chunks.Keys == t.chunks.Keys && ChunksLater(t.chunks, t'.chunks)
    ensures Orderly(t') && RunsLater(t.work.runs, t'.work.runs)
  {
    forall g | 0 <= g < |t.work.runs| ensures InTurn(t'.chunks, t.work.runs[g]) {
      assert InTurn(t.chunks, t.work.runs[g]);
    }
  }

  lemma OrderlyProgressed(t: Turn, g: nat, r: Run, ids: seq<nat>)
    requires Orderly(t) && Accounts(t) && g < |t.work.runs| && NewIds(t.units, ids) && Owned(t.units, t.chunks, t.last)
    requires r.handed == t.work.runs[g].handed + ids && r.taken == t.work.runs[g].taken
    ensures Orderly(With(t, g, r)) && RunsLater(t.work.runs, With(t, g, r).work.runs)
  {
    var runs := With(t, g, r).work.runs;
    forall k | k in t.chunks ensures t.chunks[k].unit !in ids {
      HomeHasUnit(t.units, t.chunks, t.last, k);
    }
    forall h, id | 0 <= h < |t.work.runs| && id in t.work.runs[h].handed ensures id !in ids {
      assert Books(t, t.work.runs[h]);
    }
    forall h | 0 <= h < |runs| ensures InTurn(t.chunks, runs[h]) {
      assert InTurn(t.chunks, t.work.runs[h]);
    }
  }

  lemma HomeHasUnit(units: seq<Unit>, chunks: map<nat, Chunk>, last: nat, k: nat)
    requires Owned(units, chunks, last) && k in chunks
    ensures HasUnit(units, chunks[k].unit)
  {
    assert Home(units, k);
    var i :| 0 <= i < |units| && k in units[i].sequences;
    assert units[i].id == chunks[k].unit;
  }

  /** Units handed to speech in one delivery of the assembler. */
  function RegisterAll(units: seq<Unit>, ids: seq<nat>, revision: nat): seq<Unit> {
    if ids == [] then units
    else Registered(RegisterAll(units, ids[..|ids| - 1], revision), ids[|ids| - 1], revision)
  }

  /** Identifiers that come after all that there are, in order. */
  ghost predicate NewIds(units: seq<Unit>, ids: seq<nat>) {
    Ascending(ids) && forall id: nat, other: nat :: id in ids && HasUnit(units, other) ==> other < id
  }

  lemma {:induction false} RegisterAllDelivers(units: seq<Unit>, chunks: map<nat, Chunk>, last: nat, ids: seq<nat>, revision: nat)
    requires Delivers(units, chunks, last) && NewIds(units, ids)
    ensures Delivers(RegisterAll(units, ids, revision), chunks, last) && UnitsLater(units, RegisterAll(units, ids, revision))
    ensures |RegisterAll(units, ids, revision)| == |units| + |ids|
    ensures forall id :: HasUnit(RegisterAll(units, ids, revision), id) <==> HasUnit(units, id) || id in ids
  {
    if ids == [] {
    } else {
      var init, id := ids[..|ids| - 1], ids[|ids| - 1];
      assert ids == init + [id];
      NewIdsInit(units, ids);
      hide NewIds, Ascending;
      RegisterAllDelivers(units, chunks, last, init, revision);
      var some := RegisterAll(units, init, revision);
      NoUnit(some, id);
      RegisterDelivers(some, chunks, last, id, revision);
      RegisteredHas(some, id, revision);
      assert UnitsLater(some, Registered(some, id, revision));
    }
  }

  lemma NewIdsInit(units: seq<Unit>, ids: seq<nat>)
    requires NewIds(units, ids) && ids != []
    ensures var init, id := ids[..|ids| - 1], ids[|ids| - 1];
            NewIds(units, init) && !HasUnit(units, id) && id !in init
  {
    hide HasUnit;
    var init, id := ids[..|ids| - 1], ids[|ids| - 1];
    assert id in ids && forall other :: other in init ==> other in ids;
  }

  lemma NoUnit(units: seq<Unit>, id: nat)
    requires !HasUnit(units, id)
    ensures forall i :: 0 <= i < |units| ==> units[i].id != id
  {
  }

  lemma RegisteredHas(units: seq<Unit>, id: nat, revision: nat)
    ensures forall other :: HasUnit(Registered(units, id, revision), other) <==> HasUnit(units, other) || other == id
  {
    var units' := Registered(units, id, revision);
    assert units'[|units|].id == id;
    forall other | HasUnit(units, other) ensures HasUnit(units', other) {
      var i :| 0 <= i < |units| && units[i].id == other;
      assert units'[i].id == other;
    }
  }

  function Progressed(t: Turn, g: nat, ids: seq<nat>, complete: bool, plan: string): Turn
    requires g < |t.work.runs|
  {
    var r := t.work.runs[g];
    var speaking := if ids != [] && t.state == Thinking then Move(t, Synthesizing) else t;
    With(speaking, g, r.(handed := r.handed + ids, queue := if r.broken then [] else r.queue + ids)).(
      plan := plan, generation := Some(complete), units := RegisterAll(t.units, ids, t.revision))
  }

  lemma ProgressedKeeps(t: Turn, g: nat, ids: seq<nat>, complete: bool, plan: string)
    requires Consistent(t) && Live(t) && g < |t.work.runs| && !t.work.runs[g].answered && NewIds(t.units, ids)
    requires t.approved ==> complete
    ensures Consistent(Progressed(t, g, ids, complete, plan)) && Later(t, Progressed(t, g, ids, complete, plan))
    ensures Live(Progressed(t, g, ids, complete, plan))
  {
    var t' := Progressed(t, g, ids, complete, plan);
    ProgressedAccounts(t, g, ids, complete, plan);
    ProgressedProgresses(t, g, ids, complete, plan);
    AudioStays(t.chunks);
    ProgressedIs(t, g, ids, complete, plan);
    ProgressedOrderly(t, g, ids, complete, plan);
    hide Delivers, Accounts, Progresses, UnitsLater, ChunksLater, RegisterAll, HasUnit, NewIds, Progressed, Orderly, RunsLater;
  }

  lemma ProgressedIs(t: Turn, g: nat, ids: seq<nat>, complete: bool, plan: string)
    requires g < |t.work.runs|
    ensures var t' := Progressed(t, g, ids, complete, plan);
            && t' == t.(state := t'.state, plan := t'.plan, generation := t'.generation, units := t'.units, work := t'.work)
            && t'.work == t.work.(runs := t.work.runs[g := t'.work.runs[g]])
            && t'.work.runs[g].first == t.work.runs[g].first && t'.units == RegisterAll(t.units, ids, t.revision)
            && (t'.state == t.state || (t.state == Thinking && t'.state == Synthesizing))
  {
    hide RegisterAll;
  }

  lemma AudioStays(chunks: map<nat, Chunk>)
    ensures ChunksLater(chunks, chunks)
  {
  }

  lemma ProgressedProgresses(t: Turn, g: nat, ids: seq<nat>, complete: bool, plan: string)
    requires Progresses(t) && Live(t) && g < |t.work.runs| && !t.work.runs[g].answered && (t.approved ==> complete)
    ensures Progresses(Progressed(t, g, ids, complete, plan))
    ensures Generating(Progressed(t, g, ids, complete, plan))
  {
    var t' := Progressed(t, g, ids, complete, plan);
    ProgressedState(t, g, ids, complete, plan);
    hide RegisterAll, Progressed, Move, Speaks;
    MoreSpeech(t.work, t'.work, g, ids);
    assert !Silent(t);
    hide Silent;
    assert Plays(t');
    hide Plays;
  }

  lemma MoreSpeech(w: Work, w': Work, g: nat, ids: seq<nat>)
    requires |w'.runs| == |w.runs| && g < |w.runs| && w'.runs[g].handed == w.runs[g].handed + ids
    requires forall i :: 0 <= i < |w.runs| && i != g ==> w'.runs[i] == w.runs[i]
    ensures Speaks(w') == (Speaks(w) || ids != [])
  {
    if Speaks(w) {
      var i :| 0 <= i < |w.runs| && w.runs[i].handed != [];
      assert w'.runs[i].handed != [];
    }
    if ids != [] {
      assert w'.runs[g].handed != [];
    }
  }

  lemma ProgressedState(t: Turn, g: nat, ids: seq<nat>, complete: bool, plan: string)
    requires g < |t.work.runs|
    ensures var t' := Progressed(t, g, ids, complete, plan); var r := t'.work.runs[g];
            && t' == t.(state := if ids != [] && t.state == Thinking then Synthesizing else t.state, plan := plan,
                        generation := Some(complete), units := t'.units, work := t.work.(runs := t.work.runs[g := r]))
            && r == t.work.runs[g].(handed := t.work.runs[g].handed + ids, queue := r.queue)
  {
    hide RegisterAll;
  }

  lemma ProgressedOrderly(t: Turn, g: nat, ids: seq<nat>, complete: bool, plan: string)
    requires Consistent(t) && g < |t.work.runs| && NewIds(t.units, ids)
    ensures var t' := Progressed(t, g, ids, complete, plan); Orderly(t') && RunsLater(t.work.runs, t'.work.runs)
  {
    ProgressedState(t, g, ids, complete, plan);
    hide Progressed, Progresses, Accounts, RegisterAll, NewIds;
    OrderlyProgressed(t, g, Progressed(t, g, ids, complete, plan).work.runs[g], ids);
    hide InTurn, Apart;
  }

  lemma ProgressedAccounts(t: Turn, g: nat, ids: seq<nat>, complete: bool, plan: string)
    requires Delivers(t.units, t.chunks, t.last) && Accounts(t) && g < |t.work.runs| && NewIds(t.units, ids)
    ensures var t' := Progressed(t, g, ids, complete, plan);
            Delivers(t'.units, t'.chunks, t'.last) && Accounts(t') && UnitsLater(t.units, t'.units)
  {
    var t' := Progressed(t, g, ids, complete, plan);
    RegisterAllDelivers(t.units, t.chunks, t.last, ids, t.revision);
    ProgressedIs(t, g, ids, complete, plan);
    forall i | 0 <= i < |t'.work.runs| ensures Books(t', t'.work.runs[i]) {
      ProgressedBooks(t, g, ids, complete, plan, i);
    }
    hide Delivers, HasUnit, NewIds, UnitsLater, RegisterAll, Books, Progressed;
  }

  lemma ProgressedBooks(t: Turn, g: nat, ids: seq<nat>, complete: bool, plan: string, i: nat)
    requires Accounts(t) && g < |t.work.runs| && i < |t.work.runs| && NewIds(t.units, ids)
    requires forall id :: HasUnit(RegisterAll(t.units, ids, t.revision), id) <==> HasUnit(t.units, id) || id in ids
    ensures var t' := Progressed(t, g, ids, complete, plan); Books(t', t'.work.runs[i])
  {
    var t', r := Progressed(t, g, ids, complete, plan), t.work.runs[i];
    assert Books(t, r);
    HandedBooks(t, r, t'.units, ids);
    hide HasUnit, RegisterAll, NewIds, Ascending;
  }

  lemma AscendingConcat(a: seq<nat>, b: seq<nat>)
    requires Ascending(a) && Ascending(b) && forall x, y :: x in a && y in b ==> x < y
    ensures Ascending(a + b)
  {
    forall i, j | 0 <= i < j < |a + b| ensures (a + b)[i] < (a + b)[j] {
      assert i < |a| ==> (a + b)[i] in a;
      assert j >= |a| ==> (a + b)[j] in b;
    }
  }

  /** What is handed over joins the end of the queue. */
  lemma HandedBooks(t: Turn, r: Run, units: seq<Unit>, ids: seq<nat>)
    requires Books(t, r) && NewIds(t.units, ids)
    requires forall id :: HasUnit(units, id) <==> HasUnit(t.units, id) || id in ids
    ensures Books(t.(units := units), r)
    ensures Books(t.(units := units), r.(handed := r.handed + ids, queue := if r.broken then [] else r.queue + ids))
  {
    hide HasUnit;
    AscendingConcat(r.handed, ids);
    hide Ascending;
    if !r.broken {
      assert r.taken + (r.queue + ids) == r.handed + ids;
    } else {
      assert r.taken <= r.handed + ids;
    }
  }

  /** The assembler has returned. */
  function Answered(t: Turn, g: nat, complete: bool, plan: string): Turn
    requires g < |t.work.runs|
  {
    With(t, g, t.work.runs[g].(answered := true)).(plan := plan, generation := Some(complete), generationDone := true)
  }

  lemma AnsweredKeeps(t: Turn, g: nat, complete: bool, plan: string)
    requires Consistent(t) && Live(t) && g < |t.work.runs|
    requires t.approved ==> complete && t.work.runs[g].handed != []
    ensures Consistent(Answered(t, g, complete, plan)) && Later(t, Answered(t, g, complete, plan))
  {
    AnsweredAccounts(t, g, complete, plan);
    AnsweredProgresses(t, g, complete, plan);
    OrderlyWith(t, g, t.work.runs[g].(answered := true));
    AudioStays(t.chunks);
    UnitsStay(t.units);
    hide Delivers, Accounts, Progresses, Apart, InTurn, RunsLater, UnitsLater, ChunksLater;
  }

  lemma AnsweredAccounts(t: Turn, g: nat, complete: bool, plan: string)
    requires Accounts(t) && g < |t.work.runs| && (t.approved ==> t.work.runs[g].handed != [])
    ensures Accounts(Answered(t, g, complete, plan))
  {
    hide HasUnit, Ascending;
    var t' := Answered(t, g, complete, plan);
    forall i | 0 <= i < |t'.work.runs| ensures Books(t', t'.work.runs[i]) {
      assert Books(t, t.work.runs[i]);
    }
  }

  lemma AnsweredProgresses(t: Turn, g: nat, complete: bool, plan: string)
    requires Progresses(t) && Live(t) && g < |t.work.runs| && (t.approved ==> complete)
    ensures Progresses(Answered(t, g, complete, plan))
  {
    var runs := Answered(t, g, complete, plan).work.runs;
    assert forall i :: 0 <= i < |runs| ==> runs[i] == t.work.runs[i].(answered := runs[i].answered);
    SameSpeech(t.work, Answered(t, g, complete, plan).work);
    hide Speaks;
  }

  /** Whether something was handed to speech depends on the units handed over alone. */
  lemma SameSpeech(w: Work, w': Work)
    requires |w'.runs| == |w.runs| && forall i :: 0 <= i < |w.runs| ==> w'.runs[i].handed == w.runs[i].handed
    ensures Speaks(w') == Speaks(w)
  {
    if Speaks(w) {
      var i :| 0 <= i < |w.runs| && w.runs[i].handed != [];
      assert w'.runs[i].handed != [];
    }
  }

  /** The speech consumer takes the next unit, has spoken it, or, for typed input, gives up. */
  function TakesUnit(t: Turn, g: nat): Turn
    requires g < |t.work.runs| && t.work.runs[g].queue != []
  {
    var r := t.work.runs[g];
    With(t, g, r.(taken := r.taken + [r.queue[0]], queue := r.queue[1..], current := Some(r.queue[0])))
  }

  function Spoke(t: Turn, g: nat): Turn
    requires g < |t.work.runs|
  {
    With(t, g, t.work.runs[g].(current := None, spoken := t.work.runs[g].spoken + 1))
  }

  function GaveUp(t: Turn, g: nat): Turn
    requires g < |t.work.runs|
  {
    With(t, g, t.work.runs[g].(current := None, queue := [], broken := true))
  }

  lemma SpeechKeeps(t: Turn, g: nat)
    requires Consistent(t) && Live(t) && g < |t.work.runs|
    ensures t.work.runs[g].queue != [] && t.work.runs[g].current.None? ==>
              Consistent(TakesUnit(t, g)) && Later(t, TakesUnit(t, g))
    ensures t.work.runs[g].current.Some? ==> Consistent(Spoke(t, g)) && Later(t, Spoke(t, g))
    ensures t.work.runs[g].current.Some? && t.request.input == Typed ==>
              Consistent(GaveUp(t, g)) && Later(t, GaveUp(t, g))
  {
    hide Later, HasUnit, Delivers, Progresses;
    var r := t.work.runs[g];
    assert Books(t, r);
    SpeechBooks(t, r);
    hide Consistent, Books;
    if r.queue != [] && r.current.None? {
      RunKeeps(t, g, TakesUnit(t, g).work.runs[g]);
    }
    if r.current.Some? {
      RunKeeps(t, g, Spoke(t, g).work.runs[g]);
      if t.request.input == Typed {
        RunKeeps(t, g, GaveUp(t, g).work.runs[g]);
      }
    }
  }

  lemma SpeechBooks(t: Turn, r: Run)
    requires Books(t, r)
    ensures r.queue != [] && r.current.None? ==> Books(t, r.(taken := r.taken + [r.queue[0]], queue := r.queue[1..], current := Some(r.queue[0])))
    ensures r.current.Some? ==> Books(t, r.(current := None, spoken := r.spoken + 1))
    ensures r.current.Some? && t.request.input == Typed ==> Books(t, r.(current := None, queue := [], broken := true))
  {
    hide HasUnit;
  }

  /** A generation whose books are in order may change in what is left to speak. */
  lemma RunKeeps(t: Turn, g: nat, r: Run)
    requires Consistent(t) && Live(t) && g < |t.work.runs| && Books(t, r)
    requires r.first == t.work.runs[g].first && r.handed == t.work.runs[g].handed && t.work.runs[g].taken <= r.taken
    requires r.answered == t.work.runs[g].answered
    ensures Consistent(With(t, g, r)) && Later(t, With(t, g, r))
  {
    RunAccounts(t, g, r);
    RunProgresses(t, g, r);
    OrderlyWith(t, g, r);
    AudioStays(t.chunks);
    UnitsStay(t.units);
    hide Delivers, Accounts, Progresses, Orderly, RunsLater, UnitsLater, ChunksLater;
  }

  lemma RunAccounts(t: Turn, g: nat, r: Run)
    requires Accounts(t) && g < |t.work.runs| && Books(t, r)
    ensures Accounts(With(t, g, r))
  {
    hide HasUnit, Ascending;
    var t' := With(t, g, r);
    forall i | 0 <= i < |t'.work.runs| ensures Books(t', t'.work.runs[i]) {
      assert Books(t, t.work.runs[i]);
    }
  }

  lemma RunProgresses(t: Turn, g: nat, r: Run)
    requires Progresses(t) && Live(t) && g < |t.work.runs|
    requires r.handed == t.work.runs[g].handed && r.answered == t.work.runs[g].answered
    ensures Progresses(With(t, g, r))
  {
    SameSpeech(t.work, With(t, g, r).work);
    hide Speaks;
  }

  /** The producer has finished: nothing more will be spoken of this generation. */
  function Produced(t: Turn, g: nat): Turn
    requires g < |t.work.runs|
  {
    t.(producerDone := true, speechFailed := t.speechFailed || t.work.runs[g].broken)
  }

  lemma ProducedKeeps(t: Turn, g: nat)
    requires Consistent(t) && Live(t) && g < |t.work.runs|
    requires t.work.runs[g].answered && t.work.runs[g].queue == [] && t.work.runs[g].current.None?
    requires !t.work.runs[g].broken && t.work.runs[g].spoken > 0 ==> t.last > t.work.runs[g].first
    ensures Consistent(Produced(t, g)) && Later(t, Produced(t, g))
  {
    hide Delivers, HasUnit, Speaks;
    assert Books(t, t.work.runs[g]);
    assert !t.approved ==> |t.work.runs| == 1;
  }

  /** More was observed of the audio of a live turn, and its units may have been observed again. */
  ghost predicate Observes(t: Turn, t': Turn) {
    && t' == t.(state := t'.state, chunks := t'.chunks, units := t'.units, generation := t'.generation, plan := t'.plan,
                producerDone := t'.producerDone)
    && Live(t') && (t.producerDone ==> t'.producerDone)
    && t'.chunks.Keys == t.chunks.Keys && ChunksLater(t.chunks, t'.chunks) && Observed(t'.chunks)
    && SameUnits(t.units, t'.units)
  }

  /** The same units, except for what was observed of them. */
  ghost predicate SameUnits(units: seq<Unit>, units': seq<Unit>) {
    && |units'| == |units|
    && forall i :: 0 <= i < |units| ==> units'[i] == units[i].(state := units'[i].state, started := units'[i].started)
  }

  lemma SameIds(units: seq<Unit>, units': seq<Unit>)
    requires |units| <= |units'| && forall i :: 0 <= i < |units| ==> units'[i].id == units[i].id
    ensures forall id :: HasUnit(units, id) ==> HasUnit(units', id)
  {
    forall id | HasUnit(units, id) ensures HasUnit(units', id) {
      var i :| 0 <= i < |units| && units[i].id == id;
      assert units'[i].id == id;
    }
  }

  lemma ObservedOwned(units: seq<Unit>, chunks: map<nat, Chunk>, last: nat, chunks': map<nat, Chunk>)
    requires Owned(units, chunks, last) && chunks'.Keys == chunks.Keys && ChunksLater(chunks, chunks')
    ensures Owned(units, chunks', last) && Within(units, chunks')
  {
    hide InOrder, Home;
    forall i, k | 0 <= i < |units| && k in units[i].sequences ensures k in chunks' && chunks'[k].unit == units[i].id {
      assert chunks[k].unit == units[i].id;
    }
    forall k ensures k in chunks' <==> 1 <= k <= last {
      assert k in chunks <==> 1 <= k <= last;
    }
  }

  /** Units observed again after more was observed of their audio: accurate, and nothing is taken back. */
  lemma ObservedAgain(units: seq<Unit>, chunks: map<nat, Chunk>, last: nat, chunks': map<nat, Chunk>, units': seq<Unit>, over: bool)
    requires Delivers(units, chunks, last) && SameUnits(units, units') && Observed(chunks')
    requires chunks'.Keys == chunks.Keys && ChunksLater(chunks, chunks')
    ensures Within(units', chunks') && Delivers(RefreshAll(units', chunks', over), chunks', last)
    ensures SameUnits(units, RefreshAll(units', chunks', over)) && UnitsLater(units, RefreshAll(units', chunks', over))
    ensures forall id :: HasUnit(RefreshAll(units', chunks', over), id) <==> HasUnit(units, id)
  {
    OwnedSame(units, chunks, last, units');
    ObservedOwned(units', chunks, last, chunks');
    var after := RefreshAll(units', chunks', over);
    RefreshDelivers(units', chunks', last, over, after);
    hide Owned, AccurateUnit, HasUnit, Played, SomeStarted, SomeInterrupted;
    assert SameUnits(units, after);
    SameIds(units, after);
    SameIds(after, units);
    CompletedStays(units, chunks, after, chunks');
  }

  lemma SameAccounts(t: Turn, t': Turn)
    requires Accounts(t) && forall id :: HasUnit(t.units, id) ==> HasUnit(t'.units, id)
    requires t' == t.(state := t'.state, chunks := t'.chunks, units := t'.units, generation := t'.generation, plan := t'.plan,
                      producerDone := t'.producerDone, errorCode := t'.errorCode, deadline := t'.deadline)
    ensures Accounts(t')
  {
    hide HasUnit;
  }

  /** What a finish changes. */
  lemma FinishIs(t: Turn, state: State, code: Code, recorded: bool, stored: bool)
    requires Live(t) && Within(t.units, t.chunks) && code != InvalidCompletionState
    requires state.Completed? || state.Failed? || state.Incomplete? || (state == Canceled && t.state == Canceling)
    requires state == Completed ==> MayComplete(t)
    ensures var t' := Finish(t, state, code, recorded, stored);
            && t' == t.(state := t'.state, units := RefreshAll(t.units, t.chunks, true), errorCode := t'.errorCode, deadline := None)
            && Terminal(t'.state) && t'.errorCode != InvalidCompletionState && (t'.state == state || t'.state == Failed)
  {
  }

  /** A finish keeps the turn consistent, whatever was observed last and whatever fails. */
  lemma FinishKeeps(t: Turn, t': Turn, state: State, code: Code, recorded: bool, stored: bool)
    requires Consistent(t) && Live(t) && Observes(t, t') && code != InvalidCompletionState
    requires state.Completed? || state.Failed? || state.Incomplete? || (state == Canceled && t'.state == Canceling)
    requires state == Completed ==> MayComplete(t')
    requires state == Incomplete ==> MayContinue(t')
    ensures Within(t'.units, t'.chunks)
    ensures var t'' := Finish(t', state, code, recorded, stored);
            Consistent(t'') && Later(t, t'') && Terminal(t''.state)
  {
    hide Delivers, UnitsLater, ChunksLater, SameUnits, HasUnit, Observed, Accounts, Progresses, Finish, MayComplete, Within;
    ObservedAgain(t.units, t.chunks, t.last, t'.chunks, t'.units, true);
    FinishIs(t', state, code, recorded, stored);
    SameAccounts(t, Finish(t', state, code, recorded, stored));
    OrderlySame(t, Finish(t', state, code, recorded, stored));
    hide Orderly, RunsLater;
  }

  /** The synthesis of the i-th unit has succeeded. */
  ghost function SealedUnit(t: Turn, i: nat): Turn
    requires i < |t.units| && Within(t.units, t.chunks)
  {
    assert Within(Sealed(t.units, i), t.chunks) by {
      assert forall j :: 0 <= j < |t.units| ==> Sealed(t.units, i)[j].sequences == t.units[j].sequences;
    }
    t.(units := RefreshAll(Sealed(t.units, i), t.chunks, Over(t.state)))
  }

  lemma SealKeeps(t: Turn, i: nat)
    requires Consistent(t) && i < |t.units|
    ensures Within(t.units, t.chunks) && Consistent(SealedUnit(t, i)) && Later(t, SealedUnit(t, i))
    ensures SealedUnit(t, i).units[i].sealed
  {
    SealDelivers(t.units, t.chunks, t.last, i, Over(t.state));
    AudioStays(t.chunks);
    SameAccounts(t, SealedUnit(t, i));
    SealedProgresses(t, SealedUnit(t, i));
    hide Delivers, UnitsLater, ChunksLater, HasUnit, Accounts, Progresses, Within;
  }

  lemma SealedProgresses(t: Turn, t': Turn)
    requires t' == t.(units := t'.units)
    ensures Progresses(t') == Progresses(t) && Live(t') == Live(t) && MayContinue(t') == MayContinue(t)
  {
    hide Speaks;
  }

  lemma SealDelivers(units: seq<Unit>, chunks: map<nat, Chunk>, last: nat, i: nat, over: bool)
    requires Delivers(units, chunks, last) && i < |units|
    ensures Within(Sealed(units, i), chunks)
    ensures var units' := RefreshAll(Sealed(units, i), chunks, over);
            && Delivers(units', chunks, last) && UnitsLater(units, units') && units'[i].sealed
            && forall id :: HasUnit(units', id) <==> HasUnit(units, id)
  {
    var sealed := Sealed(units, i);
    OwnedSame(units, chunks, last, sealed);
    var units' := RefreshAll(sealed, chunks, over);
    RefreshDelivers(sealed, chunks, last, over, units');
    hide Owned, AccurateUnit, HasUnit, Played, SomeStarted, SomeInterrupted;
    SameIds(units, units');
    SameIds(units', units);
    AudioStays(chunks);
    CompletedStays(units, chunks, units', chunks);
  }

  /** The head of the audio is given its turn, and the deadline is set anew. */
  ghost function Rescheduled(t: Turn, head: Option<nat>, now: int, margin: int): Turn
    requires Heads(t.chunks, head)
  {
    var waiting := Waiting(t.chunks, head, now);
    t.(chunks := waiting, deadline := Due(waiting, head, margin))
  }

  lemma RescheduledKeeps(t: Turn, head: Option<nat>, now: int, margin: int)
    requires Consistent(t) && Live(t) && Heads(t.chunks, head)
    ensures Consistent(Rescheduled(t, head, now, margin)) && Later(t, Rescheduled(t, head, now, margin))
  {
    hide Delivers, Accounts, Progresses, UnitsLater, ChunksLater, Waiting, Due, SameFlags, HasUnit;
    var t' := Rescheduled(t, head, now, margin);
    WaitingFlags(t.chunks, head, now);
    SameFlagsDeliver(t.units, t.chunks, t.last, t'.chunks);
    FlagsLater(t.units, t.chunks, t'.chunks);
    SameAccounts(t, t');
    FlagsProgress(t, t');
  }

  lemma FlagsLater(units: seq<Unit>, chunks: map<nat, Chunk>, chunks': map<nat, Chunk>)
    requires SameFlags(chunks, chunks')
    ensures UnitsLater(units, units) && ChunksLater(chunks, chunks') && chunks'.Keys == chunks.Keys
    ensures (forall k :: k in chunks ==> chunks[k].stopped) ==> forall k :: k in chunks' ==> chunks'[k].stopped
  {
  }

  lemma WaitingFlags(chunks: map<nat, Chunk>, head: Option<nat>, now: int)
    requires head.Some? ==> head.value in chunks
    ensures SameFlags(chunks, Waiting(chunks, head, now))
  {
  }

  lemma FlagsProgress(t: Turn, t': Turn)
    requires Progresses(t) && t' == t.(chunks := t'.chunks, deadline := t'.deadline) && SameFlags(t.chunks, t'.chunks)
    ensures Progresses(t')
  {
  }

  /** A piece of audio of the i-th unit, which is being synthesized. */
  function Audio(t: Turn, i: nat, duration: nat, size: nat): Turn
    requires i < |t.units|
  {
    t.(chunks := Queued(t.chunks, t.last + 1, t.units[i].id, duration), units := Appended(t.units, i, t.last + 1),
       last := t.last + 1, bytes := t.bytes + size)
  }

  /** This unit is being synthesized. */
  predicate Speaking(t: Turn, g: nat, id: nat) {
    g < |t.work.runs| && t.work.runs[g].current == Some(id)
  }

  lemma AudioKeeps(t: Turn, g: nat, i: nat, duration: nat, size: nat)
    requires Consistent(t) && Live(t) && i < |t.units| && !t.units[i].sealed && Speaking(t, g, t.units[i].id)
    requires t.last < MAX_CHUNKS && t.bytes + size <= MAX_AUDIO_BYTES
    ensures Consistent(Audio(t, i, duration, size)) && Later(t, Audio(t, i, duration, size))
  {
    hide Accounts, Progresses, HasUnit, UnitsLater, ChunksLater, Owned, Accurate, Observed, Queued, Appended;
    var t' := Audio(t, i, duration, size);
    AppendDelivers(t.units, t.chunks, t.last, i, duration);
    AppendLater(t.units, t.chunks, t.last, i, duration);
    AudioAccounts(t, i, duration, size);
    AudioProgresses(t, g, i, duration, size);
    AudioOrderly(t, g, i, duration, size);
    hide Orderly, RunsLater;
  }

  /** New audio belongs to the unit taken last, so it comes after all other audio of its generation. */
  lemma AudioOrderly(t: Turn, g: nat, i: nat, duration: nat, size: nat)
    requires Orderly(t) && Accounts(t) && i < |t.units| && Speaking(t, g, t.units[i].id) && Owned(t.units, t.chunks, t.last)
    ensures Orderly(Audio(t, i, duration, size)) && RunsLater(t.work.runs, Audio(t, i, duration, size).work.runs)
  {
    hide HasUnit, Home, InOrder;
    var chunks := Audio(t, i, duration, size).chunks;
    var r := t.work.runs[g];
    assert Books(t, r) && t.units[i].id in r.taken;
    TakenLast(t, r);
    forall h | 0 <= h < |t.work.runs| ensures InTurn(chunks, t.work.runs[h]) {
      assert InTurn(t.chunks, t.work.runs[h]);
      assert h != g ==> t.units[i].id !in t.work.runs[h].handed;
    }
  }

  lemma TakenLast(t: Turn, r: Run)
    requires Books(t, r) && r.current.Some?
    ensures r.current.value in r.handed
    ensures forall id :: id in r.taken ==> id <= r.current.value
  {
    hide HasUnit;
    assert r.taken <= r.handed;
    forall id | id in r.taken ensures id <= r.current.value {
      var a :| 0 <= a < |r.taken| && r.taken[a] == id;
      assert r.handed[a] == id && r.handed[|r.taken| - 1] == r.current.value;
    }
  }

  lemma AudioAccounts(t: Turn, i: nat, duration: nat, size: nat)
    requires Accounts(t) && i < |t.units| && t.last < MAX_CHUNKS && t.bytes + size <= MAX_AUDIO_BYTES
    ensures Accounts(Audio(t, i, duration, size))
  {
    SameIds(t.units, Audio(t, i, duration, size).units);
    hide HasUnit;
  }

  lemma AudioProgresses(t: Turn, g: nat, i: nat, duration: nat, size: nat)
    requires Progresses(t) && Accounts(t) && i < |t.units| && Speaking(t, g, t.units[i].id)
    requires Owned(t.units, t.chunks, t.last)
    ensures Progresses(Audio(t, i, duration, size))
  {
    hide HasUnit;
    assert Books(t, t.work.runs[g]);
    assert Speaks(t.work);
    hide Speaks;
  }

  lemma AppendLater(units: seq<Unit>, chunks: map<nat, Chunk>, last: nat, i: nat, duration: nat)
    requires Owned(units, chunks, last) && i < |units| && !units[i].sealed
    requires Accurate(units, chunks) && Accurate(Appended(units, i, last + 1), Queued(chunks, last + 1, units[i].id, duration))
    ensures UnitsLater(units, Appended(units, i, last + 1))
    ensures ChunksLater(chunks, Queued(chunks, last + 1, units[i].id, duration))
    ensures forall k :: k in Queued(chunks, last + 1, units[i].id, duration) && k !in chunks ==> k > last
  {
    hide InOrder, Home, AccurateUnit;
    assert last + 1 !in chunks;
    CompletedStays(units, chunks, Appended(units, i, last + 1), Queued(chunks, last + 1, units[i].id, duration));
  }

  /** Playback of a piece of audio is acknowledged. */
  ghost function PlayStarted(t: Turn, k: nat, now: int): Turn
    requires k in t.chunks && Within(t.units, t.chunks)
  {
    var s := if t.state == Synthesizing then Move(t, Playing) else t;
    var chunks := Started(t.chunks, k, now);
    s.(chunks := chunks, units := RefreshAll(t.units, chunks, Over(s.state)))
  }

  ghost function PlayStopped(t: Turn, k: nat): Turn
    requires k in t.chunks && Within(t.units, t.chunks)
  {
    var chunks := Stopped(t.chunks, k);
    t.(chunks := chunks, units := RefreshAll(t.units, chunks, Over(t.state)))
  }

  lemma PlayStartedKeeps(t: Turn, k: nat, now: int)
    requires Consistent(t) && k in t.chunks && !t.chunks[k].started && (t.state == Synthesizing || t.state == Playing)
    ensures Within(t.units, t.chunks)
    ensures var t' := PlayStarted(t, k, now); Consistent(t') && Later(t, t') && Observes(t, t')
  {
    hide Delivers, Accounts, Progresses, UnitsLater, SameUnits, HasUnit, ChunksLater, Observed, PlayStarted, Within;
    var chunks := Started(t.chunks, k, now);
    StartedObserved(t.units, t.chunks, t.last, k, now);
    SameUnitsStill(t.units);
    ObservedAgain(t.units, t.chunks, t.last, chunks, t.units, false);
    ConsistentWithin(t);
    PlayStartedProgresses(t, k, now);
    SameAccounts(t, PlayStarted(t, k, now));
  }

  lemma SameUnitsStill(units: seq<Unit>)
    ensures SameUnits(units, units)
  {
  }

  lemma ConsistentWithin(t: Turn)
    requires Delivers(t.units, t.chunks, t.last)
    ensures Within(t.units, t.chunks)
  {
  }

  lemma StartedObserved(units: seq<Unit>, chunks: map<nat, Chunk>, last: nat, k: nat, now: int)
    requires Delivers(units, chunks, last) && k in chunks
    ensures Observed(Started(chunks, k, now)) && ChunksLater(chunks, Started(chunks, k, now))
  {
    hide Owned, Accurate;
  }

  lemma StoppedObserved(units: seq<Unit>, chunks: map<nat, Chunk>, last: nat, k: nat)
    requires Delivers(units, chunks, last) && k in chunks && chunks[k].started && !chunks[k].interrupted
    ensures Observed(Stopped(chunks, k)) && ChunksLater(chunks, Stopped(chunks, k))
  {
    hide Owned, Accurate;
  }

  lemma PlayStartedProgresses(t: Turn, k: nat, now: int)
    requires Progresses(t) && (t.state == Synthesizing || t.state == Playing) && k in t.chunks && Within(t.units, t.chunks)
    ensures var t' := PlayStarted(t, k, now);
            && Progresses(t') && t'.state == Playing
            && t' == t.(state := Playing, chunks := Started(t.chunks, k, now), units := RefreshAll(t.units, Started(t.chunks, k, now), false))
  {
    hide Within;
  }

  lemma PlayStoppedKeeps(t: Turn, k: nat)
    requires Consistent(t) && Live(t) && k in t.chunks && t.chunks[k].started && !t.chunks[k].stopped
    ensures Within(t.units, t.chunks)
    ensures var t' := PlayStopped(t, k); Consistent(t') && Later(t, t') && Observes(t, t')
  {
    hide Delivers, Accounts, UnitsLater, SameUnits, HasUnit, ChunksLater, Observed, PlayStopped, Within, Progresses;
    var chunks := Stopped(t.chunks, k);
    ConsistentWithin(t);
    PlayStoppedProgresses(t, k);
    StoppedObserved(t.units, t.chunks, t.last, k);
    SameUnitsStill(t.units);
    ObservedAgain(t.units, t.chunks, t.last, chunks, t.units, false);
    SameAccounts(t, PlayStopped(t, k));
  }

  lemma PlayStoppedProgresses(t: Turn, k: nat)
    requires Progresses(t) && Live(t) && k in t.chunks && t.chunks[k].started && Within(t.units, t.chunks)
    ensures var t' := PlayStopped(t, k);
            && Progresses(t') && !t.chunks[k].interrupted
            && t' == t.(chunks := Stopped(t.chunks, k), units := RefreshAll(t.units, Stopped(t.chunks, k), false))
  {
    hide Within;
  }

  /** An incomplete turn goes on: the next revision begins, behind the audio of the ones before. */
  function Continued(t: Turn): Turn {
    t.(revision := t.revision + 1, state := Thinking, errorCode := NoCode, generation := None,
       producerDone := false, generationDone := false, work := t.work.(starts := 1, base := t.last, runs := []))
  }

  lemma ContinuedKeeps(t: Turn)
    requires Consistent(t) && t.state == Incomplete && t.revision < MAX_REVISION
    ensures Consistent(Continued(t)) && Later(t, Continued(t)) && Live(Continued(t))
  {
    hide HasUnit, InOrder, Home, AccurateUnit;
  }
}
