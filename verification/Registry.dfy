/** The turns an engine keeps, and the one that is live. */
module Registry {
  import opened Options
  import opened Playback
  import opened Delivery
  import opened Turns
  import opened TurnSteps

  const MAX_TURNS := 256

  ghost predicate IdsBelow(units: seq<Unit>, nextId: nat) {
    forall id: nat :: HasUnit(units, id) ==> id < nextId
  }

  /** Exactly the active turn, if any, has not ended. */
  ghost predicate SingleLive(turns: map<nat, Turn>, active: Option<nat>) {
    && (active.Some? ==> active.value in turns)
    && (forall op :: op in turns ==> (Live(turns[op]) <==> active == Some(op)))
  }

  ghost predicate AllConsistent(turns: map<nat, Turn>) {
    forall op :: op in turns ==> Consistent(turns[op])
  }

  ghost predicate Numbered(turns: map<nat, Turn>, nextId: nat) {
    forall op :: op in turns ==> op < nextId && IdsBelow(turns[op].units, nextId)
  }

  ghost predicate Kept(turns: map<nat, Turn>, turns': map<nat, Turn>) {
    forall op :: op in turns && op in turns' ==> Later(turns[op], turns'[op])
  }

  /** What the engine keeps about its turns: at most one is live, all are consistent, and there are not too many. */
  ghost predicate Roster(turns: map<nat, Turn>, active: Option<nat>, nextId: nat) {
    SingleLive(turns, active) && AllConsistent(turns) && Numbered(turns, nextId) && |turns| <= MAX_TURNS
  }

  function ActiveAfter(active: Option<nat>, op: nat, t: Turn): Option<nat> {
    if Live(t) then Some(op) else if active == Some(op) then None else active
  }

  /** A step of one turn. A turn only comes alive again when no other turn is live. */
  lemma StepRoster(turns: map<nat, Turn>, active: Option<nat>, nextId: nat, op: nat, t: Turn, nextId': nat)
    requires Roster(turns, active, nextId) && op in turns && nextId <= nextId'
    requires Consistent(t) && Later(turns[op], t) && IdsBelow(t.units, nextId')
    requires Live(t) ==> active == Some(op) || active == None
    ensures Roster(turns[op := t], ActiveAfter(active, op, t), nextId') && Kept(turns, turns[op := t])
  {
    hide Consistent, Later, HasUnit;
    var turns' := turns[op := t];
    assert turns'.Keys == turns.Keys + {op} == turns.Keys;
    NumberedStep(turns, nextId, op, t, nextId');
    KeptStill(turns);
  }

  lemma NumberedStep(turns: map<nat, Turn>, nextId: nat, op: nat, t: Turn, nextId': nat)
    requires Numbered(turns, nextId) && nextId <= nextId' && op < nextId' && (IdsBelow(t.units, nextId) || IdsBelow(t.units, nextId'))
    ensures Numbered(turns[op := t], nextId')
  {
    hide HasUnit;
    var turns' := turns[op := t];
    forall other | other in turns' ensures other < nextId' && IdsBelow(turns'[other].units, nextId') {
      if other != op {
        assert IdsBelow(turns[other].units, nextId);
      }
    }
  }

  lemma OpenRoster(turns: map<nat, Turn>, nextId: nat, t: Turn)
    requires Roster(turns, None, nextId) && |turns| < MAX_TURNS
    requires Consistent(t) && Live(t) && IdsBelow(t.units, nextId)
    ensures Roster(turns[nextId := t], Some(nextId), nextId + 1) && Kept(turns, turns[nextId := t])
  {
    hide Consistent, Later, HasUnit, IdsBelow;
    var turns' := turns[nextId := t];
    assert nextId !in turns;
    assert turns'.Keys == turns.Keys + {nextId} && |turns'.Keys| == |turns.Keys| + 1;
    NumberedStep(turns, nextId, nextId, t, nextId + 1);
    KeptStill(turns);
  }

  /** Turns are only dropped once they have ended. */
  lemma DropRoster(turns: map<nat, Turn>, active: Option<nat>, nextId: nat, op: nat)
    requires Roster(turns, active, nextId) && op in turns && !Live(turns[op])
    ensures Roster(turns - {op}, active, nextId) && Kept(turns, turns - {op})
    ensures |turns - {op}| == |turns| - 1
  {
    hide Consistent, Later, HasUnit;
    var turns' := turns - {op};
    assert turns'.Keys == turns.Keys - {op} && |turns'.Keys| == |turns.Keys| - 1;
    KeptStill(turns);
  }

  lemma KeptOn(a: map<nat, Turn>, b: map<nat, Turn>, c: map<nat, Turn>)
    requires Kept(a, b) && Kept(b, c) && c.Keys <= b.Keys
    ensures Kept(a, c)
  {
    hide Later;
    forall op | op in a && op in c ensures Later(a[op], c[op]) {
      LaterOn(a[op], b[op], c[op]);
    }
  }

  lemma KeptStill(turns: map<nat, Turn>)
    ensures Kept(turns, turns)
  {
    forall op | op in turns ensures Later(turns[op], turns[op]) {
      LaterStill(turns[op]);
    }
  }
}
