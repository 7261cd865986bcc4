/** The check of a mapping from projects to their parents: every cycle is found, and reported once. */
module ParentGraph {
  import opened Options

  type Id = string

  type Parents = map<Id, Option<Id>>

  datatype Error = SelfParent(id: Id) | Cycle(path: seq<Id>)

  function Following(p: seq<Id>, i: nat): Id
    requires i < |p|
  {
    if i + 1 < |p| then p[i + 1] else p[0]
  }

  /** A round of distinct projects, each the parent of the one before. */
  ghost predicate Round(parents: Parents, p: seq<Id>) {
    && p != [] && (forall i, j :: 0 <= i < j < |p| ==> p[i] != p[j])
    && forall i :: 0 <= i < |p| ==> p[i] in parents && parents[p[i]] == Some(Following(p, i))
  }

  ghost predicate OnCycle(parents: Parents, x: Id) {
    exists p :: Round(parents, p) && x in p
  }

  predicate SelfLoop(parents: Parents, x: Id) {
    x in parents && parents[x] == Some(x)
  }

  ghost predicate OnLongCycle(parents: Parents, x: Id) {
    OnCycle(parents, x) && !SelfLoop(parents, x)
  }

  lemma SelfLoopOnCycle(parents: Parents, x: Id)
    requires SelfLoop(parents, x)
    ensures OnCycle(parents, x)
  {
    assert Round(parents, [x]) && x in [x];
  }

  /** What leads out of a closed set leads out of the mapping. */
  ghost predicate Closed(parents: Parents, s: set<Id>) {
    forall x :: x in s ==> x in parents && (parents[x].Some? && parents[x].value in parents ==> parents[x].value in s)
  }

  /** A round that meets a closed set lies in it. */
  lemma RoundWithin(parents: Parents, p: seq<Id>, s: set<Id>, i: nat)
    requires Round(parents, p) && Closed(parents, s) && i < |p| && p[i] in s
    ensures forall x :: x in p ==> x in s
  {
    OnToEnd(parents, p, s, i);
    var last := |p| - 1;
    assert p[last] in s && parents[p[last]] == Some(Following(p, last)) && p[0] in parents;
    OnToEnd(parents, p, s, 0);
  }

  lemma RoundStep(parents: Parents, p: seq<Id>, i: nat)
    requires Round(parents, p) && i < |p|
    ensures p[i] in parents && parents[p[i]] == Some(Following(p, i)) && Following(p, i) in parents
  {
    assert p[0] in parents && (i + 1 < |p| ==> p[i + 1] in parents);
  }

  lemma {:induction false} OnToEnd(parents: Parents, p: seq<Id>, s: set<Id>, i: nat)
    requires Round(parents, p) && Closed(parents, s) && i < |p| && p[i] in s
    ensures forall j :: i <= j < |p| ==> p[j] in s
    decreases |p| - i
  {
    hide Round;
    if i + 1 == |p| {
    } else {
      RoundStep(parents, p, i);
      OnToEnd(parents, p, s, i + 1);
    }
  }

  /** How many reported cycles hold a project. */
  function Reports(errors: seq<Error>, x: Id): nat {
    if errors == [] then 0
    else
      var last := errors[|errors| - 1];
      Reports(errors[..|errors| - 1], x) + (if last.Cycle? && x in last.path then 1 else 0)
  }

  function SelfReports(errors: seq<Error>, x: Id): nat {
    if errors == [] then 0
    else
      var last := errors[|errors| - 1];
      SelfReports(errors[..|errors| - 1], x) + (if last == SelfParent(x) then 1 else 0)
  }

  /** A reported cycle is a round of at least two projects, closed by its first. */
  ghost predicate Genuine(parents: Parents, e: Error) {
    match e
    case SelfParent(x) => SelfLoop(parents, x)
    case Cycle(path) => |path| >= 3 && Round(parents, path[..|path| - 1]) && path[|path| - 1] == path[0]
  }

  /** The keys in the order in which they are visited. */
  ghost predicate Lists(keys: seq<Id>, parents: Parents) {
    && (forall i, j :: 0 <= i < j < |keys| ==> keys[i] != keys[j])
    && (forall x :: x in keys <==> x in parents)
  }

  lemma {:induction false} ReportsAppend(errors: seq<Error>, e: Error, x: Id)
    ensures Reports(errors + [e], x) == Reports(errors, x) + (if e.Cycle? && x in e.path then 1 else 0)
    ensures SelfReports(errors + [e], x) == SelfReports(errors, x) + (if e == SelfParent(x) then 1 else 0)
  {
    assert (errors + [e])[..|errors|] == errors;
  }

  /** The walk along parents from a start: a chain of distinct projects that were not visited before. */
  ghost predicate Walk(parents: Parents, visited: set<Id>, path: seq<Id>, positions: map<Id, nat>, start: Id, current: Option<Id>) {
    && (forall i, j :: 0 <= i < j < |path| ==> path[i] != path[j])
    && (forall i :: 0 <= i < |path| ==> path[i] in parents && path[i] !in visited)
    && (forall i :: 0 <= i < |path| - 1 ==> parents[path[i]] == Some(path[i + 1]))
    && (current == if path == [] then Some(start) else parents[path[|path| - 1]])
    && (path != [] ==> path[0] == start)
    && (forall x :: x in positions <==> x in path)
    && (forall x :: x in positions ==> positions[x] < |path| && path[positions[x]] == x)
  }

  /** What has been visited is closed, and its cycles have been reported. */
  ghost predicate Covered(parents: Parents, visited: set<Id>, errors: seq<Error>) {
    && Closed(parents, visited)
    && (forall e :: e in errors ==> Genuine(parents, e))
    && (forall x :: Reports(errors, x) == if x in visited && OnLongCycle(parents, x) then 1 else 0)
    && (forall x :: SelfReports(errors, x) == if SelfLoop(parents, x) then 1 else 0)
  }

  /** The walk ends on a parent that is missing, visited before, or on the walk itself. */
  ghost predicate WalkEnds(parents: Parents, visited: set<Id>, path: seq<Id>, current: Option<Id>) {
    current.None? || current.value !in parents || current.value in visited || current.value in path
  }

  function Elements(path: seq<Id>): set<Id> {
    set x | x in path
  }

  /** What is visited after a walk is closed again. */
  lemma WalkClosed(parents: Parents, visited: set<Id>, path: seq<Id>, positions: map<Id, nat>, start: Id, current: Option<Id>)
    requires Closed(parents, visited) && Walk(parents, visited, path, positions, start, current) && WalkEnds(parents, visited, path, current)
    ensures Closed(parents, visited + Elements(path))
  {
    var all := visited + Elements(path);
    forall x | x in all ensures x in parents && (parents[x].Some? && parents[x].value in parents ==> parents[x].value in all) {
      if x !in visited {
        var i :| 0 <= i < |path| && path[i] == x;
        if i < |path| - 1 {
          assert parents[x] == Some(path[i + 1]) && path[i + 1] in path;
        }
      }
    }
  }

  /** The part of the walk that comes back to itself is a round. */
  lemma WalkRound(parents: Parents, visited: set<Id>, path: seq<Id>, positions: map<Id, nat>, start: Id, current: Option<Id>)
    requires Walk(parents, visited, path, positions, start, current) && current.Some? && current.value in positions
    ensures positions[current.value] < |path| && Round(parents, path[positions[current.value]..])
  {
    var k := positions[current.value];
    var p := path[k..];
    forall i | 0 <= i < |p| ensures p[i] in parents && parents[p[i]] == Some(Following(p, i)) {
      assert p[i] == path[k + i];
      if i + 1 < |p| {
        assert p[i + 1] == path[k + i + 1];
      }
    }
  }

  /** A project of the walk that lies on a cycle lies on the part of the walk that comes back. */
  lemma WalkFinds(parents: Parents, visited: set<Id>, path: seq<Id>, positions: map<Id, nat>, start: Id, current: Option<Id>, x: Id)
    requires Closed(parents, visited) && Walk(parents, visited, path, positions, start, current) && WalkEnds(parents, visited, path, current)
    requires x in path && OnCycle(parents, x)
    ensures current.Some? && current.value in positions && x in path[positions[current.value]..]
  {
    var p :| Round(parents, p) && x in p;
    var i :| 0 <= i < |path| && path[i] == x;
    WalkStays(parents, visited, path, positions, start, current, p, i);
    assert current.Some? && current.value in p && current.value in parents;
    var j :| 0 <= j < |p| && p[j] == current.value;
    if current.value in visited {
      RoundWithin(parents, p, visited, j);
    } else {
      var k := positions[current.value];
      var q := path[k..];
      WalkRound(parents, visited, path, positions, start, current);
      RoundClosed(parents, q);
      assert q[0] == current.value;
      RoundWithin(parents, p, Elements(q), j);
    }
  }

  lemma RoundClosed(parents: Parents, q: seq<Id>)
    requires Round(parents, q)
    ensures Closed(parents, Elements(q))
  {
    forall x | x in Elements(q) ensures x in parents && parents[x].Some? && parents[x].value in Elements(q) {
      NextOnRound(parents, q, x);
    }
  }

  /** From a project on a round, the walk stays on the round. */
  lemma {:induction false} WalkStays(parents: Parents, visited: set<Id>, path: seq<Id>, positions: map<Id, nat>, start: Id,
                                     current: Option<Id>, p: seq<Id>, i: nat)
    requires Walk(parents, visited, path, positions, start, current) && Round(parents, p) && i < |path| && path[i] in p
    ensures current.Some? && current.value in p && current.value in parents
    decreases |path| - i
  {
    NextOnRound(parents, p, path[i]);
    if i + 1 == |path| {
    } else {
      assert parents[path[i]] == Some(path[i + 1]);
      WalkStays(parents, visited, path, positions, start, current, p, i + 1);
    }
  }

  lemma NextOnRound(parents: Parents, p: seq<Id>, x: Id)
    requires Round(parents, p) && x in p
    ensures x in parents && parents[x].Some? && parents[x].value in p && parents[x].value in parents
  {
    var i :| 0 <= i < |p| && p[i] == x;
    var j := if i + 1 < |p| then i + 1 else 0;
    assert parents[p[i]] == Some(Following(p, i)) && Following(p, i) == p[j];
    assert p[j] in parents && p[j] in p;
  }

  /** What a walk adds to the report: its round, unless that is a self-loop. */
  function WalkReport(path: seq<Id>, positions: map<Id, nat>, current: Option<Id>): seq<Error> {
    if current.Some? && current.value in positions && positions[current.value] + 1 < |path|
    then [Cycle(path[positions[current.value]..] + [current.value])]
    else []
  }

  lemma WalkCovers(parents: Parents, visited: set<Id>, errors: seq<Error>, path: seq<Id>, positions: map<Id, nat>, start: Id, current: Option<Id>)
    requires Covered(parents, visited, errors)
    requires Walk(parents, visited, path, positions, start, current) && WalkEnds(parents, visited, path, current)
    ensures Covered(parents, visited + Elements(path), errors + WalkReport(path, positions, current))
  {
    WalkClosed(parents, visited, path, positions, start, current);
    var report := WalkReport(path, positions, current);
    if report != [] {
      WalkRound(parents, visited, path, positions, start, current);
      var q := path[positions[current.value]..];
      assert report[0].path[..|report[0].path| - 1] == q;
      assert Genuine(parents, report[0]);
    }
    forall x
      ensures Reports(errors + report, x) == if x in visited + Elements(path) && OnLongCycle(parents, x) then 1 else 0
      ensures SelfReports(errors + report, x) == if SelfLoop(parents, x) then 1 else 0
    {
      WalkCounts(parents, visited, errors, path, positions, start, current, x);
    }
  }

  lemma WalkCounts(parents: Parents, visited: set<Id>, errors: seq<Error>, path: seq<Id>, positions: map<Id, nat>, start: Id,
                   current: Option<Id>, x: Id)
    requires Covered(parents, visited, errors)
    requires Walk(parents, visited, path, positions, start, current) && WalkEnds(parents, visited, path, current)
    ensures var errors' := errors + WalkReport(path, positions, current);
            && Reports(errors', x) == (if x in visited + Elements(path) && OnLongCycle(parents, x) then 1 else 0)
            && SelfReports(errors', x) == if SelfLoop(parents, x) then 1 else 0
  {
    var report := WalkReport(path, positions, current);
    if report == [] {
      assert errors + report == errors;
    } else {
      ReportsAppend(errors, report[0], x);
    }
    if x in path {
      if OnCycle(parents, x) {
        WalkFinds(parents, visited, path, positions, start, current, x);
        if report == [] {
          ShortRound(parents, visited, path, positions, start, current, x);
        }
      }
    }
    if report != [] && x in report[0].path {
      ReportedOnCycle(parents, visited, path, positions, start, current, x);
    }
  }

  /** A round of one project is a self-loop. */
  lemma ShortRound(parents: Parents, visited: set<Id>, path: seq<Id>, positions: map<Id, nat>, start: Id, current: Option<Id>, x: Id)
    requires Walk(parents, visited, path, positions, start, current) && current.Some? && current.value in positions
    requires positions[current.value] + 1 >= |path| && x in path[positions[current.value]..]
    ensures SelfLoop(parents, x)
  {
    assert path[positions[current.value]..] == [current.value];
  }

  /** Every project of a reported cycle is on a long cycle, and on the walk. */
  lemma ReportedOnCycle(parents: Parents, visited: set<Id>, path: seq<Id>, positions: map<Id, nat>, start: Id, current: Option<Id>, x: Id)
    requires Walk(parents, visited, path, positions, start, current) && WalkReport(path, positions, current) != []
    requires x in WalkReport(path, positions, current)[0].path
    ensures x in path && x !in visited && OnLongCycle(parents, x)
  {
    WalkRound(parents, visited, path, positions, start, current);
    var q := path[positions[current.value]..];
    assert q[0] == current.value;
    assert x in q;
    var i :| 0 <= i < |q| && q[i] == x;
    assert path[positions[current.value] + i] == x;
    assert parents[q[i]] == Some(Following(q, i)) && Following(q, i) == q[if i + 1 < |q| then i + 1 else 0];
  }

  /** Reports the projects that are their own parents. */
  method ReportSelfParents(parents: Parents, keys: seq<Id>) returns (errors: seq<Error>)
    requires Lists(keys, parents)
    ensures Covered(parents, {}, errors)
  {
    errors := [];
    for i := 0 to |keys|
      invariant forall e :: e in errors ==> Genuine(parents, e)
      invariant forall x :: Reports(errors, x) == 0
      invariant forall x :: SelfReports(errors, x) == if SelfLoop(parents, x) && x in keys[..i] then 1 else 0
    {
      if parents[keys[i]] == Some(keys[i]) {
        forall x
          ensures Reports(errors + [SelfParent(keys[i])], x) == 0
          ensures SelfReports(errors + [SelfParent(keys[i])], x) == SelfReports(errors, x) + (if x == keys[i] then 1 else 0)
        {
          ReportsAppend(errors, SelfParent(keys[i]), x);
        }
        errors := errors + [SelfParent(keys[i])];
      }
      assert keys[..i + 1] == keys[..i] + [keys[i]];
    }
    assert keys[..|keys|] == keys;
  }

  /** Follows the parents of a project that has not been visited. */
  method Follow(parents: Parents, visited: set<Id>, start: Id) returns (path: seq<Id>, positions: map<Id, nat>, current: Option<Id>)
    requires start in parents && start !in visited
    ensures Walk(parents, visited, path, positions, start, current) && WalkEnds(parents, visited, path, current)
    ensures start in path
  {
    path, positions, current := [], map[], Some(start);
    WalkStart(parents, visited, start);
    while current.Some? && current.value in parents && current.value !in positions && current.value !in visited
      invariant Walk(parents, visited, path, positions, start, current)
      invariant path == [] ==> current == Some(start)
      decreases |parents.Keys - Elements(path)|
    {
      hide Walk;
      WalkOn(parents, visited, path, positions, start, current.value);
      Smaller(parents, path, current.value);
      positions := positions[current.value := |path|];
      path := path + [current.value];
      current := parents[current.value];
    }
  }

  lemma WalkStart(parents: Parents, visited: set<Id>, start: Id)
    ensures Walk(parents, visited, [], map[], start, Some(start))
  {
  }

  lemma WalkOn(parents: Parents, visited: set<Id>, path: seq<Id>, positions: map<Id, nat>, start: Id, x: Id)
    requires Walk(parents, visited, path, positions, start, Some(x)) && x in parents && x !in positions && x !in visited
    ensures x !in path && Walk(parents, visited, path + [x], positions[x := |path|], start, parents[x])
  {
  }

  lemma Smaller(parents: Parents, path: seq<Id>, x: Id)
    requires x in parents && x !in path
    ensures |parents.Keys - Elements(path + [x])| < |parents.Keys - Elements(path)|
  {
    assert parents.Keys - Elements(path + [x]) == parents.Keys - Elements(path) - {x};
    assert x in parents.Keys - Elements(path);
  }

  /** The whole check: nothing is reported if and only if nothing is on a cycle; each self-parent, and each longer
      cycle, is reported exactly once. */
  method ValidateParentGraph(parents: Parents, keys: seq<Id>) returns (errors: seq<Error>)
    requires Lists(keys, parents)
    ensures forall e :: e in errors ==> Genuine(parents, e)
    ensures forall x :: SelfReports(errors, x) == if SelfLoop(parents, x) then 1 else 0
    ensures forall x :: Reports(errors, x) == if OnLongCycle(parents, x) then 1 else 0
    ensures errors == [] <==> forall x :: !OnCycle(parents, x)
  {
    errors := ReportSelfParents(parents, keys);
    hide Covered, Genuine, OnCycle, Walk, WalkEnds;
    var visited: set<Id> := {};
    for i := 0 to |keys|
      invariant Covered(parents, visited, errors)
      invariant forall x :: x in keys[..i] ==> x in visited
    {
      var start := keys[i];
      assert keys[..i + 1] == keys[..i] + [start];
      if start in visited {
        continue;
      }
      var path, positions, current := Follow(parents, visited, start);
      WalkCovers(parents, visited, errors, path, positions, start, current);
      if current.Some? && current.value in positions {
        PositionWithin(parents, visited, path, positions, start, current);
        var cycle := path[positions[current.value]..] + [current.value];
        if |cycle| > 2 {
          errors := errors + [Cycle(cycle)];
        } else {
          assert errors + [] == errors;
        }
      } else {
        assert errors + [] == errors;
      }
      visited := visited + Elements(path);
    }
    assert keys[..|keys|] == keys;
    AllReported(parents, keys, visited, errors);
  }

  lemma PositionWithin(parents: Parents, visited: set<Id>, path: seq<Id>, positions: map<Id, nat>, start: Id, current: Option<Id>)
    requires Walk(parents, visited, path, positions, start, current) && current.Some? && current.value in positions
    ensures positions[current.value] < |path|
  {
  }

  lemma AllReported(parents: Parents, keys: seq<Id>, visited: set<Id>, errors: seq<Error>)
    requires Lists(keys, parents) && Covered(parents, visited, errors) && forall x :: x in keys ==> x in visited
    ensures forall e :: e in errors ==> Genuine(parents, e)
    ensures forall x :: SelfReports(errors, x) == if SelfLoop(parents, x) then 1 else 0
    ensures forall x :: Reports(errors, x) == if OnLongCycle(parents, x) then 1 else 0
    ensures errors == [] <==> forall x :: !OnCycle(parents, x)
  {
    forall x ensures Reports(errors, x) == if OnLongCycle(parents, x) then 1 else 0 {
      if OnCycle(parents, x) {
        OnCycleKnown(parents, x);
      }
    }
    if errors == [] {
      forall x ensures !OnCycle(parents, x) {
        assert Reports(errors, x) == 0 && SelfReports(errors, x) == 0;
      }
    } else {
      GenuineOnCycle(parents, errors[0]);
    }
  }

  lemma OnCycleKnown(parents: Parents, x: Id)
    requires OnCycle(parents, x)
    ensures x in parents
  {
  }

  lemma GenuineOnCycle(parents: Parents, e: Error)
    requires Genuine(parents, e)
    ensures exists x :: OnCycle(parents, x)
  {
    match e
    case SelfParent(x) => SelfLoopOnCycle(parents, x);
    case Cycle(path) =>
      var q := path[..|path| - 1];
      assert q[0] in q && OnCycle(parents, q[0]);
  }
}
