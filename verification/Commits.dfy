/** Commit points above what is already committed, and what is spoken between them. */
module Commits {
  import opened Runes
  import opened Scanner
  import opened ScanStructure

  /** Strictly increasing between `from`, exclusive, and `limit`, inclusive. */
  ghost predicate Rising(cuts: seq<nat>, from: nat, limit: nat) {
    && (forall j, k :: 0 <= j < k < |cuts| ==> cuts[j] < cuts[k])
    && (forall j :: 0 <= j < |cuts| ==> from < cuts[j] <= limit)
  }

  /** The boundaries beyond `from`, in order. */
  function Above(boundaries: seq<nat>, from: nat): seq<nat> {
    if boundaries == [] then []
    else if boundaries[0] <= from then Above(boundaries[1..], from)
    else [boundaries[0]] + Above(boundaries[1..], boundaries[0])
  }

  function LastOr(cuts: seq<nat>, from: nat): nat {
    if cuts == [] then from else cuts[|cuts| - 1]
  }

  lemma {:induction false} AboveAppend(b: seq<nat>, end: nat, from: nat)
    ensures Above(b + [end], from) == if end > LastOr(Above(b, from), from) then Above(b, from) + [end] else Above(b, from)
  {
    if b == [] {
      assert b + [end] == [end];
    } else {
      assert (b + [end])[0] == b[0] && (b + [end])[1..] == b[1..] + [end];
      if b[0] <= from {
        AboveAppend(b[1..], end, from);
      } else {
        AboveAppend(b[1..], end, b[0]);
      }
    }
  }

  lemma {:induction false} AbovePrefix(a: seq<nat>, b: seq<nat>, from: nat)
    requires a <= b
    ensures Above(a, from) <= Above(b, from)
  {
    if a == [] {
    } else {
      AbovePrefix(a[1..], b[1..], if b[0] <= from then from else b[0]);
    }
  }

  /** Among increasing boundaries, exactly the ones beyond `from` remain. */
  lemma {:induction false} AboveIncreasing(b: seq<nat>, from: nat, limit: nat)
    requires Increasing(b, limit)
    ensures Rising(Above(b, from), from, limit)
    ensures forall c :: c in Above(b, from) <==> c in b && c > from
  {
    if b == [] {
    } else {
      var t, from' := b[1..], if b[0] <= from then from else b[0];
      assert Increasing(t, limit);
      AboveIncreasing(t, from', limit);
      forall c ensures c in Above(b, from) <==> c in b && c > from {
        assert c in b <==> c == b[0] || c in t;
        if c in t {
          var j :| 0 <= j < |t| && t[j] == c;
          assert b[0] < b[j + 1];
        }
      }
    }
  }

  lemma Head(cuts: seq<nat>) returns (c: nat)
    requires cuts != []
    ensures c in cuts
  {
    c := cuts[0];
  }

  /** Two strictly increasing sequences with the same elements are equal. */
  lemma {:induction false} SameElements(a: seq<nat>, b: seq<nat>)
    requires forall j, k :: 0 <= j < k < |a| ==> a[j] < a[k]
    requires forall j, k :: 0 <= j < k < |b| ==> b[j] < b[k]
    requires forall c :: c in a <==> c in b
    ensures a == b
  {
    if a == [] {
      if b != [] {
        var _ := Head(b);
      }
    } else {
      assert a[0] in b && (b != [] ==> b[0] in a);
      var j :| 0 <= j < |b| && b[j] == a[0];
      var k :| 0 <= k < |a| && a[k] == b[0];
      assert a[0] == b[0];
      forall c ensures c in a[1..] <==> c in b[1..] {
        if c in a[1..] {
          assert c in b;
        }
        if c in b[1..] {
          assert c in a;
        }
      }
      SameElements(a[1..], b[1..]);
    }
  }

  /** Cutting in two goes is cutting in one: first up to some cut, then beyond it. */
  lemma AboveInTwo(b: seq<nat>, from: nat, done: seq<nat>, limit: nat)
    requires Increasing(b, limit) && done <= Above(b, from)
    ensures done + Above(b, LastOr(done, from)) == Above(b, from)
  {
    var all, m := Above(b, from), LastOr(done, from);
    var rest := Above(b, m);
    AboveIncreasing(b, from, limit);
    AboveIncreasing(b, m, limit);
    assert all == done + all[|done|..];
    forall c ensures c in all[|done|..] <==> c in rest {
      if c in all[|done|..] {
        assert c in all && c in b;
      }
      if c in rest {
        assert c in b && c > m;
        assert c in all;
        assert c !in done;
      }
    }
    SameElements(all[|done|..], rest);
  }

  function Stretch(text: string, from: nat, to: nat): string {
    if from <= to <= |text| then text[from..to] else ""
  }

  /** What is spoken of the stretches between consecutive cuts: nothing for a stretch without speech. */
  function Spoken(speech: string -> string, text: string, from: nat, cuts: seq<nat>): seq<string> {
    if cuts == [] then []
    else
      var n := |cuts| - 1;
      Spoken(speech, text, from, cuts[..n]) + Unit(speech(Stretch(text, LastOr(cuts[..n], from), cuts[n])))
  }

  function Unit(s: string): seq<string> {
    if s == "" then [] else [s]
  }

  lemma SpokenAppend(speech: string -> string, text: string, from: nat, cuts: seq<nat>, end: nat)
    ensures Spoken(speech, text, from, cuts + [end])
            == Spoken(speech, text, from, cuts) + Unit(speech(Stretch(text, LastOr(cuts, from), end)))
  {
    assert (cuts + [end])[..|cuts|] == cuts;
  }

  lemma {:induction false} SpokenExtends(speech: string -> string, text: string, longer: string, from: nat, cuts: seq<nat>)
    requires Rising(cuts, from, |text|) && text <= longer
    ensures Spoken(speech, text, from, cuts) == Spoken(speech, longer, from, cuts)
  {
    if cuts == [] {
    } else {
      var n := |cuts| - 1;
      var init, end := cuts[..n], cuts[n];
      assert cuts == init + [end];
      assert LastOr(init, from) <= end <= |text|;
      assert Rising(init, from, |text|);
      hide Spoken, Unit, Rising;
      SpokenExtends(speech, text, longer, from, init);
      SpokenAppend(speech, text, from, init, end);
      SpokenAppend(speech, longer, from, init, end);
      assert Stretch(text, LastOr(init, from), end) == Stretch(longer, LastOr(init, from), end);
    }
  }

  lemma {:induction false} SpokenConcat(speech: string -> string, text: string, from: nat, cuts: seq<nat>, more: seq<nat>)
    ensures Spoken(speech, text, from, cuts + more)
            == Spoken(speech, text, from, cuts) + Spoken(speech, text, LastOr(cuts, from), more)
  {
    if more == [] {
      assert cuts + more == cuts;
    } else {
      var n, m := |more| - 1, LastOr(cuts, from);
      var init, end := more[..n], more[n];
      assert more == init + [end];
      assert cuts + more == (cuts + init) + [end];
      assert LastOr(cuts + init, from) == LastOr(init, m);
      hide Unit, Stretch, Spoken, LastOr;
      SpokenConcat(speech, text, from, cuts, init);
      SpokenAppend(speech, text, from, cuts + init, end);
      SpokenAppend(speech, text, m, init, end);
    }
  }

  lemma RisingConcat(cuts: seq<nat>, more: seq<nat>, from: nat, middle: nat, limit: nat)
    requires Rising(cuts, from, middle) && Rising(more, middle, limit) && from <= middle <= limit
    ensures Rising(cuts + more, from, limit)
  {
  }

  function Flatten(batches: seq<seq<string>>): seq<string> {
    if batches == [] then [] else Flatten(batches[..|batches| - 1]) + batches[|batches| - 1]
  }

  function Concat(deltas: seq<string>): string {
    if deltas == [] then "" else Concat(deltas[..|deltas| - 1]) + deltas[|deltas| - 1]
  }
}
