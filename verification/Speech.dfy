/** How the units of one delivery are handed out as one, and that nothing of them is lost or moved. */
module Speech {
  import opened Runes
  import opened Generation
  import opened Commits

  /** Units of one delivery are joined by line feeds into one. */
  function Join(units: seq<string>): string {
    if units == [] then ""
    else if |units| == 1 then units[0]
    else Join(units[..|units| - 1]) + "\n" + units[|units| - 1]
  }

  /** The lines of a text, read from its characters. */
  function Lines(s: string): (lines: seq<string>)
    ensures |lines| >= 1
  {
    if s == "" then [""]
    else
      var n, init := |s| - 1, Lines(s[..|s| - 1]);
      if s[n] == NEWLINE then init + [""]
      else init[..|init| - 1] + [init[|init| - 1] + [s[n]]]
  }

  /** The units stand in the text one after the other, with exactly a line feed between them. */
  ghost predicate LieAt(text: string, units: seq<string>, starts: seq<nat>) {
    && |starts| == |units| > 0 && starts[0] == 0
    && (forall j :: 0 <= j < |units| ==> starts[j] + |units[j]| <= |text| && text[starts[j]..starts[j] + |units[j]|] == units[j])
    && (forall j :: 0 < j < |units| ==> starts[j] == starts[j - 1] + |units[j - 1]| + 1 && text[starts[j] - 1] == NEWLINE)
    && starts[|starts| - 1] + |units[|units| - 1]| == |text|
  }

  ghost predicate Carries(text: string, units: seq<string>) {
    exists starts :: LieAt(text, units, starts)
  }

  predicate OneLine(units: seq<string>) {
    forall j :: 0 <= j < |units| ==> NEWLINE !in units[j]
  }

  /** What a delivery hands out of a batch: all of its units, in order, as one, whose lines they are if each is one. */
  ghost predicate HandsOut(handed: seq<string>, batch: seq<string>) {
    if batch == [] then handed == []
    else |handed| == 1 && Carries(handed[0], batch) && (OneLine(batch) ==> Lines(handed[0]) == batch)
  }

  lemma {:induction false} LinesAppend(s: string, t: string)
    requires NEWLINE !in t
    ensures Lines(s + [NEWLINE] + t) == Lines(s) + [t]
  {
    var all := s + [NEWLINE] + t;
    if t == "" {
      assert all[..|all| - 1] == s;
    } else {
      var init := t[..|t| - 1];
      assert all[..|all| - 1] == s + [NEWLINE] + init && all[|all| - 1] == t[|t| - 1];
      LinesAppend(s, init);
      assert t == init + [t[|t| - 1]];
    }
  }

  lemma {:induction false} OneLineIsItself(t: string)
    requires NEWLINE !in t
    ensures Lines(t) == [t]
  {
    if t == "" {
    } else {
      OneLineIsItself(t[..|t| - 1]);
      assert t == t[..|t| - 1] + [t[|t| - 1]];
    }
  }

  /** Joining one-line units and reading the lines is the identity. */
  lemma {:induction false} LinesOfJoin(units: seq<string>)
    requires units != [] && OneLine(units)
    ensures Lines(Join(units)) == units
  {
    if |units| == 1 {
      OneLineIsItself(units[0]);
    } else {
      var init := units[..|units| - 1];
      var last := units[|units| - 1];
      assert Join(units) == Join(init) + [NEWLINE] + last;
      hide Join, Lines;
      LinesOfJoin(init);
      LinesAppend(Join(init), last);
      assert units == init + [last];
    }
  }

  /** The joined text carries its units, whatever they hold. */
  lemma {:induction false} JoinLies(units: seq<string>) returns (starts: seq<nat>)
    requires units != []
    ensures LieAt(Join(units), units, starts)
  {
    if |units| == 1 {
      starts := [0];
    } else {
      var init, last := units[..|units| - 1], units[|units| - 1];
      assert Join(units) == Join(init) + "\n" + last;
      hide Join;
      var before := JoinLies(init);
      starts := before + [|Join(init)| + 1];
      assert units == init + [last];
      LieFurther(Join(init), init, before, last);
    }
  }

  lemma LieFurther(text: string, units: seq<string>, starts: seq<nat>, last: string)
    requires LieAt(text, units, starts)
    ensures LieAt(text + "\n" + last, units + [last], starts + [|text| + 1])
  {
    var all := text + "\n" + last;
    assert all[|text|] == NEWLINE && all[|text| + 1..] == last;
    assert forall k :: 0 <= k < |text| ==> all[k] == text[k];
    forall j | 0 <= j < |units| ensures all[starts[j]..starts[j] + |units[j]|] == units[j] {
      assert text[starts[j]..starts[j] + |units[j]|] == units[j];
      SamePart(text, all, starts[j], starts[j] + |units[j]|);
    }
  }

  lemma SamePart(text: string, all: string, a: nat, b: nat)
    requires text <= all && a <= b <= |text|
    ensures all[a..b] == text[a..b]
  {
  }

  lemma JoinHandsOut(batch: seq<string>)
    ensures HandsOut(if batch == [] then [] else [Join(batch)], batch)
  {
    if batch != [] {
      var starts := JoinLies(batch);
      if OneLine(batch) {
        LinesOfJoin(batch);
      }
    }
  }

  /** Everything a listener is handed, line by line. */
  function Heard(events: seq<Progress>): seq<string> {
    if events == [] then []
    else
      var n := |events| - 1;
      Heard(events[..n]) + (if events[n].units == [] then [] else Lines(events[n].units[0]))
  }

  /** If every unit is one line, the lines that are handed out are the units, all of them, in order. */
  lemma {:induction false} HeardIsFlat(events: seq<Progress>, batches: seq<seq<string>>)
    requires |events| == |batches| && forall j :: 0 <= j < |events| ==> HandsOut(events[j].units, batches[j])
    requires OneLine(Flatten(batches))
    ensures Heard(events) == Flatten(batches)
  {
    if events == [] {
    } else {
      var n := |events| - 1;
      var init := Flatten(batches[..n]);
      assert Flatten(batches) == init + batches[n];
      assert forall j :: 0 <= j < |init| ==> Flatten(batches)[j] == init[j];
      assert forall j :: 0 <= j < |batches[n]| ==> Flatten(batches)[|init| + j] == batches[n][j];
      HeardIsFlat(events[..n], batches[..n]);
    }
  }

  /** Speech that is one line is spoken in one-line units. */
  lemma {:induction false} SpokenOneLine(speech: string -> string, text: string, from: nat, cuts: seq<nat>)
    requires forall t :: NEWLINE !in speech(t)
    ensures OneLine(Spoken(speech, text, from, cuts))
  {
    if cuts == [] {
    } else {
      SpokenOneLine(speech, text, from, cuts[..|cuts| - 1]);
    }
  }

  /** If the speech of every stretch is the stretch itself, what is spoken is the text between the cuts, once and in order. */
  lemma {:induction false} SpokenIsText(text: string, from: nat, cuts: seq<nat>)
    requires Rising(cuts, from, |text|) && from <= |text|
    ensures Concat(Spoken(Itself, text, from, cuts)) == text[from..LastOr(cuts, from)]
  {
    if cuts == [] {
    } else {
      var init, end := cuts[..|cuts| - 1], cuts[|cuts| - 1];
      var m := LastOr(init, from);
      assert from <= m < end <= |text| && Rising(init, from, |text|);
      assert cuts == init + [end] && text[from..end] == text[from..m] + text[m..end];
      hide Spoken, Rising, Concat;
      SpokenIsText(text, from, init);
      SpokenAppend(Itself, text, from, init, end);
      ConcatOne(Spoken(Itself, text, from, init), text[m..end]);
    }
  }

  function Itself(s: string): string {
    s
  }

  lemma ConcatOne(units: seq<string>, unit: string)
    ensures Concat(units + [unit]) == Concat(units) + unit
  {
    assert (units + [unit])[..|units|] == units;
  }
}
