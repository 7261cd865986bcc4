/** The append-only transcript of a generation, what is delivered of it, and how one segment extends it. */
module Transcripts {
  import opened Runes
  import opened Scanner
  import opened ScanStructure
  import opened Overlap
  import opened Commits
  import opened Speech
  import opened SegmentCommits
  import opened Options
  import opened Generation

  const MAX_PROGRESS := 64

  function LastText(prefix: string, events: seq<Progress>): string {
    if events == [] then prefix else events[|events| - 1].text
  }

  /** Every delivery shows more text than the one before, and hands out its batch of units. */
  ghost predicate Deliveries(prefix: string, events: seq<Progress>, batches: seq<seq<string>>) {
    && |batches| == |events|
    && (forall j :: 0 <= j < |events| ==> HandsOut(events[j].units, batches[j]))
    && (forall j :: 0 <= j < |events| ==> prefix < events[j].text)
    && (forall j, k :: 0 <= j < k < |events| ==> events[j].text < events[k].text)
  }

  /** The state of a transcript: it only grows, and what is spoken of it is delivered in order, once. */
  datatype Ledger = Ledger(
    committed: string,
    cuts: seq<nat>,
    delivered: string,
    pendingSpeech: seq<string>,
    events: seq<Progress>,
    batches: seq<seq<string>>)

  /** What was delivered and what waits is exactly what is spoken of the committed text. */
  ghost predicate Accounted(speech: string -> string, prefix: string, w: Ledger) {
    Flatten(w.batches) + w.pendingSpeech == Spoken(speech, w.committed, |prefix|, w.cuts)
  }

  ghost predicate Sound(speech: string -> string, prefix: string, w: Ledger) {
    && prefix <= w.delivered <= w.committed
    && Rising(w.cuts, |prefix|, |w.committed|) && LastOr(w.cuts, |prefix|) == |w.committed|
    && Accounted(speech, prefix, w)
    && Deliveries(prefix, w.events, w.batches)
    && w.delivered == LastText(prefix, w.events)
    && (w.committed == w.delivered ==> w.pendingSpeech == [])
  }

  function Delivered(w: Ledger, event: Progress): Ledger {
    w.(delivered := w.committed, pendingSpeech := [], events := w.events + [event], batches := w.batches + [w.pendingSpeech])
  }

  lemma DeliverSound(speech: string -> string, prefix: string, w: Ledger, event: Progress)
    requires Sound(speech, prefix, w) && w.delivered != w.committed
    requires event.text == w.committed && HandsOut(event.units, w.pendingSpeech)
    ensures Sound(speech, prefix, Delivered(w, event))
  {
    assert (w.batches + [w.pendingSpeech])[..|w.batches|] == w.batches;
    var w' := Delivered(w, event);
    assert Flatten(w'.batches) + [] == Flatten(w.batches) + w.pendingSpeech;
    DeliveriesGrow(prefix, w.events, w.batches, event, w.pendingSpeech);
  }

  lemma DeliveriesGrow(prefix: string, events: seq<Progress>, batches: seq<seq<string>>, event: Progress, batch: seq<string>)
    requires Deliveries(prefix, events, batches)
    requires prefix <= LastText(prefix, events) < event.text && HandsOut(event.units, batch)
    ensures Deliveries(prefix, events + [event], batches + [batch])
  {
    forall j | 0 <= j < |events| ensures events[j].text < event.text {
      assert events[j].text <= LastText(prefix, events);
    }
  }

  /** Commits a longer part of a candidate, at the given cuts. */
  function Extend(speech: string -> string, w: Ledger, candidate: string, added: seq<nat>): Ledger
    requires added != [] && added[|added| - 1] <= |candidate|
  {
    w.(committed := candidate[..added[|added| - 1]], cuts := w.cuts + added,
       pendingSpeech := w.pendingSpeech + Spoken(speech, candidate, |w.committed|, added))
  }

  lemma ExtendSound(speech: string -> string, prefix: string, w: Ledger, candidate: string, added: seq<nat>)
    requires Sound(speech, prefix, w) && w.committed <= candidate
    requires added != [] && Rising(added, |w.committed|, |candidate|)
    ensures Sound(speech, prefix, Extend(speech, w, candidate, added))
    ensures w.committed < Extend(speech, w, candidate, added).committed <= candidate
  {
    var next := candidate[..added[|added| - 1]];
    assert Rising(added, |w.committed|, |next|);
    RisingConcat(w.cuts, added, |prefix|, |w.committed|, |next|);
    AccountedExtend(speech, prefix, w, candidate, added);
  }

  lemma AccountedExtend(speech: string -> string, prefix: string, w: Ledger, candidate: string, added: seq<nat>)
    requires Accounted(speech, prefix, w) && w.committed <= candidate
    requires Rising(w.cuts, |prefix|, |w.committed|) && LastOr(w.cuts, |prefix|) == |w.committed|
    requires added != [] && Rising(added, |w.committed|, |candidate|)
    ensures Accounted(speech, prefix, Extend(speech, w, candidate, added))
  {
    SpokenExtend(speech, |prefix|, w.committed, candidate, w.cuts, added);
    var all, spoken := Flatten(w.batches), Spoken(speech, candidate, |w.committed|, added);
    ConcatAssociates(all, w.pendingSpeech, spoken);
  }

  lemma ConcatAssociates(a: seq<string>, b: seq<string>, c: seq<string>)
    ensures a + (b + c) == (a + b) + c
  {
  }

  lemma SpokenExtend(speech: string -> string, from: nat, committed: string, candidate: string, cuts: seq<nat>, added: seq<nat>)
    requires committed <= candidate && Rising(cuts, from, |committed|) && LastOr(cuts, from) == |committed|
    requires added != [] && Rising(added, |committed|, |candidate|)
    ensures Spoken(speech, candidate[..added[|added| - 1]], from, cuts + added)
            == Spoken(speech, committed, from, cuts) + Spoken(speech, candidate, |committed|, added)
  {
    var next := candidate[..added[|added| - 1]];
    assert committed == candidate[..|committed|];
    RisingWithin(added, |committed|, |candidate|);
    assert committed <= next <= candidate && |next| == added[|added| - 1];
    hide Spoken, Rising;
    SpokenExtends(speech, committed, next, from, cuts);
    SpokenExtends(speech, next, candidate, |committed|, added);
    SpokenConcat(speech, next, from, cuts, added);
  }

  /** One segment: the transcript it continues, what it has said so far, and how much of that repeats the end of
      the transcript. */
  datatype Segment = Segment(base: string, raw: string, overflow: bool, overlap: nat, overlapResolved: bool)

  /** The transcript is the segment's base, or a prefix of its candidate. */
  ghost predicate Inside(prefix: string, g: Segment, committed: string) {
    && prefix <= g.base <= committed
    && (!g.overlapResolved ==> committed == g.base && g.overlap == 0)
    && (g.overlapResolved ==> g.overlap == Longest(g.base, g.raw) && committed <= Candidate(g.base, g.raw))
    && Bytes(committed) <= MAX_TEXT_BYTES
  }

  /** The segment after one look: its overlap decided where possible, and its size checked. */
  ghost function Decided(g: Segment, final: bool): Segment {
    var resolved := g.overlapResolved || final || Resolved(g.base, g.raw);
    g.(overlapResolved := resolved, overlap := if resolved then Longest(g.base, g.raw) else 0,
       overflow := g.overflow || (resolved && Bytes(Candidate(g.base, g.raw)) > MAX_TEXT_BYTES))
  }

  /** What one look at a segment cuts: nothing before the overlap is decided, or above the size limit. */
  function PublishedCuts(u: Tables, g: Segment, allowTail: bool, from: nat): seq<nat> {
    var candidate := Candidate(g.base, g.raw);
    if g.overlapResolved && Bytes(candidate) <= MAX_TEXT_BYTES then Above(FinalBoundaries(u, candidate, allowTail), from) else []
  }

  /** The segment has said `raw`, in full, and its overlap is decided as soon as it can be. */
  ghost predicate Undisturbed(g: Segment, raw: string) {
    g.raw == raw && !g.overflow && (g.overlapResolved <==> Resolved(g.base, raw))
  }

  lemma DeltaFits(g: Segment, delta: string, streamed: string)
    requires g.raw + delta <= streamed && Bytes(g.base) + Bytes(streamed) <= MAX_TEXT_BYTES
    ensures Bytes(g.raw) + Bytes(delta) <= MAX_TEXT_BYTES
    ensures Bytes(Candidate(g.base, g.raw + delta)) <= MAX_TEXT_BYTES
  {
    hide Longest, Bytes, Candidate;
    var text := g.raw + delta;
    BytesConcat(g.raw, delta);
    BytesConcat(text, streamed[|text|..]);
    assert streamed == text + streamed[|text|..];
    CandidateBytes(g.base, text);
  }

  /** What one delta turns an undisturbed segment into. */
  ghost predicate Took(u: Tables, g: Segment, g': Segment, cuts: seq<nat>, cuts': seq<nat>, from: nat, delta: string) {
    if delta == "" then g' == g && cuts' == cuts
    else g' == Decided(g.(raw := g.raw + delta), false) && cuts' == cuts + PublishedCuts(u, g', false, from)
  }

  lemma DeltaUndisturbed(u: Tables, g: Segment, g': Segment, cuts: seq<nat>, cuts': seq<nat>, from: nat, delta: string)
    requires Undisturbed(g, g.raw) && Took(u, g, g', cuts, cuts', from, delta)
    requires Bytes(Candidate(g.base, g.raw + delta)) <= MAX_TEXT_BYTES
    ensures Undisturbed(g', g.raw + delta)
  {
    hide FinalBoundaries, Longest, Above, Bytes;
    if delta == "" {
      assert g.raw + delta == g.raw;
    } else if Resolved(g.base, g.raw) {
      ResolvedIsStable(g.base, g.raw, delta);
    }
  }

  /** One delta of an undisturbed segment keeps its cuts on the way to those of the whole text. */
  lemma DeltaStep(u: Tables, g: Segment, g': Segment, cuts: seq<nat>, cuts': seq<nat>, n: nat, delta: string, streamed: string)
    requires n <= |cuts|
    requires Took(u, g, g', cuts, cuts', LastOr(cuts[n..], |g.base|), delta)
    requires Undisturbed(g', g.raw + delta) && g.raw + delta <= streamed
    requires Bytes(Candidate(g.base, g.raw + delta)) <= MAX_TEXT_BYTES
    requires Steady(u, g.base, streamed) && OnTheWay(u, g.base, g.raw, streamed, cuts[n..])
    ensures n <= |cuts'| && OnTheWay(u, g.base, g.raw + delta, streamed, cuts'[n..])
  {
    hide Boundaries, FinalBoundaries, Longest;
    hide Boundaries, FinalBoundaries, Candidate, Resolved, Above, Bytes, Steady, PublishedCuts, OnTheWay;
    if delta == "" {
      assert g.raw + delta == g.raw;
    } else {
      OnTheWayStep(u, g.base, g.raw, delta, streamed, cuts[n..]);
      PublishedWhileStreaming(u, g', LastOr(cuts[n..], |g.base|));
      assert cuts'[n..] == cuts[n..] + PublishedCuts(u, g', false, LastOr(cuts[n..], |g.base|));
    }
  }

  lemma PublishedWhileStreaming(u: Tables, g: Segment, from: nat)
    requires Bytes(Candidate(g.base, g.raw)) <= MAX_TEXT_BYTES
    ensures PublishedCuts(u, g, false, from)
            == if g.overlapResolved then Above(Boundaries(u, Candidate(g.base, g.raw)), from) else []
  {
    hide Scanned, Longest, Bytes;
  }

  lemma PrefixBytes(text: string, longer: string)
    requires text <= longer
    ensures Bytes(text) <= Bytes(longer)
  {
    var rest := longer[|text|..];
    assert longer == text + rest;
    BytesConcat(text, rest);
  }

  lemma RisingWithin(cuts: seq<nat>, from: nat, limit: nat)
    requires cuts != [] && Rising(cuts, from, limit)
    ensures Rising(cuts, from, cuts[|cuts| - 1])
  {
  }

  lemma CutsSince(speech: string -> string, prefix: string, w: Ledger, cuts: seq<nat>, base: string)
    requires Sound(speech, prefix, w) && cuts <= w.cuts && LastOr(cuts, |prefix|) == |base|
    ensures LastOr(w.cuts[|cuts|..], |base|) == |w.committed|
  {
    hide Accounted, Deliveries;
  }

  /** An undisturbed segment that has said `text` so far and will have said `streamed`: its cuts are on the way. */
  ghost predicate Flowing(u: Tables, g: Segment, cuts: seq<nat>, n: nat, text: string, streamed: string) {
    && Undisturbed(g, text) && n <= |cuts|
    && (Steady(u, g.base, streamed) ==> OnTheWay(u, g.base, text, streamed, cuts[n..]))
  }

  lemma FlowStep(u: Tables, g: Segment, g': Segment, cuts: seq<nat>, cuts': seq<nat>, n: nat, text: string, delta: string, streamed: string)
    requires Flowing(u, g, cuts, n, text, streamed) && text + delta <= streamed
    requires Bytes(g.base) + Bytes(streamed) <= MAX_TEXT_BYTES
    requires Took(u, g, g', cuts, cuts', LastOr(cuts[n..], |g.base|), delta)
    ensures Flowing(u, g', cuts', n, text + delta, streamed) && g'.base == g.base
  {
    DeltaFits(g, delta, streamed);
    DeltaUndisturbed(u, g, g', cuts, cuts', LastOr(cuts[n..], |g.base|), delta);
    if Steady(u, g.base, streamed) {
      DeltaStep(u, g, g', cuts, cuts', n, delta, streamed);
    }
  }

  lemma FlowStart(u: Tables, base: string, cuts: seq<nat>, streamed: string)
    ensures Flowing(u, Segment(base, "", false, 0, base == ""), cuts, |cuts|, "", streamed)
  {
    FreshSegment(base);
    OnTheWayStart(u, base, streamed);
    assert cuts[|cuts|..] == [];
  }

  lemma FlowEnd(u: Tables, g: Segment, cuts: seq<nat>, n: nat, streamed: string)
    requires Flowing(u, g, cuts, n, streamed, streamed)
    ensures g.raw == streamed && !g.overflow
    ensures Steady(u, g.base, streamed) ==> cuts[n..] == StreamCuts(u, g.base, streamed)
  {
    if Steady(u, g.base, streamed) {
      OnTheWayEnd(u, g.base, streamed, cuts[n..]);
    }
  }

  lemma FreshSegment(base: string)
    ensures Undisturbed(Segment(base, "", false, 0, base == ""), "")
  {
    if base != "" {
      assert Mark(base, 0) && "" < base[0..];
    }
  }

  lemma ConcatStep(deltas: seq<string>, j: nat)
    requires j < |deltas|
    ensures Concat(deltas[..j + 1]) == Concat(deltas[..j]) + deltas[j]
    ensures Concat(deltas[..j]) + deltas[j] <= Concat(deltas)
  {
    assert deltas[..j + 1][..j] == deltas[..j];
    ConcatPrefix(deltas, j + 1);
  }

  lemma FlowFits(u: Tables, g: Segment, cuts: seq<nat>, n: nat, text: string, delta: string, streamed: string)
    requires Flowing(u, g, cuts, n, text, streamed) && text + delta <= streamed
    requires Bytes(g.base) + Bytes(streamed) <= MAX_TEXT_BYTES
    ensures g.raw == text && Bytes(g.raw) + Bytes(delta) <= MAX_TEXT_BYTES
  {
    DeltaFits(g, delta, streamed);
  }

  lemma FlowTook(u: Tables, g: Segment, g': Segment, cuts: seq<nat>, cuts': seq<nat>, from: nat, delta: string)
    requires delta == "" ==> g' == g && cuts' == cuts
    requires delta != "" ==> g' == Decided(g.(raw := g.raw + delta), false) && cuts' == cuts + PublishedCuts(u, g', false, from)
    ensures Took(u, g, g', cuts, cuts', from, delta)
  {
  }
}
