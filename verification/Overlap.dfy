/** How much of a continuation merely repeats the committed prefix. */
module Overlap {
  import opened Runes
  import opened Scanner

  /** A repetition may start at the beginning of the prefix or just after a sentence or a line. */
  predicate Mark(prefix: string, offset: nat)
    requires offset <= |prefix|
  {
    offset == 0 || IsStop(prefix[offset - 1]) || prefix[offset - 1] == NEWLINE
  }

  /** The first `k` characters of `raw` repeat the end of the prefix, from a mark on. */
  predicate Repeats(prefix: string, raw: string, k: nat) {
    && k <= |prefix| && k <= |raw|
    && (k == 0 || (Mark(prefix, |prefix| - k) && raw[..k] == prefix[|prefix| - k..]))
  }

  /** `raw` so far may still turn out to repeat a longer end of the prefix. */
  ghost predicate MayRepeatMore(prefix: string, raw: string) {
    exists offset: nat :: offset < |prefix| && Mark(prefix, offset) && raw < prefix[offset..]
  }

  function LongestUpTo(prefix: string, raw: string, k: nat): (n: nat)
    ensures n <= k && Repeats(prefix, raw, n)
    ensures forall j: nat :: n < j <= k ==> !Repeats(prefix, raw, j)
  {
    if k == 0 || Repeats(prefix, raw, k) then k else LongestUpTo(prefix, raw, k - 1)
  }

  /** The longest repetition. */
  function Longest(prefix: string, raw: string): (n: nat)
    ensures n <= |raw|
  {
    LongestUpTo(prefix, raw, |prefix|)
  }

  lemma LongestRepeats(prefix: string, raw: string)
    ensures Repeats(prefix, raw, Longest(prefix, raw))
    ensures forall j: nat :: Repeats(prefix, raw, j) ==> j <= Longest(prefix, raw)
  {
  }

  lemma IsLongest(prefix: string, raw: string, k: nat)
    requires Repeats(prefix, raw, k) && forall j: nat :: Repeats(prefix, raw, j) ==> j <= k
    ensures k == Longest(prefix, raw)
  {
    LongestRepeats(prefix, raw);
  }

  ghost predicate Resolved(prefix: string, raw: string) {
    prefix == "" || !MayRepeatMore(prefix, raw)
  }

  /** A mark before `end` from which `raw` may still repeat. */
  ghost predicate MayRepeatBefore(prefix: string, raw: string, end: nat)
    requires end <= |prefix|
  {
    exists o: nat :: o < end && Mark(prefix, o) && raw < prefix[o..]
  }

  /** The longest repetition among those that start before `end`. */
  ghost predicate BestBefore(prefix: string, raw: string, end: nat, best: nat) {
    Repeats(prefix, raw, best) && forall k: nat :: |prefix| - end < k && Repeats(prefix, raw, k) ==> k <= best
  }

  /** One more offset, which may be a mark or not. */
  lemma OneMark(prefix: string, raw: string, offset: nat, best: nat)
    requires offset < |prefix| && BestBefore(prefix, raw, offset, best)
    ensures MayRepeatBefore(prefix, raw, offset + 1)
            <==> MayRepeatBefore(prefix, raw, offset) || (Mark(prefix, offset) && raw < prefix[offset..])
    ensures BestBefore(prefix, raw, offset + 1,
                       if Mark(prefix, offset) && prefix[offset..] <= raw && |prefix| - offset > best then |prefix| - offset else best)
  {
    hide Mark;
    var k := |prefix| - offset;
    assert prefix[|prefix| - k..] == prefix[offset..];
    assert Repeats(prefix, raw, k) <==> Mark(prefix, offset) && prefix[offset..] <= raw;
  }

  /** Looks at every mark of the prefix once; `final` forces a decision. */
  method GenerationOverlap(prefix: string, raw: string, final: bool) returns (best: nat, resolved: bool)
    ensures resolved <==> final || Resolved(prefix, raw)
    ensures best == if resolved then Longest(prefix, raw) else 0
  {
    if prefix == "" {
      return 0, true;
    }
    hide IsStop, Longest, BestBefore, MayRepeatBefore;
    NoMark(prefix, raw);
    var waiting := false;
    best := 0;
    for offset := 0 to |prefix|
      invariant waiting <==> MayRepeatBefore(prefix, raw, offset)
      invariant BestBefore(prefix, raw, offset, best)
    {
      OneMark(prefix, raw, offset, best);
      if offset > 0 && !(IsStop(prefix[offset - 1]) || prefix[offset - 1] == NEWLINE) {
        continue;
      }
      var candidate := prefix[offset..];
      if raw <= candidate && |raw| < |candidate| {
        waiting := true;
      }
      if candidate <= raw && |candidate| > best {
        best := |candidate|;
      }
    }
    AllMarks(prefix, raw, best);
    if waiting && !final {
      return 0, false;
    }
    return best, true;
  }

  lemma NoMark(prefix: string, raw: string)
    ensures !MayRepeatBefore(prefix, raw, 0) && BestBefore(prefix, raw, 0, 0)
  {
  }

  lemma AllMarks(prefix: string, raw: string, best: nat)
    requires BestBefore(prefix, raw, |prefix|, best) && prefix != ""
    ensures best == Longest(prefix, raw) && (MayRepeatBefore(prefix, raw, |prefix|) <==> !Resolved(prefix, raw))
  {
    hide Mark, Longest;
    IsLongest(prefix, raw, best);
  }

  /** A resolved overlap is final: every continuation resolves to the same repetition. */
  lemma ResolvedIsStable(prefix: string, raw: string, more: string)
    requires Resolved(prefix, raw)
    ensures Resolved(prefix, raw + more)
    ensures Longest(prefix, raw + more) == Longest(prefix, raw)
  {
    var longer := raw + more;
    LongestRepeats(prefix, raw);
    LongestRepeats(prefix, longer);
    if prefix != "" {
      assert !MayRepeatMore(prefix, longer);
      var k, n := Longest(prefix, longer), Longest(prefix, raw);
      assert k <= |raw|;
      assert longer[..k] == raw[..k] && longer[..n] == raw[..n];
      assert Repeats(prefix, raw, k) && Repeats(prefix, longer, n);
    }
  }

  /** A decision is made as soon as it can be: exactly when all continuations agree on what is repeated. */
  lemma ResolvedIffDecided(prefix: string, raw: string)
    ensures Resolved(prefix, raw) <==>
            forall more: string, rest: string :: Longest(prefix, raw + more) == Longest(prefix, raw + rest)
  {
    LongestRepeats(prefix, raw);
    if Resolved(prefix, raw) {
      forall more: string, rest: string ensures Longest(prefix, raw + more) == Longest(prefix, raw + rest) {
        ResolvedIsStable(prefix, raw, more);
        ResolvedIsStable(prefix, raw, rest);
      }
    } else {
      var offset: nat :| offset < |prefix| && Mark(prefix, offset) && raw < prefix[offset..];
      var candidate := prefix[offset..];
      var more := candidate[|raw|..];
      assert raw + more == candidate;
      LongestRepeats(prefix, raw + more);
      assert Repeats(prefix, raw + more, |candidate|);
      assert Longest(prefix, raw + more) > |raw| >= Longest(prefix, raw);
      assert raw + "" == raw;
    }
  }
}
