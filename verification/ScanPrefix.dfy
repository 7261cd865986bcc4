/** Scanning a prefix of a text: which steps agree with the scan of the whole text. */
module ScanPrefix {
  import opened Runes
  import opened Scanner
  import opened ScanStructure

  lemma {:induction false} LineEndOfPrefix(f: string, k: nat, i: nat)
    requires i <= k <= |f|
    ensures LineEnd(f[..k], i) == if LineEnd(f, i) < k then LineEnd(f, i) else k
    decreases k - i
  {
    if i == k || f[i] == NEWLINE {
    } else {
      LineEndOfPrefix(f, k, i + 1);
    }
  }

  lemma {:induction false} LineStartOfPrefix(f: string, k: nat, i: nat)
    requires i <= k <= |f|
    ensures LineStart(f[..k], i) == LineStart(f, i)
    ensures LinePrefix(f[..k], i) == LinePrefix(f, i)
  {
    if AtLineStart(f, i) {
    } else {
      LineStartOfPrefix(f, k, i - 1);
    }
    assert f[..k][LineStart(f, i)..i] == f[LineStart(f, i)..i];
  }

  lemma {:induction false} RunEndOfPrefix(f: string, k: nat, i: nat, c: char)
    requires i <= k <= |f|
    ensures RunEnd(f[..k], i, c) == if RunEnd(f, i, c) < k then RunEnd(f, i, c) else k
    decreases k - i
  {
    if i == k || f[i] != c {
    } else {
      RunEndOfPrefix(f, k, i + 1, c);
    }
  }

  /** A step of the scan never jumps over the start of a line. */
  lemma StepStaysInLine(u: Tables, f: string, s: Scan)
    requires s.i < |f|
    ensures Step(u, f, s).i <= LineEnd(f, s.i) + 1
  {
    hide EmptyListLine, FenceMarker, FenceAfter, Emphasize, Bracket, Sentence, Commit;
    var e := LineEnd(f, s.i);
    if e < |f| {
      assert f[e] == NEWLINE;
    }
  }

  /** A complete line of the prefix is taken in the same way in the whole text. */
  lemma SameMode(f: string, k: nat, s: Scan)
    requires s.i < k <= |f|
    requires LineEnd(f, s.i) < k
    ensures LineMode(f[..k], s) == LineMode(f, s)
    ensures LineMode(f, s) ==> LineStep(f[..k], s) == LineStep(f, s)
  {
    hide EmptyListLine, FenceMarker, FenceAfter, LineEnd, Append;
    LineEndOfPrefix(f, k, s.i);
    assert f[..k][s.i..LineEnd(f, s.i)] == f[s.i..LineEnd(f, s.i)];
  }

  /** A token that the prefix does not end with is the same token. */
  lemma SameToken(f: string, k: nat, i: nat)
    requires i < k <= |f|
    requires TokenAt(f[..k], i).end < k
    ensures TokenAt(f[..k], i) == TokenAt(f, i)
  {
    RunEndOfPrefix(f, k, i, f[i]);
    LineStartOfPrefix(f, k, i);
    var end := TokenAt(f[..k], i).end;
    assert f[..k][i..end] == f[i..end];
  }

  /** A step that the prefix does not end with is the same step, when both take a line or both do not. */
  lemma SameStep(u: Tables, f: string, k: nat, s: Scan)
    requires s.i < k <= |f|
    requires LineMode(f[..k], s) == LineMode(f, s)
    requires Step(u, f[..k], s).i < k
    ensures Step(u, f[..k], s) == Step(u, f, s)
  {
    hide EmptyListLine, FenceMarker, FenceAfter, TextStep;
    var q := f[..k];
    LineEndOfPrefix(f, k, s.i);
    if LineMode(q, s) {
      SameMode(f, k, s);
    } else if q[s.i] == '`' {
      RunEndOfPrefix(f, k, s.i, '`');
      var end := RunEnd(f, s.i, '`');
      assert q[s.i..end] == f[s.i..end];
    } else if q[s.i] != '\\' && s.inline == "" {
      TextStepFields(u, s, TokenAt(q, s.i));
      SameToken(f, k, s.i);
    }
  }

  /** The same, seen from the whole text. */
  lemma SameStepBack(u: Tables, f: string, k: nat, s: Scan)
    requires s.i < k <= |f|
    requires LineMode(f[..k], s) == LineMode(f, s)
    requires Step(u, f, s).i < k
    ensures Step(u, f[..k], s) == Step(u, f, s)
  {
    hide EmptyListLine, FenceMarker, FenceAfter, Emphasize, Bracket, Sentence, Commit, LinePrefix, LineEnd;
    LineEndOfPrefix(f, k, s.i);
    RunEndOfPrefix(f, k, s.i, f[s.i]);
    SameStep(u, f, k, s);
  }

  /** The token that the prefix ends with starts in the same way and ends no later than in the whole text. */
  lemma LastToken(f: string, k: nat, i: nat)
    requires i < k <= |f|
    requires TokenAt(f[..k], i).end == k
    ensures var kq, kf := TokenAt(f[..k], i), TokenAt(f, i);
            && kq.last && kq.next == NONE && kq.c == kf.c && kq.previous == kf.previous && kq.prefix == kf.prefix
            && (!IsDelimiter(kq.c) ==> kf.end == k && kf.marker == kq.marker)
            && (kf.end == k ==> kf.marker == kq.marker)
  {
    RunEndOfPrefix(f, k, i, f[i]);
    LineStartOfPrefix(f, k, i);
    assert f[..k][i..k] == f[i..k];
  }

  /** A character that ends a sentence or a line by itself is taken without looking ahead. */
  lemma FirmToken(u: Tables, s: Scan, a: Token, b: Token)
    requires a.c == b.c && a.previous == b.previous && a.prefix == b.prefix && a.end == b.end && a.marker == b.marker
    requires a.c == NEWLINE || IsFirmStop(a.c)
    ensures TextStep(u, s, a).boundaries != s.boundaries ==>
              TextStep(u, s, a) == TextStep(u, s, b)
  {
    hide PlainRun, NumberPrefix, OpenerOf, Closes, Append;
  }

  lemma SoftToken(u: Tables, s: Scan, a: Token)
    requires a.last && a.c != NEWLINE && !IsFirmStop(a.c)
    ensures TextStep(u, s, a).boundaries == s.boundaries
  {
    hide Emphasize, Bracket, Sentence, IsSpace;
    var e := Emphasize(u, s, a);
    var b := Bracket(u, e, a);
    StageFields(u, s, a);
    StageFields(u, e, a);
    StageFields(u, b, a);
  }

  /** The last step of a prefix places no boundary that the whole text does not place. */
  lemma LastStep(u: Tables, f: string, k: nat, s: Scan)
    requires s.i < k <= |f| && Shaped(f, s)
    requires !LineMode(f[..k], s) && !LineMode(f, s)
    requires Step(u, f[..k], s).i == k
    ensures Step(u, f[..k], s).boundaries <= Step(u, f, s).boundaries
  {
    hide EmptyListLine, FenceMarker, TextStep, LinePrefix;
    var q := f[..k];
    StepShaped(u, f, s);
    if q[s.i] != '\\' && q[s.i] != '`' && s.inline == "" {
      TextStepFields(u, s, TokenAt(q, s.i));
      LastToken(f, k, s.i);
      if f[s.i] == NEWLINE || IsFirmStop(f[s.i]) {
        FirmToken(u, s, TokenAt(q, s.i), TokenAt(f, s.i));
      } else {
        SoftToken(u, s, TokenAt(q, s.i));
      }
    } else if q[s.i] == '\\' {
      if s.inline == "" && s.i + 1 == k {
        TextStepFields(u, s.(valid := false), TokenAt(q, s.i));
        LastToken(f, k, s.i);
        SoftToken(u, s.(valid := false), TokenAt(q, s.i));
      }
    }
  }
}
