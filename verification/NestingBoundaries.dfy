/** The results about running text: what is balanced, and where it may be committed. */
module NestingBoundaries {
  import opened Runes
  import opened Scanner
  import opened ScanStructure
  import opened Nesting
  import opened NestingProof
  import opened NestingScan

  lemma {:induction false} ClosedAtEnd(u: Tables, f: string, s: Scan)
    requires s.i <= |f|
    ensures ClosedAt(u, f, s, |f|) == Balanced(ScanFrom(u, f, s))
    decreases |f| - s.i
  {
    hide Step, Balanced;
    if s.i == |f| {
    } else {
      ClosedAtEnd(u, f, Step(u, f, s));
    }
  }

  lemma UnwindsAll(layer: Layer, u: Tables, f: string, e: nat)
    ensures Unwinds(layer, u, f, 0, e, []) <==> WellNested(layer, u, f, e)
  {
    hide Made, Unwinds, Ends, Span;
    if Unwinds(layer, u, f, 0, e, []) {
      var n, m := UnwindsOf(layer, u, f, 0, e, []);
      EndsEmpty(layer, u, f, m, e);
    }
    if WellNested(layer, u, f, e) {
      var n :| Made(layer, u, f, 0, n, "") && Span(n) == e;
      EndsEmpty(layer, u, f, e, e);
      UnwindsBy(layer, u, f, 0, e, [], n, e);
    }
  }

  lemma ClosedIsClosedAt(u: Tables, f: string, e: nat)
    requires RunningText(f) && e <= |f|
    ensures Closed(u, f, e) <==> ClosedAt(u, f, INITIAL, e)
  {
    ClosedFrom(u, f, INITIAL, e);
    UnwindsAll(Brackets, u, f, e);
    UnwindsAll(Emphasis, u, f, e);
    assert Singles([]) == [];
    hide Unwinds, ClosedAt, WellNested;
  }

  /** A running text is balanced exactly if it closes every bracket, quote, emphasis and code that it opens. */
  lemma BalancedIffClosed(u: Tables, f: string)
    requires RunningText(f)
    ensures BalancedText(u, f) <==> Closed(u, f, |f|)
  {
    ClosedAtEnd(u, f, INITIAL);
    ClosedIsClosedAt(u, f, |f|);
    hide Closed, ClosedAt, Balanced;
  }

  // Pieces follow one another in one way only.

  lemma {:induction false} PathAppend(f: string, a: nat, i: nat, j: nat)
    requires Path(f, a, i) && a <= i && Piece(f, i, j)
    ensures Path(f, a, j)
    decreases i - a
  {
    hide CodeSpan;
    if a == i {
      assert i < j && Path(f, j, j);
    } else {
      var m: nat :| a < m <= i && Piece(f, a, m) && Path(f, m, i);
      PathAppend(f, m, i, j);
    }
  }

  lemma {:induction false} PathForward(f: string, a: nat, i: nat, k: nat)
    requires Path(f, a, i) && Path(f, a, k) && a <= i <= k
    ensures Path(f, i, k)
    decreases i - a
  {
    if a == i {
    } else {
      var m: nat :| a < m <= i && Piece(f, a, m) && Path(f, m, i);
      var l: nat :| a < l <= k && Piece(f, a, l) && Path(f, l, k);
      PieceUnique(f, a, m, l);
      PathForward(f, m, i, k);
    }
  }

  /** No piece of running text begins or ends within another piece. */
  lemma NoneWithin(f: string, i: nat, j: nat, a: nat, b: nat)
    requires Path(f, 0, i) && Piece(f, i, j) && Running(f, a, b) && i < b
    ensures (a == i && b == j) || a >= j
  {
    hide CodeSpan;
    if a < i {
      PathForward(f, 0, a, i);
      var m: nat :| a < m <= i && Piece(f, a, m) && Path(f, m, i);
      PieceUnique(f, a, m, b);
    } else if a == i {
      PieceUnique(f, i, j, b);
    } else {
      PathForward(f, 0, i, a);
      var m: nat :| i < m <= a && Piece(f, i, m) && Path(f, m, a);
      PieceUnique(f, i, j, m);
    }
  }

  /** A sentence waits behind `i`: it has ended, and there was no pause since, not even at `i`. */
  ghost predicate Waits(u: Tables, f: string, i: nat) {
    exists j: nat :: j < i && j < |f| && Running(f, j, j + 1) && FullStop(u, f, j) && forall p: nat :: j < p <= i ==> !Pause(u, f, p)
  }

  lemma NoPauseWithin(u: Tables, f: string, i: nat, j: nat, p: nat)
    requires Path(f, 0, i) && Piece(f, i, j) && i < p <= j && Pause(u, f, p)
    ensures p == j && f[i] != '\\' && f[i] != '`'
  {
    hide Closed, Piece;
    var a: nat :| Running(f, a, p);
    NoneWithin(f, i, j, a, p);
    RunningForward(f, a, p);
  }

  lemma RunningForward(f: string, a: nat, b: nat)
    requires Running(f, a, b)
    ensures a < b <= |f|
  {
    hide CodeSpan;
  }

  /** Whether a sentence waits before the end of the piece at `i`. */
  lemma WaitsAcross(u: Tables, f: string, i: nat, j: nat)
    requires Path(f, 0, i) && Piece(f, i, j) && i < j <= |f|
    ensures SentenceWaits(u, f, j) <==> Waits(u, f, i) || (j == i + 1 && Running(f, i, j) && FullStop(u, f, i))
    ensures Waits(u, f, j) <==> SentenceWaits(u, f, j) && !Pause(u, f, j)
  {
    hide Pause, FullStop, Piece, Running;
    if Waits(u, f, i) {
      var k: nat :| k < i && k < |f| && Running(f, k, k + 1) && FullStop(u, f, k) && forall p: nat :: k < p <= i ==> !Pause(u, f, p);
      forall p: nat | k < p < j ensures !Pause(u, f, p) {
        if i < p && Pause(u, f, p) {
          NoPauseWithin(u, f, i, j, p);
        }
      }
    }
    if j == i + 1 && Running(f, i, j) && FullStop(u, f, i) {
      assert forall p: nat :: i < p < j ==> !Pause(u, f, p);
    }
    if SentenceWaits(u, f, j) {
      var k: nat :| k < j && k < |f| && Running(f, k, k + 1) && FullStop(u, f, k) && forall p: nat :: k < p < j ==> !Pause(u, f, p);
      if k >= i {
        NoneWithin(f, i, j, k, k + 1);
      }
    }
  }

  // The stages of one token, and where it places a boundary.

  lemma StopIs(u: Tables, f: string, i: nat)
    requires i < |f| && f[i] != '\\' && f[i] != '`'
    ensures var k := TokenAt(f, i);
            IsStop(k.c) && !PlainStop(u, k) <==> k.end == i + 1 && FullStop(u, f, i)
    ensures IsFirmStop(f[i]) == EndsFirmly(f[i])
  {
    TokenIsPiece(f, i);
    NumberIs(f, i);
    hide AfterNumber, NumberPrefix, LinePrefix, IsSpace;
  }

  lemma CommitIs(s: Scan, k: Token)
    requires s.fence == ""
    ensures var r := Commit(s, k);
            var place := Balanced(s) && (k.c == NEWLINE || (s.pending && ((!k.last && IsSpace(k.next)) || IsFirmStop(k.c))));
            && r.boundaries == (if place then Append(s.boundaries, k.end) else s.boundaries)
            && r.pending == (if place then false else s.pending)
  {
    hide Append, IsSpace, IsFirmStop;
  }

  /** One token of running text: what it does to the waiting sentence and to the boundaries. */
  lemma TokenCommits(u: Tables, f: string, s: Scan)
    requires RunningText(f) && AtText(f, s) && s.i < |f| && f[s.i] != '\\' && f[s.i] != '`'
    ensures var s' := Step(u, f, s); var j := s'.i; var c := f[s.i];
            var pending := s.pending || (j == s.i + 1 && FullStop(u, f, s.i));
            var place := Balanced(s') && (c == NEWLINE || (pending && ((j < |f| && IsSpace(f[j])) || EndsFirmly(c))));
            && s.i < j <= |f|
            && s'.boundaries == (if place then Append(s.boundaries, j) else s.boundaries)
            && s'.pending == (if place then false else pending)
  {
    NoLineMode(f, s);
    var k := TokenAt(f, s.i);
    TokenIsPiece(f, s.i);
    StopIs(u, f, s.i);
    StageFields(u, s, k);
    var m := Emphasize(u, s, k);
    StageFields(u, m, k);
    var b := Bracket(u, m, k);
    var t := Sentence(u, b, k);
    hide Emphasize, Bracket, TokenAt, LineMode, RunningText, Append, IsSpace, FullStop, PlainStop, IsStop, IsFirmStop, EndsFirmly;
    CommitIs(t, k);
    StagesLeave(u, b, k);
    assert Step(u, f, s) == Commit(t, k).(i := k.end);
    hide Step, Commit;
  }

  /** The last character of a piece of running text. */
  lemma LastOfPiece(f: string, i: nat, j: nat)
    requires Piece(f, i, j) && f[i] != '\\' && f[i] != '`'
    ensures f[j - 1] == f[i]
  {
  }

  /** The scan commits where the text may be committed. */
  lemma TokenMayCommit(u: Tables, f: string, s: Scan)
    requires RunningText(f) && AtText(f, s) && s.i < |f| && f[s.i] != '\\' && f[s.i] != '`'
    requires Path(f, 0, s.i) && (s.pending <==> Waits(u, f, s.i)) && Increasing(s.boundaries, s.i)
    requires Closed(u, f, Step(u, f, s).i) <==> Balanced(Step(u, f, s))
    ensures var s' := Step(u, f, s);
            && s.i < s'.i <= |f| && (s'.pending <==> Waits(u, f, s'.i)) && Path(f, 0, s'.i) && Increasing(s'.boundaries, s'.i)
            && s'.boundaries == (if MayCommit(u, f, s'.i) then s.boundaries + [s'.i] else s.boundaries)
  {
    TokenStep(u, f, s);
    TokenCommits(u, f, s);
    var s' := Step(u, f, s);
    var j := s'.i;
    AppendIncreasing(s.boundaries, s.i, j);
    LastOfPiece(f, s.i, j);
    PathAppend(f, 0, s.i, j);
    WaitsAcross(u, f, s.i, j);
    assert Running(f, s.i, j);
    hide Step, TextStep, Turned, RunningText, Piece, Path, Waits, SentenceWaits, FullStop, Closed, Balanced, Append, IsSpace, EndsFirmly;
    hide Running, EmphasisRole, BracketRole;
    assert Pause(u, f, j) <==> Closed(u, f, j) && (f[j - 1] == NEWLINE || EndsFirmly(f[j - 1]) || (j < |f| && IsSpace(f[j])));
  }

  /** A piece that is skipped places nothing, and nothing may be committed within it or behind it. */
  lemma SkippedCommits(u: Tables, f: string, i: nat, j: nat)
    requires Path(f, 0, i) && Piece(f, i, j) && (f[i] == '\\' || f[i] == '`')
    ensures i < j <= |f| && Path(f, 0, j) && (Waits(u, f, j) <==> Waits(u, f, i))
    ensures forall e: nat :: i < e <= j ==> !MayCommit(u, f, e)
  {
    PathAppend(f, 0, i, j);
    assert !Running(f, i, j);
    WaitsAcross(u, f, i, j);
    forall e: nat | i < e <= j ensures !Pause(u, f, e) {
      if Pause(u, f, e) {
        NoPauseWithin(u, f, i, j, e);
      }
    }
    hide Piece, Path, Waits, SentenceWaits, Running, FullStop, Pause;
  }

  /** What the scan knows in running text. */
  ghost predicate Knows(u: Tables, f: string, s: Scan) {
    && AtText(f, s) && Path(f, 0, s.i) && Increasing(s.boundaries, s.i) && (s.pending <==> Waits(u, f, s.i))
    && forall e: nat :: s.i <= e <= |f| ==> (Closed(u, f, e) <==> ClosedAt(u, f, s, e))
  }

  ghost predicate CommitsBeyond(u: Tables, f: string, s: Scan) {
    forall e: nat :: e in ScanFrom(u, f, s).boundaries <==> e in s.boundaries || (e > s.i && MayCommit(u, f, e))
  }

  lemma WithinText(u: Tables, f: string, e: nat)
    requires MayCommit(u, f, e)
    ensures e <= |f| && Closed(u, f, e)
  {
    hide Closed, Running, SentenceWaits;
  }

  lemma NothingBeyond(u: Tables, f: string)
    ensures forall e: nat :: e > |f| ==> !MayCommit(u, f, e)
  {
    forall e: nat | e > |f| ensures !MayCommit(u, f, e) {
      if MayCommit(u, f, e) {
        WithinText(u, f, e);
      }
    }
  }

  lemma SkipOn(u: Tables, f: string, s: Scan, p: Scan)
    requires Knows(u, f, s) && Arrives(u, f, s, p) && p == s.(i := p.i) && s.i < |f|
    requires Piece(f, s.i, p.i) && (f[s.i] == '\\' || f[s.i] == '`')
    ensures Knows(u, f, p)
  {
    hide Piece, Path, Waits, Closed, ClosedAt, ScanFrom;
    SkippedCommits(u, f, s.i, p.i);
  }

  /** Nothing is committed where nothing is closed. */
  lemma NotClosedBeyond(u: Tables, f: string, s: Scan)
    requires Knows(u, f, s) && ScanFrom(u, f, s).boundaries == s.boundaries
    requires forall e: nat :: e > s.i ==> !ClosedAt(u, f, s, e)
    ensures CommitsBeyond(u, f, s)
  {
    hide ClosedAt, Closed, ScanFrom, MayCommit;
    forall e: nat | e > s.i ensures !MayCommit(u, f, e) {
      if MayCommit(u, f, e) {
        WithinText(u, f, e);
      }
    }
  }

  lemma BackslashEnds(u: Tables, f: string, s: Scan)
    requires RunningText(f) && AtText(f, s) && s.i + 1 == |f| && f[s.i] == '\\'
    ensures ScanFrom(u, f, s).boundaries == s.boundaries
    ensures forall e: nat :: e > s.i ==> !ClosedAt(u, f, s, e)
  {
    LastBackslash(u, f, s);
    hide Step;
    forall e: nat | e > s.i ensures !ClosedAt(u, f, s, e) {
      InvalidStays(u, f, Step(u, f, s), e);
    }
  }

  lemma TokenOn(u: Tables, f: string, s: Scan)
    requires RunningText(f) && Knows(u, f, s) && s.i < |f| && f[s.i] != '\\' && f[s.i] != '`'
    ensures var s' := Step(u, f, s);
            && Knows(u, f, s') && s.i < s'.i && Piece(f, s.i, s'.i) && ScanFrom(u, f, s) == ScanFrom(u, f, s')
            && s'.boundaries == (if MayCommit(u, f, s'.i) then s.boundaries + [s'.i] else s.boundaries)
  {
    TokenStep(u, f, s);
    StepArrives(u, f, s);
    hide Step, Closed, RunningText, Turned, TextStep, Path, Waits, MayCommit, EmphasisRole, BracketRole, Piece;
    var s' := Step(u, f, s);
    assert ClosedAt(u, f, s', s'.i) == Balanced(s');
    hide ClosedAt, Balanced;
    TokenMayCommit(u, f, s);
  }

  lemma NoneInToken(u: Tables, f: string, i: nat, j: nat)
    requires Path(f, 0, i) && Piece(f, i, j)
    ensures forall e: nat :: i < e < j ==> !MayCommit(u, f, e)
  {
    hide Piece, Path;
    forall e: nat | i < e < j ensures !MayCommit(u, f, e) {
      if MayCommit(u, f, e) {
        NoPauseWithin(u, f, i, j, e);
      }
    }
  }

  lemma {:induction false} CommitsFrom(u: Tables, f: string, s: Scan)
    requires RunningText(f) && Knows(u, f, s)
    ensures CommitsBeyond(u, f, s)
    decreases |f| - s.i
  {
    hide MayCommit, Closed, Step, RunningText, Piece, CodeSpan, Path, Waits, ClosedAt, Balanced;
    if s.i == |f| {
      NothingBeyond(u, f);
    } else if f[s.i] == '`' {
      var closed, j := SkipCode(u, f, s);
      if closed {
        SkipOn(u, f, s, s.(i := j));
        CommitsFrom(u, f, s.(i := j));
        SkippedCommits(u, f, s.i, j);
      } else {
        NotClosedBeyond(u, f, s);
      }
    } else if f[s.i] == '\\' {
      if s.i + 1 < |f| {
        EscapeStep(u, f, s);
        StepArrives(u, f, s);
        SkipOn(u, f, s, s.(i := s.i + 2));
        CommitsFrom(u, f, s.(i := s.i + 2));
        SkippedCommits(u, f, s.i, s.i + 2);
      } else {
        LastBackslash(u, f, s);
        BackslashEnds(u, f, s);
        NotClosedBeyond(u, f, s);
      }
    } else {
      TokenOn(u, f, s);
      CommitsFrom(u, f, Step(u, f, s));
      NoneInToken(u, f, s.i, Step(u, f, s).i);
      hide ScanFrom;
    }
  }

  /** A running text may be committed exactly at the end of a line, and at a pause after the end of a sentence, with
      every bracket, quote, emphasis and code closed. */
  lemma BoundariesAreCommits(u: Tables, f: string)
    requires RunningText(f)
    ensures forall e: nat :: e in Boundaries(u, f) <==> MayCommit(u, f, e)
  {
    hide MayCommit, Closed, ClosedAt, ScanFrom;
    forall e: nat | e <= |f| ensures Closed(u, f, e) <==> ClosedAt(u, f, INITIAL, e) {
      ClosedIsClosedAt(u, f, e);
    }
    CommitsFrom(u, f, INITIAL);
    CommitPositive(u, f);
  }

  lemma CommitPositive(u: Tables, f: string)
    ensures !MayCommit(u, f, 0)
  {
    hide Closed, Running, SentenceWaits;
  }

  /** So may a finished text, and to its end if it closes what it opens. */
  lemma FinalCommits(u: Tables, f: string, allowTail: bool)
    requires RunningText(f)
    ensures forall e: nat :: e in FinalBoundaries(u, f, allowTail)
                             <==> MayCommit(u, f, e) || (allowTail && f != "" && e == |f| && Closed(u, f, e))
  {
    BoundariesAreCommits(u, f);
    BalancedIffClosed(u, f);
    hide MayCommit, Closed, ScanFrom;
  }
}
