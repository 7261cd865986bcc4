/** PCM16 mono WAVE files: a RIFF header followed by chunks, each with its identifier, size and padded payload. */
module Wav {
  import opened Options

  type Byte = b: int | 0 <= b < 256

  const MAX_WAV_BYTES := 8 * 0x100000
  const SECOND := 1_000_000_000

  const RIFF: seq<Byte> := [0x52, 0x49, 0x46, 0x46]
  const WAVE: seq<Byte> := [0x57, 0x41, 0x56, 0x45]
  const FORMAT: seq<Byte> := [0x66, 0x6D, 0x74, 0x20]
  const DATA: seq<Byte> := [0x64, 0x61, 0x74, 0x61]

  /** Little-endian numbers. */
  function U16(s: seq<Byte>, i: nat): (n: nat)
    requires i + 2 <= |s|
    ensures n < 0x10000
  {
    var low: int, high: int := s[i], s[i + 1];
    low + 0x100 * high
  }

  function U32(s: seq<Byte>, i: nat): (n: nat)
    requires i + 4 <= |s|
    ensures n < 0x1_0000_0000
  {
    U16(s, i) + 0x10000 * U16(s, i + 2)
  }

  /** A two's complement sample. */
  function Sample(s: seq<Byte>, i: nat): (v: int)
    requires i + 2 <= |s|
    ensures -0x8000 <= v < 0x8000
  {
    var n := U16(s, i);
    if n < 0x8000 then n else n - 0x10000
  }

  datatype Chunk = Chunk(id: seq<Byte>, start: nat, size: nat)

  function End(c: Chunk): nat {
    c.start + c.size + c.size % 2
  }

  /** The chunks from an offset to the end, if every one is in bounds. */
  function ChunksFrom(s: seq<Byte>, offset: nat): Option<seq<Chunk>>
    decreases |s| - offset
  {
    if offset >= |s| then Some([])
    else if offset + 8 > |s| then None
    else
      var c := Chunk(s[offset..offset + 4], offset + 8, U32(s, offset + 4));
      if End(c) > |s| then None
      else
        var rest := ChunksFrom(s, End(c));
        if rest.None? then None else Some([c] + rest.value)
  }

  function Count(chunks: seq<Chunk>, id: seq<Byte>): nat {
    if chunks == [] then 0 else Count(chunks[..|chunks| - 1], id) + (if chunks[|chunks| - 1].id == id then 1 else 0)
  }

  function Rate(s: seq<Byte>, c: Chunk): nat
    requires c.size >= 16 && c.start + c.size <= |s|
  {
    U32(s, c.start + 4)
  }

  /** PCM, one channel, 16 bits, between 8 and 48 kHz, with matching byte rate and frame size. */
  predicate ProperFormat(s: seq<Byte>, c: Chunk) {
    && c.size >= 16 && c.start + c.size <= |s|
    && U16(s, c.start) == 1 && U16(s, c.start + 2) == 1 && U16(s, c.start + 14) == 16 && U16(s, c.start + 12) == 2
    && 8000 <= Rate(s, c) <= 48000 && U32(s, c.start + 8) == Rate(s, c) * 2
  }

  predicate ProperChunk(s: seq<Byte>, c: Chunk) {
    && (c.id == FORMAT ==> ProperFormat(s, c))
    && (c.id == DATA ==> c.size > 0 && c.size % 2 == 0)
  }

  predicate Header(s: seq<Byte>) {
    && 44 <= |s| <= MAX_WAV_BYTES && s[..4] == RIFF && s[8..12] == WAVE && U32(s, 4) + 8 == |s|
  }

  /** One proper format chunk at `f` and one data chunk at `d`, and nothing out of bounds. */
  ghost predicate Layout(s: seq<Byte>, chunks: seq<Chunk>, f: nat, d: nat) {
    && Header(s) && ChunksFrom(s, 12) == Some(chunks)
    && Count(chunks, FORMAT) == 1 && Count(chunks, DATA) == 1
    && f < |chunks| && chunks[f].id == FORMAT && d < |chunks| && chunks[d].id == DATA
    && (forall j :: 0 <= j < |chunks| ==> ProperChunk(s, chunks[j]))
  }

  ghost predicate ValidWave(s: seq<Byte>, maxSeconds: int) {
    maxSeconds > 0 && exists chunks: seq<Chunk>, f: nat, d: nat :: Layout(s, chunks, f, d) && chunks[d].size <= Rate(s, chunks[f]) * 2 * maxSeconds
  }

  /** The duration in nanoseconds: the least that covers every frame. */
  predicate Covers(duration: nat, bytes: nat, rate: nat) {
    duration * rate >= bytes / 2 * SECOND > (duration - 1) * rate
  }

  lemma {:induction false} CountConcat(a: seq<Chunk>, b: seq<Chunk>, id: seq<Byte>)
    ensures Count(a + b, id) == Count(a, id) + Count(b, id)
  {
    if b == [] {
      assert a + b == a;
    } else {
      var b' := b[..|b| - 1];
      assert (a + b)[..|a + b| - 1] == a + b';
      CountConcat(a, b', id);
    }
  }

  lemma {:induction false} CountSome(chunks: seq<Chunk>, id: seq<Byte>)
    ensures Count(chunks, id) > 0 <==> exists j :: 0 <= j < |chunks| && chunks[j].id == id
  {
    if chunks == [] {
    } else {
      var init := chunks[..|chunks| - 1];
      CountSome(init, id);
      if j :| 0 <= j < |init| && init[j].id == id {
        assert chunks[j].id == id;
      }
      if j :| 0 <= j < |chunks| && chunks[j].id == id {
        assert j < |init| ==> init[j].id == id;
      }
    }
  }

  /** Only one chunk has an identifier that is counted once. */
  lemma {:induction false} OnlyOne(chunks: seq<Chunk>, id: seq<Byte>, i: nat, j: nat)
    requires i < j < |chunks| && chunks[i].id == id && chunks[j].id == id
    ensures Count(chunks, id) >= 2
  {
    CountConcat(chunks[..j], chunks[j..], id);
    assert chunks[..j] + chunks[j..] == chunks;
    CountSome(chunks[..j], id);
    CountSome(chunks[j..], id);
    assert chunks[..j][i].id == id && chunks[j..][0].id == id;
  }

  /** Every chunk lies within the file, and begins after the one before it. */
  lemma {:induction false} ChunksInBounds(s: seq<Byte>, offset: nat, chunks: seq<Chunk>)
    requires ChunksFrom(s, offset) == Some(chunks)
    ensures forall j :: 0 <= j < |chunks| ==> offset + 8 <= chunks[j].start && End(chunks[j]) <= |s|
    ensures forall i, j :: 0 <= i < j < |chunks| ==> End(chunks[i]) + 8 <= chunks[j].start
    decreases |s| - offset
  {
    if offset >= |s| {
    } else {
      var c := Chunk(s[offset..offset + 4], offset + 8, U32(s, offset + 4));
      ChunksInBounds(s, End(c), chunks[1..]);
      assert forall j :: 1 <= j < |chunks| ==> chunks[j] == chunks[1..][j - 1];
    }
  }

  function Prepend(seen: seq<Chunk>, rest: Option<seq<Chunk>>): Option<seq<Chunk>> {
    if rest.None? then None else Some(seen + rest.value)
  }

  /** What has been read up to an offset. */
  datatype Progress = Progress(hasFormat: bool, rate: nat, hasData: bool, bytes: nat)

  ghost predicate Read(s: seq<Byte>, offset: nat, seen: seq<Chunk>, p: Progress) {
    && ChunksFrom(s, 12) == Prepend(seen, ChunksFrom(s, offset))
    && Count(seen, FORMAT) == (if p.hasFormat then 1 else 0) && Count(seen, DATA) == (if p.hasData then 1 else 0)
    && (forall j :: 0 <= j < |seen| ==> ProperChunk(s, seen[j]))
    && (p.hasFormat ==> exists f: nat :: f < |seen| && seen[f].id == FORMAT && p.rate == Rate(s, seen[f]))
    && (p.hasData ==> exists d: nat :: d < |seen| && seen[d].id == DATA && p.bytes == seen[d].size)
  }

  /** The chunk at an offset fits neither the file nor what was read before. */
  ghost predicate Unfit(s: seq<Byte>, offset: nat, p: Progress)
    requires offset < |s|
  {
    offset + 8 > |s|
    || var c := ChunkAt(s, offset);
       End(c) > |s| || !ProperChunk(s, c) || (c.id == FORMAT && p.hasFormat) || (c.id == DATA && p.hasData)
  }

  function ChunkAt(s: seq<Byte>, offset: nat): Chunk
    requires offset + 8 <= |s|
  {
    Chunk(s[offset..offset + 4], offset + 8, U32(s, offset + 4))
  }

  function Advance(s: seq<Byte>, c: Chunk, p: Progress): Progress
    requires ProperChunk(s, c)
  {
    if c.id == FORMAT then p.(hasFormat := true, rate := Rate(s, c))
    else if c.id == DATA then p.(hasData := true, bytes := c.size)
    else p
  }

  /** A chunk that does not fit makes the whole file invalid. */
  lemma UnfitInvalid(s: seq<Byte>, offset: nat, seen: seq<Chunk>, p: Progress, maxSeconds: int)
    requires Read(s, offset, seen, p) && offset < |s| && Unfit(s, offset, p)
    ensures !ValidWave(s, maxSeconds)
  {
    if chunks: seq<Chunk>, f: nat, d: nat :| Layout(s, chunks, f, d) {
      var rest := ChunksFrom(s, offset).value;
      assert chunks == seen + rest;
      var c := ChunkAt(s, offset);
      assert chunks[|seen|] == rest[0] == c;
      CountConcat(seen, rest, FORMAT);
      CountConcat(seen, rest, DATA);
      CountSome(rest, c.id);
      assert false;
    }
  }

  lemma ReadOn(s: seq<Byte>, offset: nat, seen: seq<Chunk>, p: Progress)
    requires Read(s, offset, seen, p) && offset < |s| && !Unfit(s, offset, p)
    ensures var c := ChunkAt(s, offset); Read(s, End(c), seen + [c], Advance(s, c, p))
  {
    var c := ChunkAt(s, offset);
    var after, p' := seen + [c], Advance(s, c, p);
    assert after[..|seen|] == seen;
    if ChunksFrom(s, End(c)).Some? {
      assert after + ChunksFrom(s, End(c)).value == seen + ([c] + ChunksFrom(s, End(c)).value);
    }
    if p.hasFormat {
      var f: nat :| f < |seen| && seen[f].id == FORMAT && p.rate == Rate(s, seen[f]);
      assert after[f] == seen[f];
    }
    if p.hasData {
      var d: nat :| d < |seen| && seen[d].id == DATA && p.bytes == seen[d].size;
      assert after[d] == seen[d];
    }
    assert after[|seen|] == c;
  }

  lemma ReadStart(s: seq<Byte>)
    ensures Read(s, 12, [], Progress(false, 0, false, 0))
  {
    if ChunksFrom(s, 12).Some? {
      assert [] + ChunksFrom(s, 12).value == ChunksFrom(s, 12).value;
    }
  }

  /** What a file that was read to its end is worth. */
  lemma ReadAll(s: seq<Byte>, seen: seq<Chunk>, p: Progress, maxSeconds: int)
    requires Header(s) && Read(s, |s|, seen, p) && maxSeconds > 0
    ensures ValidWave(s, maxSeconds) <==> p.hasFormat && p.hasData && p.bytes <= p.rate * 2 * maxSeconds
    ensures p.hasFormat && p.hasData ==>
              exists f: nat, d: nat :: Layout(s, seen, f, d) && p.rate == Rate(s, seen[f]) && p.bytes == seen[d].size
  {
    assert seen + [] == seen;
    assert ChunksFrom(s, 12) == Some(seen);
    if p.hasFormat && p.hasData {
      var f: nat :| f < |seen| && seen[f].id == FORMAT && p.rate == Rate(s, seen[f]);
      var d: nat :| d < |seen| && seen[d].id == DATA && p.bytes == seen[d].size;
      assert Layout(s, seen, f, d);
    }
    if chunks: seq<Chunk>, f: nat, d: nat :| Layout(s, chunks, f, d) && chunks[d].size <= Rate(s, chunks[f]) * 2 * maxSeconds {
      assert chunks == seen;
      var f': nat :| f' < |seen| && seen[f'].id == FORMAT && p.rate == Rate(s, seen[f']);
      var d': nat :| d' < |seen| && seen[d'].id == DATA && p.bytes == seen[d'].size;
      SameIndex(seen, FORMAT, f, f');
      SameIndex(seen, DATA, d, d');
    }
  }

  lemma SameIndex(chunks: seq<Chunk>, id: seq<Byte>, i: nat, j: nat)
    requires i < |chunks| && j < |chunks| && chunks[i].id == id && chunks[j].id == id && Count(chunks, id) == 1
    ensures i == j
  {
    if i < j {
      OnlyOne(chunks, id, i, j);
    } else if j < i {
      OnlyOne(chunks, id, j, i);
    }
  }

  /** The rounded-up duration fits the limit, and no intermediate value overflows 63 bits. */
  lemma DurationFits(bytes: nat, rate: nat, maxSeconds: nat)
    requires 8000 <= rate <= 48000 && bytes <= rate * 2 * maxSeconds && bytes <= MAX_WAV_BYTES
    ensures var duration := (bytes / 2 * SECOND + rate - 1) / rate;
            Covers(duration, bytes, rate) && duration <= maxSeconds * SECOND
    ensures bytes / 2 * SECOND + rate - 1 < 0x8000_0000_0000_0000
  {
    var frames, bound := bytes / 2, maxSeconds * SECOND;
    var n := frames * SECOND;
    var duration := (n + rate - 1) / rate;
    DivRoundsUp(n, rate);
    assert frames <= rate * maxSeconds;
    MulGrows(rate * maxSeconds, frames, SECOND);
    assert bound * rate == rate * maxSeconds * SECOND;
    if duration > bound {
      MulGrows(duration - 1, bound, rate);
    }
  }

  lemma MulGrows(a: int, b: int, c: int)
    requires a >= b && c >= 0
    ensures a * c >= b * c
  {
  }

  lemma DivRoundsUp(n: nat, rate: nat)
    requires rate > 0
    ensures var q := (n + rate - 1) / rate; q * rate >= n > (q - 1) * rate
  {
    var m := n + rate - 1;
    assert m == m / rate * rate + m % rate;
  }

  /** Reads the chunks of a file to its end. */
  method ReadChunks(audio: array<Byte>) returns (ok: bool, p: Progress, ghost seen: seq<Chunk>)
    requires Header(audio[..])
    ensures ok ==> Read(audio[..], audio.Length, seen, p)
    ensures !ok ==> forall maxSeconds :: !ValidWave(audio[..], maxSeconds)
  {
    hide Read, Layout, ValidWave, Count, ProperChunk, Advance;
    ghost var s: seq<Byte> := audio[..];
    p, seen := Progress(false, 0, false, 0), [];
    var offset := 12;
    ReadStart(s);
    while offset < audio.Length
      invariant 12 <= offset <= audio.Length && Read(s, offset, seen, p)
    {
      ghost var before := p;
      var c := Chunk([], 0, 0);
      ok := offset + 8 <= audio.Length;
      if ok {
        c := ChunkAt(audio[..], offset);
        ok := c.size <= audio.Length - c.start;
      }
      if ok {
        ok, p := ReadChunk(audio, c, p);
        ok := ok && End(c) <= audio.Length;
      }
      if !ok {
        forall maxSeconds ensures !ValidWave(s, maxSeconds) {
          UnfitInvalid(s, offset, seen, before, maxSeconds);
        }
        return;
      }
      ReadOn(s, offset, seen, before);
      seen := seen + [c];
      offset := End(c);
    }
    ok := true;
  }

  /** Reads a file to its end before its duration is trusted. */
  method VoiceWavDuration(audio: array<Byte>, maxSeconds: int) returns (duration: nat, valid: bool)
    ensures valid <==> ValidWave(audio[..], maxSeconds)
    ensures valid ==> duration <= maxSeconds * SECOND
                      && exists chunks: seq<Chunk>, f: nat, d: nat ::
                           Layout(audio[..], chunks, f, d) && Covers(duration, chunks[d].size, Rate(audio[..], chunks[f]))
  {
    if maxSeconds <= 0 || audio.Length < 44 || audio.Length > MAX_WAV_BYTES || audio[..4] != RIFF || audio[8..12] != WAVE
       || U32(audio[..], 4) + 8 != audio.Length {
      Headless(audio[..], maxSeconds);
      return 0, false;
    }
    assert audio[..][..4] == audio[..4] && audio[..][8..12] == audio[8..12];
    hide Read, ValidWave, Layout, Covers, Header;
    var ok, p;
    ghost var seen;
    ok, p, seen := ReadChunks(audio);
    if !ok {
      return 0, false;
    }
    ReadAll(audio[..], seen, p, maxSeconds);
    if !p.hasFormat || !p.hasData || p.bytes > p.rate * 2 * maxSeconds {
      return 0, false;
    }
    Measured(audio[..], seen, p, maxSeconds);
    return (p.bytes / 2 * SECOND + p.rate - 1) / p.rate, true;
  }

  lemma Measured(s: seq<Byte>, seen: seq<Chunk>, p: Progress, maxSeconds: int)
    requires Header(s) && Read(s, |s|, seen, p) && maxSeconds > 0
    requires p.hasFormat && p.hasData && p.bytes <= p.rate * 2 * maxSeconds
    ensures p.rate > 0 && var duration := (p.bytes / 2 * SECOND + p.rate - 1) / p.rate;
            && 0 <= duration <= maxSeconds * SECOND
            && exists chunks: seq<Chunk>, f: nat, d: nat :: Layout(s, chunks, f, d) && Covers(duration, chunks[d].size, Rate(s, chunks[f]))
  {
    hide Read, ValidWave, Count, Covers, ChunksFrom, U32, U16, Header;
    ReadAll(s, seen, p, maxSeconds);
    var f: nat, d: nat :| Layout(s, seen, f, d) && p.rate == Rate(s, seen[f]) && p.bytes == seen[d].size;
    LayoutFacts(s, seen, f, d);
    DurationFits(p.bytes, p.rate, maxSeconds);
  }

  lemma LayoutFacts(s: seq<Byte>, chunks: seq<Chunk>, f: nat, d: nat)
    requires Layout(s, chunks, f, d)
    ensures chunks[f].size >= 16 && End(chunks[f]) <= |s| && End(chunks[d]) <= |s| <= MAX_WAV_BYTES
    ensures 8000 <= Rate(s, chunks[f]) <= 48000
    ensures chunks[d].size > 0 && chunks[d].size % 2 == 0
  {
    hide U32, U16, Count, ChunksFrom;
    ChunksInBounds(s, 12, chunks);
    assert ProperChunk(s, chunks[f]) && ProperChunk(s, chunks[d]);
  }

  lemma Headless(s: seq<Byte>, maxSeconds: int)
    requires maxSeconds <= 0 || !Header(s)
    ensures !ValidWave(s, maxSeconds)
  {
  }

  /** Takes a chunk that is in bounds. */
  method ReadChunk(audio: array<Byte>, c: Chunk, p: Progress) returns (ok: bool, p': Progress)
    requires c.start + c.size <= audio.Length
    ensures ok <==> ProperChunk(audio[..], c) && !(c.id == FORMAT && p.hasFormat) && !(c.id == DATA && p.hasData)
    ensures p' == if ok then Advance(audio[..], c, p) else p
  {
    p' := p;
    if c.id == FORMAT {
      if p.hasFormat || c.size < 16 {
        return false, p;
      }
      var format := audio[..][c.start..c.start + c.size];
      assert forall i :: 0 <= i < c.size ==> format[i] == audio[..][c.start + i];
      var rate := U32(format, 4);
      if U16(format, 0) != 1 || U16(format, 2) != 1 || U16(format, 14) != 16 || U16(format, 12) != 2
         || rate < 8000 || rate > 48000 || U32(format, 8) != rate * 2 {
        return false, p;
      }
      return true, p.(hasFormat := true, rate := rate);
    } else if c.id == DATA {
      if p.hasData || c.size == 0 || c.size % 2 != 0 {
        return false, p;
      }
      return true, p.(hasData := true, bytes := c.size);
    }
    return true, p;
  }

  /** The walk over the chunks of a valid file is at the j-th chunk, or at the end. */
  ghost predicate Walks(s: seq<Byte>, chunks: seq<Chunk>, j: nat, offset: nat) {
    j <= |chunks| && offset <= |s| && ChunksFrom(s, offset) == Some(chunks[j..])
  }

  lemma WalkOn(s: seq<Byte>, chunks: seq<Chunk>, j: nat, offset: nat)
    requires Walks(s, chunks, j, offset) && offset < |s|
    ensures offset + 8 <= |s| && j < |chunks| && chunks[j] == ChunkAt(s, offset) && End(chunks[j]) <= |s|
    ensures Walks(s, chunks, j + 1, End(chunks[j]))
  {
    assert chunks[j..] != [] && chunks[j..][0] == ChunkAt(s, offset);
    assert chunks[j..][1..] == chunks[j + 1..];
  }

  lemma WalkEnds(s: seq<Byte>, chunks: seq<Chunk>, j: nat, offset: nat)
    requires Walks(s, chunks, j, offset) && offset >= |s|
    ensures j == |chunks|
  {
  }

  function Payload(s: seq<Byte>, c: Chunk): seq<Byte>
    requires c.start + c.size <= |s|
  {
    s[c.start..c.start + c.size]
  }

  /** The rate and the samples of a valid file, in any order of its chunks. */
  method VoicePcmFromWav(audio: array<Byte>) returns (rate: nat, pcm: seq<Byte>)
    ensures ValidWave(audio[..], 60) ==>
              exists chunks: seq<Chunk>, f: nat, d: nat ::
                Layout(audio[..], chunks, f, d) && rate == Rate(audio[..], chunks[f])
                && chunks[d].start + chunks[d].size <= audio.Length && pcm == Payload(audio[..], chunks[d])
    ensures !ValidWave(audio[..], 60) ==> rate == 0 && pcm == []
  {
    rate, pcm := 0, [];
    var _, valid := VoiceWavDuration(audio, 60);
    if !valid {
      return;
    }
    ghost var chunks: seq<Chunk>, f: nat, d: nat :| Layout(audio[..], chunks, f, d);
    LayoutFacts(audio[..], chunks, f, d);
    rate, pcm := Extract(audio, chunks, f, d);
  }

  /** In a valid file, the identifier of a chunk tells whether it is the format, the data, or neither. */
  lemma KindAt(s: seq<Byte>, chunks: seq<Chunk>, f: nat, d: nat, j: nat)
    requires Layout(s, chunks, f, d) && j < |chunks|
    ensures f < |chunks| && d < |chunks|
    ensures (chunks[j].id == FORMAT <==> j == f) && (chunks[j].id == DATA <==> j == d)
    ensures j == f ==> chunks[j].size >= 16
  {
    hide ChunksFrom, Header;
    assert FORMAT[0] != DATA[0];
    assert ProperChunk(s, chunks[j]);
    if chunks[j].id == FORMAT {
      SameIndex(chunks, FORMAT, j, f);
    }
    if chunks[j].id == DATA {
      SameIndex(chunks, DATA, j, d);
    }
  }

  /** The headers of a file lie outside its samples. */
  lemma Apart(s: seq<Byte>, chunks: seq<Chunk>, f: nat, d: nat, j: nat, offset: nat)
    requires Layout(s, chunks, f, d) && j < |chunks| && chunks[j].start == offset + 8
    ensures d < |chunks| && (offset + 8 <= chunks[d].start || chunks[d].start + chunks[d].size <= offset)
  {
    hide Header, Count;
    ChunksInBounds(s, 12, chunks);
  }

  lemma RateAt(s: seq<Byte>, c: Chunk)
    requires c.size >= 16 && c.start + c.size <= |s|
    ensures Rate(s, c) == U32(s, c.start + 4)
  {
  }

  method Extract(audio: array<Byte>, ghost chunks: seq<Chunk>, ghost f: nat, ghost d: nat) returns (rate: nat, pcm: seq<Byte>)
    requires Layout(audio[..], chunks, f, d)
    ensures chunks[f].size >= 16 && End(chunks[f]) <= audio.Length && rate == Rate(audio[..], chunks[f])
    ensures End(chunks[d]) <= audio.Length && pcm == Payload(audio[..], chunks[d])
  {
    ghost var s: seq<Byte> := audio[..];
    LayoutFacts(s, chunks, f, d);
    assert chunks[0..] == chunks;
    assert Walks(s, chunks, 0, 12);
    hide Layout, Walks, U32, Rate, Payload;
    rate, pcm := 0, [];
    ghost var j: nat := 0;
    var offset := 12;
    while offset < audio.Length
      invariant 12 <= offset <= audio.Length && Walks(s, chunks, j, offset)
      invariant f < j ==> rate == Rate(s, chunks[f])
      invariant d < j ==> pcm == Payload(s, chunks[d])
    {
      WalkOn(s, chunks, j, offset);
      KindAt(s, chunks, f, d, j);
      var c := ChunkAt(audio[..], offset);
      if c.id == FORMAT {
        RateAt(s, c);
        rate := U32(audio[..], c.start + 4);
      } else if c.id == DATA {
        pcm := Payload(audio[..], c);
      }
      j := j + 1;
      offset := End(c);
    }
    WalkEnds(s, chunks, j, offset);
  }

  /** Rounding of a product to a machine number: monotone, and exact for the range of samples. */
  ghost predicate Rounds(round: real -> real) {
    && (forall x, y :: x <= y ==> round(x) <= round(y))
    && (forall x: real :: x == x.Floor as real && -32768.0 <= x <= 32768.0 ==> round(x) == x)
  }

  /** Truncation toward zero. */
  function Truncate(x: real): int {
    if x >= 0.0 then x.Floor else -((-x).Floor)
  }

  function Scaled(round: real -> real, v: int, volume: real): int {
    Truncate(round(v as real * volume))
  }

  /** `w` is `p` with its fraction cut off. */
  predicate CutsFraction(p: real, w: int) {
    if p >= 0.0 then w >= 0 && w as real <= p < w as real + 1.0 else w <= 0 && w as real - 1.0 < p <= w as real
  }

  lemma TruncateCuts(p: real)
    ensures CutsFraction(p, Truncate(p))
  {
  }

  lemma ScaledCuts(round: real -> real, v: int, volume: real)
    ensures CutsFraction(round(v as real * volume), Scaled(round, v, volume))
  {
    TruncateCuts(round(v as real * volume));
  }

  lemma CutGrows(p: real, w: int, p': real, w': int)
    requires CutsFraction(p, w) && CutsFraction(p', w') && p <= p'
    ensures w <= w'
  {
  }

  /** Scaling is monotone: in the sample, and for a sample that is not negative in the volume. */
  lemma ScalingGrows(round: real -> real, v: int, volume: real, w: int, v': int, volume': real, w': int)
    requires Rounds(round) && 0.0 <= volume <= volume' <= 1.0 && v <= v' && (volume == volume' || 0 <= v)
    requires CutsFraction(round(v as real * volume), w) && CutsFraction(round(v' as real * volume'), w')
    ensures w <= w'
  {
    hide Rounds, CutsFraction;
    assert v as real * volume <= v as real * volume' by {
      ProductGrows(volume, volume', v as real);
    }
    assert v as real * volume' <= v' as real * volume' by {
      ProductGrows(v as real, v' as real, volume');
    }
    Monotone(round, v as real * volume, v' as real * volume');
    CutGrows(round(v as real * volume), w, round(v' as real * volume'), w');
  }

  lemma ProductGrows(x: real, y: real, z: real)
    requires x == y || (x <= y && 0.0 <= z)
    ensures x * z <= y * z && z * x <= z * y
  {
    if x != y {
      assert (y - x) * z >= 0.0;
    }
  }

  /** A sample scaled down keeps its sign and does not get louder. */
  lemma Quieter(round: real -> real, v: int, volume: real)
    requires Rounds(round) && 0.0 <= volume <= 1.0 && -0x8000 <= v <= 0x8000
    ensures if v >= 0 then 0 <= Scaled(round, v, volume) <= v else v <= Scaled(round, v, volume) <= 0
  {
    var w := v as real;
    var x := Product(w, volume);
    assert Scaled(round, v, volume) == Truncate(round(x));
    hide Rounds, Truncate, Scaled;
    Exact(round, 0);
    Exact(round, v);
    if v >= 0 {
      Monotone(round, 0.0, x);
      Monotone(round, x, w);
      TruncateBetween(round(x), v);
    } else {
      Monotone(round, w, x);
      Monotone(round, x, 0.0);
      TruncateBetween(round(x), v);
    }
  }

  lemma Product(w: real, volume: real) returns (x: real)
    requires 0.0 <= volume <= 1.0
    ensures x == w * volume && (if w >= 0.0 then 0.0 <= x <= w else w <= x <= 0.0)
  {
    x := w * volume;
    if w >= 0.0 {
      ScaleBounds(w, volume);
    } else {
      ScaleBounds(-w, volume);
      assert x == -((-w) * volume);
    }
  }

  lemma TruncateBetween(r: real, v: int)
    requires if v >= 0 then 0.0 <= r <= v as real else v as real <= r <= 0.0
    ensures if v >= 0 then 0 <= Truncate(r) <= v else v <= Truncate(r) <= 0
  {
  }

  lemma Exact(round: real -> real, n: int)
    requires Rounds(round) && -0x8000 <= n <= 0x8000
    ensures round(n as real) == n as real
  {
    assert (n as real).Floor == n;
  }

  lemma Monotone(round: real -> real, x: real, y: real)
    requires Rounds(round) && x <= y
    ensures round(x) <= round(y)
  {
  }

  lemma ScaleBounds(x: real, volume: real)
    requires x >= 0.0 && 0.0 <= volume <= 1.0
    ensures 0.0 <= x * volume <= x
  {
    assert x * volume <= x * 1.0;
  }

  /** Volume 1 changes nothing. */
  lemma FullVolume(round: real -> real, v: int)
    requires Rounds(round) && -0x8000 <= v <= 0x8000
    ensures Scaled(round, v, 1.0) == v
  {
    Exact(round, v);
    assert v as real * 1.0 == v as real;
    assert (-(v as real)) == (-v) as real;
  }

  /** The bytes of a sample, and back. */
  function LowByte(v: int): Byte
  {
    v % 0x100
  }

  function HighByte(v: int): Byte
    requires -0x8000 <= v < 0x8000
  {
    if v >= 0 then v / 0x100 else (v + 0x10000) / 0x100
  }

  lemma SampleBytes(s: seq<Byte>, i: nat, v: int)
    requires i + 2 <= |s| && -0x8000 <= v < 0x8000 && s[i] == LowByte(v) && s[i + 1] == HighByte(v)
    ensures Sample(s, i) == v
  {
    var n := if v >= 0 then v else v + 0x10000;
    assert n == n / 0x100 * 0x100 + n % 0x100;
    assert v % 0x100 == n % 0x100;
  }

  /** Two files agree except in the payload of one chunk. */
  ghost predicate SameOutside(s: seq<Byte>, t: seq<Byte>, c: Chunk) {
    |s| == |t| && forall i :: 0 <= i < |s| && !(c.start <= i < c.start + c.size) ==> t[i] == s[i]
  }

  lemma SameChunkAt(s: seq<Byte>, t: seq<Byte>, c: Chunk, offset: nat)
    requires SameOutside(s, t, c) && offset + 8 <= |s| && (offset + 8 <= c.start || c.start + c.size <= offset)
    ensures ChunkAt(t, offset) == ChunkAt(s, offset)
  {
    assert forall i :: offset <= i < offset + 8 ==> t[i] == s[i];
    assert t[offset..offset + 4] == s[offset..offset + 4];
  }

  lemma SameLength(s: seq<Byte>, t: seq<Byte>, c: Chunk)
    requires SameOutside(s, t, c)
    ensures |t| == |s|
  {
  }

  lemma {:induction false} SameChunks(s: seq<Byte>, t: seq<Byte>, offset: nat, chunks: seq<Chunk>, c: Chunk)
    requires ChunksFrom(s, offset) == Some(chunks) && SameOutside(s, t, c)
    requires forall j :: 0 <= j < |chunks| ==> chunks[j] == c || End(c) + 8 <= chunks[j].start || End(chunks[j]) + 8 <= c.start
    ensures ChunksFrom(t, offset) == Some(chunks)
    decreases |s| - offset
  {
    if offset >= |s| {
    } else {
      var h := ChunkAt(s, offset);
      assert chunks[0] == h;
      hide U32, U16, SameOutside;
      SameLength(s, t, c);
      SameChunkAt(s, t, c, offset);
      assert forall j :: 0 <= j < |chunks[1..]| ==> chunks[1..][j] == chunks[j + 1];
      SameChunks(s, t, End(h), chunks[1..], c);
    }
  }

  /** Rewriting samples keeps the file valid, with the same chunks. */
  lemma SameLayout(s: seq<Byte>, t: seq<Byte>, chunks: seq<Chunk>, f: nat, d: nat)
    requires Layout(s, chunks, f, d) && SameOutside(s, t, chunks[d])
    ensures Layout(t, chunks, f, d) && chunks[f].size >= 16 && End(chunks[f]) <= |s| && Rate(t, chunks[f]) == Rate(s, chunks[f])
  {
    LayoutFacts(s, chunks, f, d);
    ChunksInBounds(s, 12, chunks);
    hide Count;
    forall j | 0 <= j < |chunks|
      ensures chunks[j] == chunks[d] || End(chunks[d]) + 8 <= chunks[j].start || End(chunks[j]) + 8 <= chunks[d].start
    {
    }
    SameChunks(s, t, 12, chunks, chunks[d]);
    SameHeader(s, t, chunks[d]);
    forall j | 0 <= j < |chunks| ensures ProperChunk(t, chunks[j]) {
      if chunks[j].id == FORMAT {
        SameFormat(s, t, chunks[j], chunks[d]);
      }
    }
  }

  lemma SameHeader(s: seq<Byte>, t: seq<Byte>, c: Chunk)
    requires Header(s) && SameOutside(s, t, c) && c.start >= 12
    ensures Header(t)
  {
    assert t[..4] == s[..4] && t[8..12] == s[8..12];
  }

  lemma SameFormat(s: seq<Byte>, t: seq<Byte>, f: Chunk, c: Chunk)
    requires ProperFormat(s, f) && SameOutside(s, t, c) && (End(c) + 8 <= f.start || End(f) + 8 <= c.start)
    ensures ProperFormat(t, f) && Rate(t, f) == Rate(s, f)
  {
  }

  /** Every sample of a chunk is scaled, and nothing else is changed. */
  ghost predicate ScaledChunk(s: seq<Byte>, t: seq<Byte>, c: Chunk, round: real -> real, volume: real) {
    && SameOutside(s, t, c) && c.start + c.size <= |s| && c.size % 2 == 0
    && forall k :: 0 <= 2 * k < c.size ==> Sample(t, c.start + 2 * k) == Scaled(round, Sample(s, c.start + 2 * k), volume)
  }

  lemma ScaledRange(round: real -> real, v: int, volume: real)
    requires Rounds(round) && 0.0 <= volume <= 1.0 && -0x8000 <= v < 0x8000
    ensures -0x8000 <= Scaled(round, v, volume) < 0x8000
  {
    Quieter(round, v, volume);
  }

  /** The first `n` bytes of the chunk are scaled. */
  ghost predicate ScaledSoFar(s: seq<Byte>, t: seq<Byte>, c: Chunk, n: nat, round: real -> real, volume: real) {
    && |t| == |s| && c.start + c.size <= |s| && n <= c.size && n % 2 == 0
    && (forall i :: 0 <= i < |s| && !(c.start <= i < c.start + n) ==> t[i] == s[i])
    && forall k :: 0 <= 2 * k < n ==> Sample(t, c.start + 2 * k) == Scaled(round, Sample(s, c.start + 2 * k), volume)
  }

  lemma ScaleOn(s: seq<Byte>, t: seq<Byte>, t': seq<Byte>, c: Chunk, n: nat, round: real -> real, volume: real)
    requires ScaledSoFar(s, t, c, n, round, volume) && n < c.size && c.size % 2 == 0 && Rounds(round) && 0.0 <= volume <= 1.0
    requires c.start + n + 2 <= |t|
    requires var v := Scaled(round, Sample(t, c.start + n), volume);
             -0x8000 <= v < 0x8000 && t' == t[c.start + n := LowByte(v)][c.start + n + 1 := HighByte(v)]
    ensures ScaledSoFar(s, t', c, n + 2, round, volume)
  {
    hide Scaled, LowByte, HighByte, Rounds;
    var i := c.start + n;
    assert Sample(t, i) == Sample(s, i);
    SampleBytes(t', i, Scaled(round, Sample(t, i), volume));
    forall k | 0 <= 2 * k < n + 2
      ensures Sample(t', c.start + 2 * k) == Scaled(round, Sample(s, c.start + 2 * k), volume)
    {
      if 2 * k < n {
        assert Sample(t', c.start + 2 * k) == Sample(t, c.start + 2 * k);
      }
    }
  }

  method ScaleData(audio: array<Byte>, c: Chunk, round: real -> real, volume: real)
    requires c.start + c.size <= audio.Length && c.size % 2 == 0 && Rounds(round) && 0.0 <= volume <= 1.0
    modifies audio
    ensures ScaledChunk(old(audio[..]), audio[..], c, round, volume)
  {
    hide Scaled, LowByte, HighByte, Rounds, Sample;
    ghost var s: seq<Byte> := audio[..];
    var i := c.start;
    while i < c.start + c.size
      invariant c.start <= i <= c.start + c.size && ScaledSoFar(s, audio[..], c, i - c.start, round, volume)
    {
      ghost var t: seq<Byte> := audio[..];
      var value := Scaled(round, Sample(audio[..], i), volume);
      ScaledRange(round, Sample(t, i), volume);
      audio[i], audio[i + 1] := LowByte(value), HighByte(value);
      assert audio[..] == t[i := LowByte(value)][i + 1 := HighByte(value)];
      ScaleOn(s, t, audio[..], c, i - c.start, round, volume);
      i := i + 2;
    }
  }

  /** No louder, and of the same sign. */
  predicate Softer(v: int, w: int) {
    if v >= 0 then 0 <= w <= v else v <= w <= 0
  }

  /** Every sample of a chunk becomes its product with the volume, rounded to a machine number, with the fraction cut
      off. None gets louder, and at full volume none changes. */
  ghost predicate Softened(s: seq<Byte>, t: seq<Byte>, c: Chunk, round: real -> real, volume: real) {
    && |t| == |s| && c.start + c.size <= |s| && c.size % 2 == 0
    && forall k :: 0 <= 2 * k < c.size ==>
         && CutsFraction(round(Sample(s, c.start + 2 * k) as real * volume), Sample(t, c.start + 2 * k))
         && Softer(Sample(s, c.start + 2 * k), Sample(t, c.start + 2 * k))
         && (volume == 1.0 ==> Sample(t, c.start + 2 * k) == Sample(s, c.start + 2 * k))
  }

  lemma ScaledSoftens(s: seq<Byte>, t: seq<Byte>, c: Chunk, round: real -> real, volume: real)
    requires ScaledChunk(s, t, c, round, volume) && Rounds(round) && 0.0 <= volume <= 1.0
    ensures Softened(s, t, c, round, volume)
  {
    assert |t| == |s|;
    hide Rounds, SameOutside, Sample, Scaled, CutsFraction, Softer;
    forall k | 0 <= 2 * k < c.size
      ensures CutsFraction(round(Sample(s, c.start + 2 * k) as real * volume), Sample(t, c.start + 2 * k))
      ensures Softer(Sample(s, c.start + 2 * k), Sample(t, c.start + 2 * k))
      ensures volume == 1.0 ==> Sample(t, c.start + 2 * k) == Sample(s, c.start + 2 * k)
    {
      ScaledSample(round, Sample(s, c.start + 2 * k), volume);
    }
  }

  lemma ScaledSample(round: real -> real, v: int, volume: real)
    requires Rounds(round) && 0.0 <= volume <= 1.0 && -0x8000 <= v < 0x8000
    ensures CutsFraction(round(v as real * volume), Scaled(round, v, volume)) && Softer(v, Scaled(round, v, volume))
    ensures volume == 1.0 ==> Scaled(round, v, volume) == v
  {
    hide Rounds, Scaled, CutsFraction;
    ScaledCuts(round, v, volume);
    Quieter(round, v, volume);
    if volume == 1.0 {
      FullVolume(round, v);
    }
  }

  /** A file with this layout lasts so long. */
  ghost predicate Lasts(s: seq<Byte>, chunks: seq<Chunk>, f: nat, d: nat, duration: nat) {
    Layout(s, chunks, f, d) && Covers(duration, chunks[d].size, Rate(s, chunks[f]))
  }

  lemma SameDuration(s: seq<Byte>, t: seq<Byte>, chunks: seq<Chunk>, f: nat, d: nat)
    requires Layout(s, chunks, f, d) && Layout(t, chunks, f, d)
    requires chunks[f].size >= 16 && End(chunks[f]) <= |s| == |t| && Rate(t, chunks[f]) == Rate(s, chunks[f])
    ensures forall duration :: Lasts(t, chunks, f, d, duration) <==> Lasts(s, chunks, f, d, duration)
  {
    hide Layout, Covers;
  }

  /** Scales the samples of a valid file in place. Nothing else changes, and the file stays valid with the same
      duration. */
  method ScaleSpeechPcm(audio: array<Byte>, round: real -> real, volume: real, ghost chunks: seq<Chunk>, ghost f: nat, ghost d: nat)
    requires Layout(audio[..], chunks, f, d) && Rounds(round) && 0.0 <= volume <= 1.0
    modifies audio
    ensures ScaledChunk(old(audio[..]), audio[..], chunks[d], round, volume)
    ensures Layout(audio[..], chunks, f, d) && chunks[f].size >= 16 && End(chunks[f]) <= audio.Length
    ensures Rate(audio[..], chunks[f]) == Rate(old(audio[..]), chunks[f])
    ensures forall duration :: Lasts(audio[..], chunks, f, d, duration) <==> Lasts(old(audio[..]), chunks, f, d, duration)
    ensures Softened(old(audio[..]), audio[..], chunks[d], round, volume)
  {
    ghost var s: seq<Byte> := audio[..];
    LayoutFacts(s, chunks, f, d);
    assert chunks[0..] == chunks && SameOutside(s, s, chunks[d]);
    assert Walks(s, chunks, 0, 12);
    hide Layout, Walks, U32, Scaled, Rounds, ScaledChunk, SameOutside, Sample, Lasts, Softened;
    ghost var j: nat := 0;
    var offset := 12;
    while offset < audio.Length
      invariant 12 <= offset <= audio.Length && Walks(s, chunks, j, offset)
      invariant SameOutside(s, audio[..], chunks[d])
      invariant if j <= d then audio[..] == s else ScaledChunk(s, audio[..], chunks[d], round, volume)
    {
      WalkOn(s, chunks, j, offset);
      KindAt(s, chunks, f, d, j);
      Apart(s, chunks, f, d, j, offset);
      SameChunkAt(s, audio[..], chunks[d], offset);
      var c := ChunkAt(audio[..], offset);
      if c.id == DATA {
        ScaleData(audio, c, round, volume);
        ScaledOutside(s, audio[..], c, round, volume);
      }
      j := j + 1;
      offset := End(c);
    }
    WalkEnds(s, chunks, j, offset);
    SameLayout(s, audio[..], chunks, f, d);
    SameDuration(s, audio[..], chunks, f, d);
    ScaledSoftens(s, audio[..], chunks[d], round, volume);
  }

  lemma ScaledOutside(s: seq<Byte>, t: seq<Byte>, c: Chunk, round: real -> real, volume: real)
    requires ScaledChunk(s, t, c, round, volume)
    ensures SameOutside(s, t, c)
  {
  }

  /** Numbers are read and written with their low byte first: 8000 as a rate, 1000 and -2 as samples, 500 written. */
  lemma LowByteFirst(s: seq<Byte>, i: nat)
    requires i + 4 <= |s|
    ensures s[i..i + 4] == [0x40, 0x1F, 0, 0] ==> U32(s, i) == 8000
    ensures s[i] == 0xE8 && s[i + 1] == 0x03 ==> Sample(s, i) == 1000
    ensures s[i] == 0xFE && s[i + 1] == 0xFF ==> Sample(s, i) == -2
    ensures LowByte(500) == 0xF4 && HighByte(500) == 0x01 && LowByte(-2) == 0xFE && HighByte(-2) == 0xFF
  {
    if s[i..i + 4] == [0x40, 0x1F, 0, 0] {
      assert s[i] == s[i..i + 4][0] && s[i + 1] == s[i..i + 4][1] && s[i + 2] == s[i..i + 4][2] && s[i + 3] == s[i..i + 4][3];
    }
  }
}
