// The length of a WAV file, read from its bytes. The loop is proved against a
// grammar of RIFF chunks. Lengths are exact rationals.
module WavLength {
  import opened Common
  import opened ByteStrings

  datatype WavError = ShortFmt | DataBeforeFmt | NoData

  const FMT: Bytes := [0x66, 0x6d, 0x74, 0x20]
  const DATA: Bytes := [0x64, 0x61, 0x74, 0x61]

  function LittleEndian(s: Bytes): nat
    requires |s| == 4
  {
    s[0] as int + 0x100 * s[1] as int + 0x1_0000 * s[2] as int + 0x100_0000 * s[3] as int
  }

  // The length found by a walk over the chunks of s, with the byte rate of
  // the last fmt chunk before it.
  function WavFrom(s: Bytes, byteRate: nat): Result<real, WavError>
    decreases |s|
  {
    if |s| < 8 then Err(NoData)
    else
      var size := LittleEndian(s[4..8]);
      if s[..4] == FMT && (size < 16 || |s| < 24) then Err(ShortFmt)
      else if s[..4] == DATA then DataLength(size, |s| - 8, byteRate)
      else WavFrom(Skip(s, 8 + size + size % 2), if s[..4] == FMT then LittleEndian(s[16..20]) else byteRate)
  }

  // A streamed file can leave the size unset: 0, or more than there is.
  function DataLength(size: nat, left: nat, byteRate: nat): Result<real, WavError> {
    if byteRate == 0 then Err(DataBeforeFmt)
    else Ok((if size == 0 || size > left then left else size) as real / byteRate as real)
  }

  // The chunk at position p is the first one of what is left there.
  lemma ChunkAt(b: Bytes, p: nat)
    requires p + 8 <= |b|
    ensures Skip(b, p)[..4] == b[p..p + 4] && Skip(b, p)[4..8] == b[p + 4..p + 8]
    ensures p + 24 <= |b| ==> Skip(b, p)[16..20] == b[p + 16..p + 20]
    ensures forall n: nat :: Skip(Skip(b, p), n) == Skip(b, p + n)
  {}

  lemma WavEnds(s: Bytes, byteRate: nat)
    requires |s| < 8
    ensures WavFrom(s, byteRate) == Err(NoData)
  {}

  lemma WavTurn(s: Bytes, byteRate: nat, size: nat)
    requires |s| >= 8 && size == LittleEndian(s[4..8])
    ensures s[..4] == FMT && (size < 16 || |s| < 24) ==> WavFrom(s, byteRate) == Err(ShortFmt)
    ensures s[..4] == FMT && size >= 16 && |s| >= 24 ==>
      WavFrom(s, byteRate) == WavFrom(Skip(s, 8 + size + size % 2), LittleEndian(s[16..20]))
    ensures s[..4] == DATA ==> WavFrom(s, byteRate) == DataLength(size, |s| - 8, byteRate)
    ensures s[..4] != FMT && s[..4] != DATA ==>
      WavFrom(s, byteRate) == WavFrom(Skip(s, 8 + size + size % 2), byteRate)
  {
    hide LittleEndian, DataLength, Skip;
    assert FMT[0] != DATA[0];
  }

  method WavSeconds(b: Bytes) returns (r: Result<real, WavError>)
    ensures r == WavFrom(Skip(b, 12), 0)
  {
    hide LittleEndian, WavFrom;
    var byteRate := 0;
    var p := 12;
    while p + 8 <= |b|
      invariant 12 <= p && 0 <= byteRate
      invariant WavFrom(Skip(b, 12), 0) == WavFrom(Skip(b, p), byteRate)
      decreases |b| - p
    {
      ChunkAt(b, p);
      var id, size := b[p..p + 4], LittleEndian(b[p + 4..p + 8]);
      WavTurn(Skip(b, p), byteRate, size);
      var body := p + 8;
      if id == FMT {
        if size < 16 || body + 16 > |b| {
          return Err(ShortFmt);
        }
        byteRate := LittleEndian(b[body + 8..body + 12]);
      } else if id == DATA {
        if byteRate == 0 {
          return Err(DataBeforeFmt);
        }
        var taken := size;
        if size == 0 || size > |b| - body {
          taken := |b| - body;
        }
        return Ok(taken as real / byteRate as real);
      }
      p := body + size + size % 2;
    }
    WavEnds(Skip(b, p), byteRate);
    r := Err(NoData);
  }

  // -------------------------------------------------------- the WAV grammar

  // A chunk: four bytes of name, its size, its body, and a byte of padding
  // after an odd one.
  datatype Chunk = Chunk(id: Bytes, body: Bytes, pad: byte)
  {
    predicate Legal() {
      |id| == 4 && |body| < 0x1_0000_0000 && id != DATA && (id == FMT ==> |body| >= 16)
    }

    function Render(): Bytes {
      id + SizeBytes(|body|) + body + if |body| % 2 == 1 then [pad] else []
    }
  }

  function SizeBytes(n: nat): Bytes {
    [(n % 0x100) as byte, (n / 0x100 % 0x100) as byte, (n / 0x1_0000 % 0x100) as byte, (n / 0x100_0000 % 0x100) as byte]
  }

  lemma SizeRoundTrip(n: nat)
    requires n < 0x1_0000_0000
    ensures LittleEndian(SizeBytes(n)) == n
  {
    assert n / 0x100 / 0x100 == n / 0x1_0000;
    assert n / 0x1_0000 / 0x100 == n / 0x100_0000;
  }

  lemma SizeBytesRoundTrip(s: Bytes)
    requires |s| == 4
    ensures LittleEndian(s) < 0x1_0000_0000 && SizeBytes(LittleEndian(s)) == s
  {
    var n := LittleEndian(s);
    assert n / 0x100 == s[1] as int + 0x100 * s[2] as int + 0x1_0000 * s[3] as int;
    assert n / 0x1_0000 == s[2] as int + 0x100 * s[3] as int;
    assert n / 0x100_0000 == s[3] as int;
  }

  function RenderChunks(cs: seq<Chunk>): Bytes {
    if cs == [] then [] else cs[0].Render() + RenderChunks(cs[1..])
  }

  // The byte rate after chunk c.
  function NextRate(c: Chunk, byteRate: nat): nat {
    if c.id == FMT && |c.body| >= 12 then LittleEndian(c.body[8..12]) else byteRate
  }

  // The byte rate the last fmt chunk gives.
  function LastRate(cs: seq<Chunk>, byteRate: nat): nat {
    if cs == [] then byteRate
    else LastRate(cs[1..], NextRate(cs[0], byteRate))
  }

  // What can follow the chunks the walk passes over: the data chunk, a fmt
  // chunk too short to hold a byte rate, or a chunk the file ends in.
  predicate IsEnd(s: Bytes) {
    || |s| < 8
    || s[..4] == DATA
    || (s[..4] == FMT && (LittleEndian(s[4..8]) < 16 || |s| < 24))
    || 8 + LittleEndian(s[4..8]) + LittleEndian(s[4..8]) % 2 > |s|
  }

  function EndLength(s: Bytes, byteRate: nat): Result<real, WavError> {
    if |s| < 8 then Err(NoData)
    else if s[..4] == DATA then DataLength(LittleEndian(s[4..8]), |s| - 8, byteRate)
    else if s[..4] == FMT && (LittleEndian(s[4..8]) < 16 || |s| < 24) then Err(ShortFmt)
    else Err(NoData)
  }

  // Every file of chunks has the length its data chunk and the last fmt
  // chunk before it give.
  lemma {:induction false} WavOfChunks(before: seq<Chunk>, end: Bytes, byteRate: nat)
    requires (forall c <- before :: c.Legal()) && IsEnd(end)
    ensures WavFrom(RenderChunks(before) + end, byteRate) == EndLength(end, LastRate(before, byteRate))
  {
    if before == [] {
      assert RenderChunks(before) + end == end;
    } else {
      var c, rest := before[0], RenderChunks(before[1..]) + end;
      assert RenderChunks(before) + end == c.Render() + rest;
      PassesChunk(c, rest, byteRate);
      WavOfChunks(before[1..], end, NextRate(c, byteRate));
    }
  }

  lemma PassesChunk(c: Chunk, rest: Bytes, byteRate: nat)
    requires c.Legal()
    ensures WavFrom(c.Render() + rest, byteRate) ==
      WavFrom(rest, NextRate(c, byteRate))
  {
    var s := c.Render() + rest;
    SizeRoundTrip(|c.body|);
    assert s[..4] == c.id && s[4..8] == SizeBytes(|c.body|);
    assert c.id == FMT ==> s[16..20] == c.body[8..12];
    assert Skip(s, |c.Render()|) == rest;
  }

  // Every file at all is such a sequence of chunks.
  lemma {:induction false} WavOfAnyFile(s: Bytes, byteRate: nat) returns (before: seq<Chunk>, end: Bytes)
    ensures (forall c <- before :: c.Legal()) && IsEnd(end)
    ensures RenderChunks(before) + end == s
    ensures WavFrom(s, byteRate) == EndLength(end, LastRate(before, byteRate))
    decreases |s|
  {
    if IsEnd(s) {
      before, end := [], s;
      assert RenderChunks(before) + end == s;
    } else {
      var c := TakeChunk(s);
      var more;
      more, end := WavOfAnyFile(s[|c.Render()|..], byteRate);
      before := [c] + more;
      assert before[1..] == more;
      assert RenderChunks(before) + end == c.Render() + (RenderChunks(more) + end);
    }
    WavOfChunks(before, end, byteRate);
  }

  lemma TakeChunk(s: Bytes) returns (c: Chunk)
    requires !IsEnd(s)
    ensures c.Legal() && 8 <= |c.Render()| <= |s| && c.Render() + s[|c.Render()|..] == s
  {
    var size := LittleEndian(s[4..8]);
    c := Chunk(s[..4], s[8..8 + size], if size % 2 == 1 then s[8 + size] else 0);
    SizeBytesRoundTrip(s[4..8]);
    hide SizeBytes, LittleEndian;
    var end := 8 + size;
    assert s[..end] == s[..4] + s[4..8] + s[8..end];
    if size % 2 == 1 {
      assert s[..end + 1] == s[..end] + [s[end]];
    } else {
      assert c.Render() == s[..end];
    }
    assert c.Render() == s[..end + size % 2];
  }

  // Any file with a data chunk: with no byte rate before it there is no length;
  // a size that is unset, or larger than what the file has, stands for all that
  // is left of the file.
  lemma WavOfStream(before: seq<Chunk>, size: nat, rest: Bytes)
    requires (forall c <- before :: c.Legal()) && size < 0x1_0000_0000
    ensures var rate := LastRate(before, 0);
      WavFrom(RenderChunks(before) + (DATA + SizeBytes(size) + rest), 0) ==
        if rate == 0 then Err(DataBeforeFmt)
        else if 0 < size <= |rest| then Ok(size as real / rate as real)
        else Ok(|rest| as real / rate as real)
  {
    hide SizeBytes, LittleEndian, WavFrom, RenderChunks, Chunk.Legal, LastRate;
    DataEnd(size, rest);
    WavOfChunks(before, DATA + SizeBytes(size) + rest, 0);
  }

  // The song the format promises: its fmt chunk, its data chunk, and anything
  // else around them, of odd or even size.
  lemma WavOfSong(before: seq<Chunk>, fmt: Chunk, between: seq<Chunk>, data: Bytes, after: Bytes)
    requires (forall c <- before + [fmt] + between :: c.Legal()) && fmt.id == FMT
    requires forall c <- between :: c.id != FMT
    requires 0 < |data| < 0x1_0000_0000 && NextRate(fmt, 0) > 0
    ensures WavFrom(RenderChunks(before + [fmt] + between) + (DATA + SizeBytes(|data|) + data + after), 0)
         == Ok(|data| as real / NextRate(fmt, 0) as real)
  {
    hide SizeBytes, LittleEndian, WavFrom, RenderChunks, Chunk.Legal;
    var end := DATA + SizeBytes(|data|) + data + after;
    assert end == DATA + SizeBytes(|data|) + (data + after);
    WavOfStream(before + [fmt] + between, |data|, data + after);
    assert before + [fmt] + between == before + ([fmt] + between);
    LastRateConcat(before, [fmt] + between, 0);
    assert ([fmt] + between)[1..] == between;
    assert fmt.Legal() by { assert fmt in before + [fmt] + between; }
    LastRateOfNoFmt(between, NextRate(fmt, LastRate(before, 0)));
    RateOfFmt(fmt, LastRate(before, 0));
  }

  lemma RateOfFmt(fmt: Chunk, byteRate: nat)
    requires fmt.Legal() && fmt.id == FMT
    ensures NextRate(fmt, byteRate) == NextRate(fmt, 0)
  {}

  lemma DataEnd(size: nat, rest: Bytes)
    requires size < 0x1_0000_0000
    ensures var end := DATA + SizeBytes(size) + rest;
      IsEnd(end) && forall r: nat :: EndLength(end, r) == DataLength(size, |rest|, r)
  {
    var end := DATA + SizeBytes(size) + rest;
    SizeRoundTrip(size);
    assert end[..4] == DATA && end[4..8] == SizeBytes(size);
  }

  lemma {:induction false} LastRateConcat(a: seq<Chunk>, b: seq<Chunk>, byteRate: nat)
    ensures LastRate(a + b, byteRate) == LastRate(b, LastRate(a, byteRate))
  {
    if a == [] {
      assert a + b == b;
    } else {
      assert (a + b)[1..] == a[1..] + b;
      LastRateConcat(a[1..], b, NextRate(a[0], byteRate));
    }
  }

  lemma {:induction false} LastRateOfNoFmt(cs: seq<Chunk>, byteRate: nat)
    requires forall c <- cs :: c.id != FMT
    ensures LastRate(cs, byteRate) == byteRate
  {
    if cs != [] {
      LastRateOfNoFmt(cs[1..], byteRate);
    }
  }
}
