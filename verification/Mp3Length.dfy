// The length of an MP3 file, read from its bytes. The loop is proved against
// a grammar of the format: MPEG audio frames (ISO/IEC 11172-3 section 2.4.1.3)
// behind an optional ID3v2 tag (ID3v2.4.0 structure, sections 3.1, 3.4 and
// 6.2). Lengths are exact rationals.
module Mp3Length {
  import opened Common
  import opened ByteStrings

  // A frame header's fields as the loop of mp3Seconds takes them apart.
  datatype Header = Header(size: nat, samples: nat, rate: nat, mpeg1: bool, mono: bool)

  // mp3Bitrates, in kbit/s, by MPEG-1 or not, layer and index.
  function Bitrate(mpeg1: bool, layer: int, index: int): (kbps: nat)
    requires 1 <= layer <= 3 && 0 <= index < 16
    ensures kbps == 0 <==> index == 0 || index == 15
    ensures kbps > 0 ==> kbps >= if mpeg1 || layer == 1 then 32 else 8
  {
    if mpeg1 then
      if layer == 1 then [0, 32, 64, 96, 128, 160, 192, 224, 256, 288, 320, 352, 384, 416, 448, 0][index]
      else if layer == 2 then [0, 32, 48, 56, 64, 80, 96, 112, 128, 160, 192, 224, 256, 320, 384, 0][index]
      else [0, 32, 40, 48, 56, 64, 80, 96, 112, 128, 160, 192, 224, 256, 320, 0][index]
    else
      if layer == 1 then [0, 32, 48, 56, 64, 80, 96, 112, 128, 144, 160, 176, 192, 224, 256, 0][index]
      else [0, 8, 16, 24, 32, 40, 48, 56, 64, 80, 96, 112, 128, 144, 160, 0][index]
  }

  function CodedRate(version: int, index: int): (rate: nat)
    requires 0 <= index < 3
    ensures 0 < rate <= if version == 3 then 48000 else 24000
  {
    [44100, 48000, 32000][index] / (if version == 3 then 1 else if version == 2 then 2 else 4)
  }

  function Quotient(x: nat, rate: nat): nat
    requires rate > 0
  {
    x / rate
  }

  function CodedSize(mpeg1: bool, layer: int, kbps: nat, rate: nat, pad: nat): nat
    requires rate > 0
  {
    if layer == 1 then (Quotient(12 * kbps * 1000, rate) + pad) * 4
    else if layer == 3 && !mpeg1 then Quotient(72 * kbps * 1000, rate) + pad
    else Quotient(144 * kbps * 1000, rate) + pad
  }

  // The header in four bytes, or None where the loop stops.
  function ReadHeader(h0: byte, h1: byte, h2: byte, h3: byte): (r: Option<Header>)
    ensures r.Some? ==> r.value.rate > 0
  {
    if h0 != 0xff || h1 < 0xe0 then None
    else
      var version, layer := h1 as int / 8 % 4, 4 - h1 as int / 2 % 4;
      var brIdx, srIdx, pad := h2 as int / 16, h2 as int / 4 % 4, h2 as int / 2 % 2;
      if version == 1 || layer == 4 || srIdx == 3 then None
      else
        var mpeg1 := version == 3;
        var kbps := Bitrate(mpeg1, layer, brIdx);
        if kbps == 0 then None
        else
          var rate := CodedRate(version, srIdx);
          var samples := if layer == 1 then 384 else if layer == 3 && !mpeg1 then 576 else 1152;
          Some(Header(CodedSize(mpeg1, layer, kbps, rate, pad), samples, rate, mpeg1, h3 as int / 64 == 3))
  }

  lemma Grows(a: int, b: int, r: int)
    requires r > 0
    ensures a <= b ==> a * r <= b * r
  {}

  lemma AtLeast(x: int, r: int, c: int)
    requires r > 0 && x >= c * r
    ensures x / r >= c
  {
    var q := x / r;
    assert x < (q + 1) * r;
    Grows(q + 1, c, r);
  }

  // Every accepted frame moves the loop on.
  lemma FrameAdvances(h0: byte, h1: byte, h2: byte, h3: byte)
    ensures ReadHeader(h0, h1, h2, h3).Some? ==> ReadHeader(h0, h1, h2, h3).value.size >= 24
  {
    if ReadHeader(h0, h1, h2, h3).Some? {
      var version, layer := h1 as int / 8 % 4, 4 - h1 as int / 2 % 4;
      var mpeg1 := version == 3;
      var kbps, rate := Bitrate(mpeg1, layer, h2 as int / 16), CodedRate(version, h2 as int / 4 % 4);
      if layer == 1 {
        AtLeast(12 * kbps * 1000, rate, 8);
      } else if layer == 3 && !mpeg1 {
        AtLeast(72 * kbps * 1000, rate, 24);
      } else {
        AtLeast(144 * kbps * 1000, rate, 48);
      }
    }
  }

  // Bytes of the tags "Xing" and "Info".
  const XING: Bytes := [0x58, 0x69, 0x6e, 0x67]
  const INFO: Bytes := [0x49, 0x6e, 0x66, 0x6f]

  predicate IsXingFrame(frame: Bytes, mpeg1: bool, mono: bool) {
    var off := 4 + if mpeg1 && !mono then 32 else if !mpeg1 && mono then 9 else 17;
    off + 4 <= |frame| && (frame[off..off + 4] == XING || frame[off..off + 4] == INFO)
  }

  // The bytes of side information after a frame's header (ISO/IEC 11172-3
  // section 2.4.1.7, and its halves in ISO/IEC 13818-3).
  ghost function SideInfo(mpeg1: bool, mono: bool): nat {
    match (mpeg1, mono)
    case (true, false) => 32
    case (true, true) => 17
    case (false, false) => 17
    case (false, true) => 9
  }

  // A frame without audio says so right behind its side information.
  lemma XingIs(frame: Bytes, mpeg1: bool, mono: bool)
    ensures IsXingFrame(frame, mpeg1, mono) <==>
      exists head: Bytes, tag: Bytes, rest: Bytes ::
        && frame == head + tag + rest && |head| == 4 + SideInfo(mpeg1, mono)
        && (tag == [0x58, 0x69, 0x6e, 0x67] || tag == [0x49, 0x6e, 0x66, 0x6f])
  {
    var p := 4 + SideInfo(mpeg1, mono);
    if IsXingFrame(frame, mpeg1, mono) {
      var head, tag, rest := frame[..p], frame[p..p + 4], frame[p + 4..];
      assert frame == head + tag + rest;
    } else {
      forall head: Bytes, tag: Bytes, rest: Bytes | frame == head + tag + rest && |head| == p && |tag| == 4
        ensures tag != XING && tag != INFO
      {
        assert frame[p..p + 4] == tag;
      }
    }
  }

  // In each table the rate rises with its index, and no layer has less for an
  // index than the next; a free or bad index has none.
  lemma BitratesRise(mpeg1: bool, layer: int, index: int)
    requires 1 <= layer <= 3 && 0 <= index < 16
    ensures Bitrate(mpeg1, layer, index) == 0 <==> index == 0 || index == 15
    ensures 0 < index < 14 ==> Bitrate(mpeg1, layer, index) < Bitrate(mpeg1, layer, index + 1)
    ensures layer < 3 ==> Bitrate(mpeg1, layer, index) >= Bitrate(mpeg1, layer + 1, index)
    ensures Bitrate(true, layer, 14) == 512 - 64 * layer
    ensures Bitrate(false, layer, 14) == if layer == 1 then 256 else 160
  {}

  function HeaderAt(s: Bytes): (r: Option<Header>)
    ensures r.Some? ==> |s| >= 4 && r.value.size >= 24 && r.value.rate > 0
  {
    if |s| < 4 then None
    else
      FrameAdvances(s[0], s[1], s[2], s[3]);
      ReadHeader(s[0], s[1], s[2], s[3])
  }

  // The frames counted so far, and the seconds of the frames from s on.
  function Walk(s: Bytes, frames: nat): (r: (nat, real))
    decreases |s|
  {
    match HeaderAt(s)
    case None => (frames, 0.0)
    case Some(h) =>
      if frames == 0 && IsXingFrame(s[..Min(h.size, |s|)], h.mpeg1, h.mono) then Walk(Skip(s, h.size), 0)
      else
        var r := Walk(Skip(s, h.size), frames + 1);
        (r.0, Seconds(h) + r.1)
  }

  function Seconds(h: Header): real
    requires h.rate > 0
  {
    h.samples as real / h.rate as real
  }

  const ID3: Bytes := [0x49, 0x44, 0x33]

  // The size in a tag's header, seven bits to a byte.
  function TagSize(b: Bytes): nat
    requires |b| >= 10
  {
    b[6] as int % 128 * 0x20_0000 + b[7] as int % 128 * 0x4000 + b[8] as int % 128 * 0x80 + b[9] as int % 128
  }

  predicate HasFooter(b: Bytes)
    requires |b| >= 10
  {
    b[5] as int / 16 % 2 != 0
  }

  // Where the frames start.
  function TagEnd(b: Bytes): nat {
    if |b| >= 10 && b[..3] == ID3 then 10 + TagSize(b) + if HasFooter(b) then 10 else 0 else 0
  }

  datatype Mp3Error = NoFrames

  function Mp3(b: Bytes): Result<real, Mp3Error> {
    var r := Walk(Skip(b, TagEnd(b)), 0);
    if r.0 == 0 then Err(NoFrames) else Ok(r.1)
  }

  lemma SkipSkip(b: Bytes, p: nat, n: nat)
    requires p <= |b|
    ensures Skip(Skip(b, p), n) == Skip(b, p + n)
    ensures Skip(b, p)[..Min(n, |b| - p)] == b[p..Min(p + n, |b|)]
  {}

  // The loop of mp3Seconds at position p, with what it has added up so far,
  // still ends with all.
  ghost predicate Ends(all: (nat, real), b: Bytes, p: nat, frames: nat, seconds: real) {
    var rest := Walk(Skip(b, p), frames);
    all.0 == rest.0 && all.1 == seconds + rest.1
  }

  lemma Turn(all: (nat, real), b: Bytes, p: nat, frames: nat, seconds: real, h: Header)
    requires p + 4 <= |b| && ReadHeader(b[p], b[p + 1], b[p + 2], b[p + 3]) == Some(h)
    requires Ends(all, b, p, frames, seconds)
    ensures
      if frames == 0 && IsXingFrame(b[p..Min(p + h.size, |b|)], h.mpeg1, h.mono)
        then Ends(all, b, p + h.size, 0, seconds)
      else Ends(all, b, p + h.size, frames + 1, seconds + Seconds(h))
  {
    SkipSkip(b, p, h.size);
  }

  lemma NoHeaderEnds(all: (nat, real), b: Bytes, p: nat, frames: nat, seconds: real)
    requires Ends(all, b, p, frames, seconds)
    requires p + 4 <= |b| ==> ReadHeader(b[p], b[p + 1], b[p + 2], b[p + 3]).None?
    ensures all == (frames, seconds)
  {
    assert HeaderAt(Skip(b, p)).None?;
  }

  // The frame loop of mp3Seconds, from where it starts.
  method SumFrames(b: Bytes, start: nat) returns (frames: nat, seconds: real)
    ensures (frames, seconds) == Walk(Skip(b, start), 0)
  {
    hide HeaderAt, ReadHeader, Walk, Seconds;
    var p := start;
    frames, seconds := 0, 0.0;
    ghost var all := Walk(Skip(b, start), 0);
    while p + 4 <= |b|
      invariant 0 <= p
      invariant Ends(all, b, p, frames, seconds)
      decreases |b| - p
    {
      var header := ReadHeader(b[p], b[p + 1], b[p + 2], b[p + 3]);
      if header.None? {
        break;
      }
      var h := header.value;
      FrameAdvances(b[p], b[p + 1], b[p + 2], b[p + 3]);
      Turn(all, b, p, frames, seconds, h);
      if frames == 0 && IsXingFrame(b[p..Min(p + h.size, |b|)], h.mpeg1, h.mono) {
        p := p + h.size;
        continue;
      }
      frames := frames + 1;
      seconds := seconds + Seconds(h);
      p := p + h.size;
    }
    NoHeaderEnds(all, b, p, frames, seconds);
  }

  method Mp3Seconds(b: Bytes) returns (r: Result<real, Mp3Error>)
    ensures r == Mp3(b)
  {
    hide Walk, TagSize, HasFooter;
    var p := 0;
    if |b| >= 10 && b[..3] == ID3 {
      p := 10 + TagSize(b);
      if HasFooter(b) {
        p := p + 10;
      }
    }
    var frames, seconds := SumFrames(b, p);
    if frames == 0 {
      return Err(NoFrames);
    }
    r := Ok(seconds);
  }

  // -------------------------------------------------------- the MP3 grammar

  datatype Version = Mpeg1 | Mpeg2 | Mpeg25
  datatype Layer = LayerI | LayerII | LayerIII

  // One frame as the standard describes it: the fields of its header and the
  // bytes after it. private is the header's private bit, protection its
  // protection bit, last its fourth byte (mode to emphasis).
  datatype Frame = Frame(version: Version, layer: Layer, protection: int, bitrate: int, rateIndex: int,
                         padding: int, private: int, last: byte, body: Bytes)
  {
    // Free format (0), bitrate index 15 and sampling rate 3 are not frames.
    predicate Legal() {
      && 0 <= protection <= 1 && 0 <= padding <= 1 && 0 <= private <= 1
      && 1 <= bitrate <= 14 && 0 <= rateIndex <= 2
    }

    function VersionCode(): int {
      match version case Mpeg1 => 3 case Mpeg2 => 2 case Mpeg25 => 0
    }

    function LayerCode(): int {
      match layer case LayerI => 3 case LayerII => 2 case LayerIII => 1
    }

    function Head(): Bytes
      requires Legal()
    {
      [0xff,
       (0xe0 + 8 * VersionCode() + 2 * LayerCode() + protection) as byte,
       (16 * bitrate + 4 * rateIndex + 2 * padding + private) as byte,
       last]
    }

    // The samples of one channel a frame holds.
    function Samples(): nat {
      match layer
      case LayerI => 384
      case LayerII => 1152
      case LayerIII => if version == Mpeg1 then 1152 else 576
    }

    function SampleRate(): (rate: nat)
      requires Legal()
      ensures rate > 0
    {
      var base := if rateIndex == 0 then 44100 else if rateIndex == 1 then 48000 else 32000;
      match version case Mpeg1 => base case Mpeg2 => base / 2 case Mpeg25 => base / 4
    }

    function BytesPerSecond(): nat
      requires Legal()
    {
      125 * Bitrate(version == Mpeg1, match layer case LayerI => 1 case LayerII => 2 case LayerIII => 3, bitrate)
    }

    // A frame is a whole number of slots, of 4 bytes in layer I and 1 in the
    // others: as many as its samples last at its bitrate, rounded down, and
    // one more when padded.
    function Slot(): nat {
      if layer == LayerI then 4 else 1
    }

    function Size(): nat
      requires Legal()
    {
      (Samples() / Slot() * BytesPerSecond() / SampleRate() + padding) * Slot()
    }

    // How long it plays.
    function Seconds(): real
      requires Legal()
    {
      Samples() as real / SampleRate() as real
    }

    function Mono(): bool {
      last >= 192
    }

    function Render(): Bytes
      requires Legal()
    {
      Head() + body
    }

    predicate Xing()
      requires Legal()
    {
      IsXingFrame(Render(), version == Mpeg1, Mono())
    }
  }

  lemma HeadBits(f: Frame)
    requires f.Legal()
    ensures var h1, h2 := f.Head()[1] as int, f.Head()[2] as int;
      && h1 >= 0xe0 && h1 / 8 % 4 == f.VersionCode() && h1 / 2 % 4 == f.LayerCode()
      && h2 / 16 == f.bitrate && h2 / 4 % 4 == f.rateIndex && h2 / 2 % 2 == f.padding
  {}

  lemma SizeAgrees(f: Frame)
    requires f.Legal()
    ensures f.SampleRate() == CodedRate(f.VersionCode(), f.rateIndex)
    ensures f.Size() == CodedSize(f.version == Mpeg1, 4 - f.LayerCode(),
      Bitrate(f.version == Mpeg1, 4 - f.LayerCode(), f.bitrate), f.SampleRate(), f.padding)
  {
    hide Bitrate;
    var kbps := Bitrate(f.version == Mpeg1, 4 - f.LayerCode(), f.bitrate);
    assert f.SampleRate() == CodedRate(f.VersionCode(), f.rateIndex);
    assert f.BytesPerSecond() == 125 * kbps;
    match f.layer
    case LayerI => assert f.Samples() / f.Slot() * f.BytesPerSecond() == 12 * kbps * 1000;
    case LayerII => assert f.Samples() / f.Slot() * f.BytesPerSecond() == 144 * kbps * 1000;
    case LayerIII =>
      assert f.Samples() / f.Slot() * f.BytesPerSecond() ==
        if f.version == Mpeg1 then 144 * kbps * 1000 else 72 * kbps * 1000;
  }

  // The header reader undoes the header writer.
  lemma HeaderRoundTrip(f: Frame)
    requires f.Legal()
    ensures ReadHeader(f.Head()[0], f.Head()[1], f.Head()[2], f.Head()[3])
         == Some(Header(f.Size(), f.Samples(), f.SampleRate(), f.version == Mpeg1, f.Mono()))
  {
    HeadBits(f);
    SizeAgrees(f);
    hide CodedSize, CodedRate, Bitrate, Frame.Size, Frame.SampleRate;
  }

  // The fields of four bytes the header reader accepts.
  function FieldsOf(h0: byte, h1: byte, h2: byte, h3: byte, body: Bytes): Frame {
    var v, l := h1 as int / 8 % 4, h1 as int / 2 % 4;
    Frame(if v == 3 then Mpeg1 else if v == 2 then Mpeg2 else Mpeg25,
          if l == 3 then LayerI else if l == 2 then LayerII else LayerIII,
          h1 as int % 2, h2 as int / 16, h2 as int / 4 % 4, h2 as int / 2 % 2, h2 as int % 2, h3, body)
  }

  // The header writer undoes the header reader.
  lemma FieldsRoundTrip(h0: byte, h1: byte, h2: byte, h3: byte, body: Bytes)
    requires ReadHeader(h0, h1, h2, h3).Some?
    ensures var f := FieldsOf(h0, h1, h2, h3, body); f.Legal() && f.Head() == [h0, h1, h2, h3]
  {
    hide Bitrate, CodedRate, CodedSize;
    Digits(h1, h2);
  }

  // A byte is made up of the fields read from it.
  lemma Digits(h1: byte, h2: byte)
    ensures h1 as int >= 0xe0 ==> h1 as int == 0xe0 + 8 * (h1 as int / 8 % 4) + 2 * (h1 as int / 2 % 4) + h1 as int % 2
    ensures h2 as int == 16 * (h2 as int / 16) + 4 * (h2 as int / 4 % 4) + 2 * (h2 as int / 2 % 2) + h2 as int % 2
  {
    var a, b := h1 as int, h2 as int;
    assert a / 8 % 4 == a / 8 - 4 * (a / 32) && a / 2 % 4 == a / 2 - 4 * (a / 8);
    assert b / 4 % 4 == b / 4 - 4 * (b / 16) && b / 2 % 2 == b / 2 - 2 * (b / 4);
  }

  ghost predicate Legal(fs: seq<Frame>) {
    forall f <- fs :: f.Legal()
  }

  function RenderFrames(fs: seq<Frame>): Bytes
    requires forall f <- fs :: f.Legal()
  {
    if fs == [] then [] else fs[0].Render() + RenderFrames(fs[1..])
  }

  // Every frame has all its bytes, but for a last one the file ends in.
  ghost predicate Fits(fs: seq<Frame>, rest: Bytes) {
    && Legal(fs)
    && forall i | 0 <= i < |fs| :: fs[i].Legal() && FrameFits(fs[i], i == |fs| - 1 && rest == [])
  }

  ghost predicate FrameFits(f: Frame, mayBeCut: bool)
    requires f.Legal()
  {
    |f.body| + 4 == f.Size() || (mayBeCut && |f.body| + 4 < f.Size())
  }

  function TotalSeconds(fs: seq<Frame>): real
    requires forall f <- fs :: f.Legal()
  {
    if fs == [] then 0.0 else fs[0].Seconds() + TotalSeconds(fs[1..])
  }

  // An MP3 file after its tag: headers that hold no audio, the frames with
  // the audio, and bytes that are not a frame.
  datatype Stream = Stream(lead: seq<Frame>, frames: seq<Frame>, tail: Bytes)
  {
    ghost predicate WellFormed() {
      && Fits(frames, tail)
      && Fits(lead, RenderFrames(frames) + tail)
      && (forall f <- lead :: f.Xing())
      && (frames != [] ==> !frames[0].Xing())
      && HeaderAt(tail).None?
    }

    ghost function Render(): Bytes
      requires WellFormed()
    {
      RenderFrames(lead) + (RenderFrames(frames) + tail)
    }

    ghost function Length(): Result<real, Mp3Error>
      requires WellFormed()
    {
      if frames == [] then Err(NoFrames) else Ok(TotalSeconds(frames))
    }
  }

  // The loop meets the first of its frames: it reads its header, sees its
  // bytes, and moves to what is after it.
  lemma MeetsFrame(f: Frame, rest: Bytes)
    requires f.Legal() && FrameFits(f, rest == [])
    ensures HeaderAt(f.Render() + rest) ==
      Some(Header(f.Size(), f.Samples(), f.SampleRate(), f.version == Mpeg1, f.Mono()))
    ensures Skip(f.Render() + rest, f.Size()) == rest
    ensures (f.Render() + rest)[..Min(f.Size(), |f.Render() + rest|)] == f.Render()
  {
    hide CodedSize, CodedRate, Bitrate, Frame.Size, Frame.SampleRate, ReadHeader;
    HeaderRoundTrip(f);
    var s := f.Render() + rest;
    assert s[..4] == f.Head();
    assert s[0] == f.Head()[0] && s[1] == f.Head()[1] && s[2] == f.Head()[2] && s[3] == f.Head()[3];
  }

  lemma WalkOver(f: Frame, rest: Bytes, counted: nat)
    requires f.Legal() && FrameFits(f, rest == [])
    ensures
      if counted == 0 && f.Xing() then Walk(f.Render() + rest, counted) == Walk(rest, 0)
      else
        var r := Walk(rest, counted + 1);
        Walk(f.Render() + rest, counted) == (r.0, f.Seconds() + r.1)
  {
    hide CodedSize, CodedRate, Bitrate, Frame.Size, Frame.SampleRate, ReadHeader, HeaderAt, IsXingFrame;
    MeetsFrame(f, rest);
  }

  lemma FitsFirst(fs: seq<Frame>, rest: Bytes)
    requires fs != [] && Fits(fs, rest)
    ensures FrameFits(fs[0], RenderFrames(fs[1..]) + rest == []) && Fits(fs[1..], rest)
    ensures RenderFrames(fs) + rest == fs[0].Render() + (RenderFrames(fs[1..]) + rest)
  {
    hide Frame.Size, Frame.Legal, FrameFits;
    forall i | 0 <= i < |fs| - 1
      ensures FrameFits(fs[1..][i], i == |fs| - 2 && rest == [])
    {
      assert fs[1..][i] == fs[i + 1];
    }
    if |fs| == 1 {
      assert RenderFrames(fs[1..]) + rest == rest;
    } else {
      assert |RenderFrames(fs[1..])| >= |fs[1].Render()| >= 4;
    }
    assert RenderFrames(fs) + rest == fs[0].Render() + (RenderFrames(fs[1..]) + rest);
  }

  lemma WalkFirst(fs: seq<Frame>, tail: Bytes, counted: nat)
    requires fs != [] && Fits(fs, tail) && (counted > 0 || !fs[0].Xing())
    requires Walk(RenderFrames(fs[1..]) + tail, counted + 1) == (counted + |fs|, TotalSeconds(fs[1..]))
    ensures Walk(RenderFrames(fs) + tail, counted) == (counted + |fs|, TotalSeconds(fs))
  {
    hide Walk, HeaderAt, Frame.Xing, Frame.Seconds, Frame.Legal, FrameFits;
    FitsFirst(fs, tail);
    WalkOver(fs[0], RenderFrames(fs[1..]) + tail, counted);
  }

  lemma {:induction false} WalkFrames(fs: seq<Frame>, tail: Bytes, counted: nat)
    requires Fits(fs, tail) && HeaderAt(tail).None?
    requires counted > 0 || fs == [] || !fs[0].Xing()
    ensures Walk(RenderFrames(fs) + tail, counted) == (counted + |fs|, TotalSeconds(fs))
  {
    hide Walk, HeaderAt, Frame.Xing, FrameFits;
    if fs == [] {
      assert RenderFrames(fs) + tail == tail;
      WalkEnds(tail, counted);
    } else {
      FitsFirst(fs, tail);
      WalkFrames(fs[1..], tail, counted + 1);
      WalkFirst(fs, tail, counted);
    }
  }

  lemma WalkEnds(tail: Bytes, counted: nat)
    requires HeaderAt(tail).None?
    ensures Walk(tail, counted) == (counted, 0.0)
  {}

  lemma {:induction false} WalkLead(lead: seq<Frame>, rest: Bytes)
    requires Fits(lead, rest) && forall f <- lead :: f.Xing()
    ensures Walk(RenderFrames(lead) + rest, 0) == Walk(rest, 0)
  {
    hide Frame.Size, Frame.SampleRate, HeaderAt, IsXingFrame, FrameFits, Walk;
    if lead == [] {
      assert RenderFrames(lead) + rest == rest;
    } else {
      FitsFirst(lead, rest);
      WalkOver(lead[0], RenderFrames(lead[1..]) + rest, 0);
      WalkLead(lead[1..], rest);
    }
  }

  // An ID3v2 tag. Its size is written in four bytes of seven bits, and flag
  // bit 4 says that ten bytes of footer follow.
  datatype Tag = Tag(major: byte, minor: byte, flags: byte, payload: Bytes, footer: Bytes)
  {
    predicate Legal() {
      && |payload| < 0x1000_0000
      && |footer| == if flags as int / 16 % 2 == 1 then 10 else 0
    }

    function Render(): Bytes
      requires Legal()
    {
      Head() + payload + footer
    }

    function Head(): (h: Bytes)
      requires Legal()
      ensures |h| == 10
    {
      var n := |payload|;
      ID3 + [major, minor, flags,
             (n / 0x20_0000) as byte, (n / 0x4000 % 128) as byte, (n / 0x80 % 128) as byte, (n % 128) as byte]
    }
  }

  lemma SyncSafe(n: nat)
    requires n < 0x1000_0000
    ensures n / 0x20_0000 < 128
    ensures n / 0x20_0000 * 0x20_0000 + n / 0x4000 % 128 * 0x4000 + n / 0x80 % 128 * 0x80 + n % 128 == n
  {
    assert n / 0x4000 / 128 == n / 0x20_0000;
    assert n / 0x80 / 128 == n / 0x4000;
  }

  lemma TagSizeField(t: Tag, b: Bytes)
    requires t.Legal() && |b| >= 10 && b[..10] == t.Head()
    ensures TagSize(b) == |t.payload|
  {
    var n, head := |t.payload|, b[..10];
    assert b[6] == head[6] && b[7] == head[7] && b[8] == head[8] && b[9] == head[9];
    var s6, s7, s8, s9 := b[6] as int, b[7] as int, b[8] as int, b[9] as int;
    assert s6 == n / 0x20_0000 && s7 == n / 0x4000 % 128 && s8 == n / 0x80 % 128 && s9 == n % 128;
    SyncSafe(n);
  }

  lemma TagHeadEnd(t: Tag, b: Bytes)
    requires t.Legal() && |b| >= 10 && b[..10] == t.Head()
    ensures TagEnd(b) == 10 + |t.payload| + |t.footer|
  {
    var head := b[..10];
    assert b[..3] == head[..3] == ID3;
    assert b[5] == head[5];
    TagSizeField(t, b);
    hide TagSize;
  }

  lemma TagIsSkipped(t: Tag, rest: Bytes)
    requires t.Legal()
    ensures Skip(t.Render() + rest, TagEnd(t.Render() + rest)) == rest
  {
    hide TagEnd, Tag.Head;
    var b := t.Render() + rest;
    assert b[..10] == t.Head();
    TagHeadEnd(t, b);
    assert TagEnd(b) == |t.Render()|;
  }

  // Every file that is a tag and a stream of frames has the length of its
  // frames, exactly.
  lemma Mp3OfStream(tag: Option<Tag>, st: Stream)
    requires st.WellFormed() && (tag.Some? ==> tag.value.Legal())
    requires tag.None? ==> |st.Render()| < 10 || st.Render()[..3] != [0x49, 0x44, 0x33]
    ensures Mp3((if tag.Some? then tag.value.Render() else []) + st.Render()) == st.Length()
  {
    var b := (if tag.Some? then tag.value.Render() else []) + st.Render();
    if tag.Some? {
      TagIsSkipped(tag.value, st.Render());
    } else {
      assert b == st.Render();
    }
    assert Skip(b, TagEnd(b)) == st.Render();
    WalkLead(st.lead, RenderFrames(st.frames) + st.tail);
    WalkFrames(st.frames, st.tail, 0);
  }

  lemma {:induction false} ParseFrames(s: Bytes) returns (fs: seq<Frame>, tail: Bytes)
    ensures Fits(fs, tail) && HeaderAt(tail).None? && RenderFrames(fs) + tail == s
    decreases |s|
  {
    if HeaderAt(s).None? {
      fs, tail := [], s;
      assert RenderFrames(fs) + tail == s;
    } else {
      var h := HeaderAt(s).value;
      var f := FieldsOf(s[0], s[1], s[2], s[3], s[4..Min(h.size, |s|)]);
      FieldsRoundTrip(s[0], s[1], s[2], s[3], f.body);
      HeaderRoundTrip(f);
      var rest := Skip(s, h.size);
      assert f.Render() + rest == s;
      var more, end := ParseFrames(rest);
      fs, tail := [f] + more, end;
      FitsConcat(f, more, tail);
    }
  }

  lemma FitsConcat(f: Frame, fs: seq<Frame>, rest: Bytes)
    requires f.Legal() && Fits(fs, rest) && FrameFits(f, RenderFrames(fs) + rest == [])
    ensures Fits([f] + fs, rest)
    ensures RenderFrames([f] + fs) + rest == f.Render() + (RenderFrames(fs) + rest)
  {
    hide Frame.Size, Frame.Legal;
    var all := [f] + fs;
    assert all[1..] == fs;
    forall i | 0 <= i < |all|
      ensures FrameFits(all[i], i == |all| - 1 && rest == [])
    {
      if i > 0 {
        assert all[i] == fs[i - 1];
      } else if fs != [] {
        assert |RenderFrames(fs)| >= |fs[0].Render()| >= 4;
      }
    }
  }

  // The lead frames are the ones up to the first that is not a Xing frame.
  lemma {:induction false} SplitLead(fs: seq<Frame>, tail: Bytes) returns (st: Stream)
    requires Fits(fs, tail) && HeaderAt(tail).None?
    ensures st.WellFormed() && st.Render() == RenderFrames(fs) + tail
  {
    if fs == [] || !fs[0].Xing() {
      st := Stream([], fs, tail);
      assert RenderFrames([]) + (RenderFrames(fs) + tail) == RenderFrames(fs) + tail;
    } else {
      FitsFirst(fs, tail);
      var inner := SplitLead(fs[1..], tail);
      FitsConcat(fs[0], inner.lead, RenderFrames(inner.frames) + inner.tail);
      st := Stream([fs[0]] + inner.lead, inner.frames, inner.tail);
    }
  }

  // Every file at all is such a stream behind its tag, so the length is
  // always that of the frames the grammar finds in it.
  lemma Mp3OfAnyFile(b: Bytes) returns (st: Stream)
    ensures st.WellFormed() && st.Render() == Skip(b, TagEnd(b))
    ensures Mp3(b) == st.Length()
  {
    var fs, tail := ParseFrames(Skip(b, TagEnd(b)));
    st := SplitLead(fs, tail);
    WalkLead(st.lead, RenderFrames(st.frames) + st.tail);
    WalkFrames(st.frames, st.tail, 0);
  }
}
