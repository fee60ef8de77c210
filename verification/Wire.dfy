/** The printer on the wire: connecting, printing a raster, and decoding a capture. */
module Wire {
  import opened Arithmetic
  import opened Basics
  import opened Contract
  import opened DeviceRaster
  import Strips = Raster

  const CTRL: seq<byte> := [0x1F, 0x11]
  const GS_V0: seq<byte> := [0x1D, 0x76, 0x30, 0x00]
  const PAPER_GAP: byte := 0x0A
  const PAPER_CONTINUOUS: byte := 0x0B
  const MAX_FRAME_LINES: nat := 0xFFFF
  const MAX_FRAME_BYTES_PER_LINE: nat := 0xFFFF

  /** Sub-opcodes of the queries sent on every connect, in order. */
  const SESSION_QUERIES: seq<byte> := [0x38, 0x12, 0x13, 0x09, 0x11, 0x19, 0x07, 0x08, 0x0E]

  datatype D30Config = D30Config(
    chunkBytes: nat,
    density: byte,
    paperType: byte,
    feedLines: byte,
    headWidthBytes: nat,
    batchQueries: bool)
  {
    /** What the configuration checks on construction; `range` refuses a step of zero. */
    predicate Valid() {
      && density in {1, 2, 4}
      && paperType in {PAPER_GAP, PAPER_CONTINUOUS}
      && chunkBytes > 0
    }
  }

  datatype DeviceError = NotReady | Geometry | BadValue

  function Flat(packets: seq<seq<byte>>): seq<byte> {
    if packets == [] then [] else Flat(packets[..|packets| - 1]) + packets[|packets| - 1]
  }

  /** `session_setup`: the queries, one write each or all in one, then tape type and density. */
  function SessionSetup(cfg: D30Config): seq<seq<byte>> {
    var queries := seq(|SESSION_QUERIES|, i requires 0 <= i < |SESSION_QUERIES| => CTRL + [SESSION_QUERIES[i]]);
    (if cfg.batchQueries then [Flat(queries)] else queries) + [CTRL + [cfg.paperType] + CTRL + [0x02, cfg.density]]
  }

  function Le16(v: nat): (r: seq<byte>)
    requires v <= 0xFFFF
    ensures |r| == 2
  {
    [v % 256, v / 256]
  }

  function FromLe16(b: seq<byte>): nat
    requires |b| == 2
  {
    b[0] as nat + 256 * b[1] as nat
  }

  /** `raster_header`; None stands for its ValueErrors. */
  function RasterHeader(wb: nat, h: nat): Option<seq<byte>> {
    if 0 < wb <= MAX_FRAME_BYTES_PER_LINE && 0 < h <= MAX_FRAME_LINES then Some(GS_V0 + Le16(wb) + Le16(h)) else None
  }

  function LeftMargin(wb: nat, head: nat): nat {
    if head > wb then head - wb else 0
  }

  /** `print_preamble`; None stands for its ValueErrors. */
  function Preamble(cfg: D30Config, wb: nat, h: nat, copies: nat): (r: Option<seq<byte>>)
    ensures r.Some? ==> RasterHeader(wb, h).Some? && |r.value| >= 8 && r.value[|r.value| - 8..] == RasterHeader(wb, h).value
  {
    var gap := cfg.paperType == PAPER_GAP;
    if copies < 1 || copies > 0xFF || (!gap && copies > 1) then None
    else if gap && LeftMargin(wb, cfg.headWidthBytes) > 0xFF then None
    else if RasterHeader(wb, h).None? then None
    else
      Some(CTRL + [cfg.paperType] + CTRL + [0x02, cfg.density]
           + (if gap then CTRL + [0x24, LeftMargin(wb, cfg.headWidthBytes)] else [])
           + (if gap && copies > 1 then CTRL + [0x21, copies] else [])
           + [0x1B, 0x40]
           + (if gap then CTRL + [0x35, 0] else [])
           + RasterHeader(wb, h).value)
  }

  /** The feed behind a frame on continuous tape. */
  function Feed(cfg: D30Config): seq<byte> {
    if cfg.paperType == PAPER_CONTINUOUS && cfg.feedLines > 0 then [0x1B, 0x64, cfg.feedLines] else []
  }

  /** Everything one printed raster puts on the wire. */
  function FrameBytes(cfg: D30Config, raster: Raster, copies: nat): Option<seq<byte>> {
    match Preamble(cfg, raster.width / 8, raster.height, copies)
    case None => None
    case Some(head) => Some(head + raster.data + Feed(cfg))
  }

  // --- on the wire, byte by byte ----------------------------------------------

  lemma FlatOne(packets: seq<seq<byte>>, last: seq<byte>)
    ensures Flat(packets + [last]) == Flat(packets) + last
  {
    assert (packets + [last])[..|packets|] == packets;
  }

  lemma {:induction false} FlatLength(q: seq<seq<byte>>)
    requires forall i :: 0 <= i < |q| ==> |q[i]| == 3
    ensures |Flat(q)| == 3 * |q|
  {
    if q != [] {
      FlatLength(q[..|q| - 1]);
    }
  }

  lemma {:induction false} FlatTriples(q: seq<seq<byte>>, k: nat)
    requires (forall i :: 0 <= i < |q| ==> |q[i]| == 3) && k < |q|
    ensures |Flat(q)| == 3 * |q|
    ensures Flat(q)[3 * k] == q[k][0] && Flat(q)[3 * k + 1] == q[k][1] && Flat(q)[3 * k + 2] == q[k][2]
    decreases |q|
  {
    var n := |q| - 1;
    FlatLength(q);
    FlatLength(q[..n]);
    assert Flat(q) == Flat(q[..n]) + q[n];
    if k < n {
      FlatTriples(q[..n], k);
    }
  }

  /** Connecting writes the same bytes whether the queries go out one by one or in one piece:
      the nine queries in order, then the tape type and the density. */
  lemma SessionBytes(cfg: D30Config, k: nat)
    requires k < 9
    ensures var sent := Flat(SessionSetup(cfg));
            && |sent| == 34
            && sent[3 * k] == 0x1F && sent[3 * k + 1] == 0x11
            && sent[3 * k + 2] == [0x38, 0x12, 0x13, 0x09, 0x11, 0x19, 0x07, 0x08, 0x0E][k]
            && sent[27..] == [0x1F, 0x11, cfg.paperType, 0x1F, 0x11, 0x02, cfg.density]
  {
    var queries := seq(|SESSION_QUERIES|, i requires 0 <= i < |SESSION_QUERIES| => CTRL + [SESSION_QUERIES[i]]);
    var last := CTRL + [cfg.paperType] + CTRL + [0x02, cfg.density];
    FlatTriples(queries, k);
    FlatOne([], Flat(queries));
    FlatOne([Flat(queries)], last);
    FlatOne(queries, last);
    assert [] + [Flat(queries)] == [Flat(queries)];
    assert Flat(SessionSetup(cfg)) == Flat(queries) + last;
    assert queries[k] == [0x1F, 0x11, SESSION_QUERIES[k]];
  }

  lemma LowByteFirst()
    ensures Le16(8) == [0x08, 0x00] && Le16(12) == [0x0C, 0x00] && Le16(300) == [0x2C, 0x01]
  {
  }

  /** Before 300 lines of twelve bytes on continuous tape: tape type, density, reset, and the
      header with both sizes low byte first; behind them the feed. */
  lemma BytesOnContinuousTape(cfg: D30Config)
    requires cfg.paperType == PAPER_CONTINUOUS
    ensures Preamble(cfg, 12, 300, 1).Some?
    ensures Preamble(cfg, 12, 300, 1).value ==
            [0x1F, 0x11, 0x0B, 0x1F, 0x11, 0x02, cfg.density, 0x1B, 0x40, 0x1D, 0x76, 0x30, 0x00, 0x0C, 0x00, 0x2C, 0x01]
    ensures cfg.feedLines == 23 ==> Feed(cfg) == [0x1B, 0x64, 0x17]
  {
    hide Le16;
    LowByteFirst();
  }

  /** Before three copies of 300 lines of eight bytes on die-cut tape, on a head of twelve: a left
      margin and a copy count ahead of the reset, and compression off behind it. */
  lemma BytesOnGapTape(cfg: D30Config)
    requires cfg.paperType == PAPER_GAP && cfg.headWidthBytes == 12
    ensures Preamble(cfg, 8, 300, 3).Some?
    ensures Preamble(cfg, 8, 300, 3).value ==
            [0x1F, 0x11, 0x0A, 0x1F, 0x11, 0x02, cfg.density, 0x1F, 0x11, 0x24, 0x04, 0x1F, 0x11, 0x21, 0x03,
             0x1B, 0x40, 0x1F, 0x11, 0x35, 0x00, 0x1D, 0x76, 0x30, 0x00, 0x08, 0x00, 0x2C, 0x01]
    ensures Feed(cfg) == []
  {
    hide Le16;
    LowByteFirst();
  }

  /** What is refused: no copies or more than a byte counts, more than one on continuous tape, a
      raster of no size or a size no header can carry, and on die-cut tape a left margin that no
      byte can. */
  lemma RefusedExactlyWhen(cfg: D30Config, wb: nat, h: nat, copies: nat)
    requires cfg.Valid()
    ensures Preamble(cfg, wb, h, copies).Some? <==>
            && 1 <= copies <= (if cfg.paperType == PAPER_CONTINUOUS then 1 else 255)
            && 1 <= wb <= 65535 && 1 <= h <= 65535
            && (cfg.paperType == PAPER_CONTINUOUS || cfg.headWidthBytes <= wb + 255)
  {
    hide Le16;
  }

  /** On die-cut tape the left margin and the raster fill the head, and a raster as wide as the
      head has none. */
  lemma MarginFillsTheHead(cfg: D30Config, wb: nat, h: nat, copies: nat)
    requires cfg.paperType == PAPER_GAP && Preamble(cfg, wb, h, copies).Some?
    ensures var bytes := Preamble(cfg, wb, h, copies).value;
            |bytes| > 10 && bytes[7..10] == [0x1F, 0x11, 0x24] && wb + bytes[10] as nat == Max(wb, cfg.headWidthBytes)
  {
    hide Le16;
  }

  class PhomemoD30 {
    const cfg: D30Config
    /** Every byte written to the transport so far. */
    var sent: seq<byte>
    var connected: bool

    constructor (cfg: D30Config)
      ensures this.cfg == cfg && sent == [] && !connected
    {
      this.cfg, sent, connected := cfg, [], false;
    }

    /** `connect`, over a link that stays up. */
    method Connect()
      modifies this
      ensures connected && sent == old(sent) + Flat(SessionSetup(cfg))
    {
      hide SessionSetup;
      var packets := SessionSetup(cfg);
      for i := 0 to |packets|
        invariant sent == old(sent) + Flat(packets[..i])
      {
        assert packets[..i + 1][..i] == packets[..i];
        sent := sent + packets[i];
      }
      assert packets[..|packets|] == packets;
      connected := true;
    }

    /** `print_raster`: the preamble, the data chunk by chunk, the trailing feed. Nothing is
        written when an error is raised. */
    method PrintRaster(raster: Raster, copies: nat) returns (error: Option<DeviceError>)
      requires cfg.Valid() && raster.Valid()
      modifies this`sent
      ensures error == if !connected then Some(NotReady)
                       else if raster.height > MAX_FRAME_LINES then Some(Geometry)
                       else if FrameBytes(cfg, raster, copies).None? then Some(BadValue)
                       else None
      ensures sent == if error.None? then old(sent) + FrameBytes(cfg, raster, copies).value else old(sent)
    {
      hide Preamble, Feed;
      if !connected {
        return Some(NotReady);
      }
      if raster.height > MAX_FRAME_LINES {
        return Some(Geometry);
      }
      var head := Preamble(cfg, raster.width / 8, raster.height, copies);
      if head.None? {
        return Some(BadValue);
      }
      sent := sent + head.value;
      var offset := 0;
      while offset < |raster.data|
        invariant 0 <= offset
        invariant sent == old(sent) + head.value + raster.data[..Min(offset, |raster.data|)]
      {
        var end := Min(offset + cfg.chunkBytes, |raster.data|);
        var chunk := raster.data[offset..end];
        assert raster.data[..offset] + chunk == raster.data[..end];
        sent := sent + chunk;
        offset := offset + cfg.chunkBytes;
      }
      assert raster.data[..|raster.data|] == raster.data;
      sent := sent + Feed(cfg);
      error := None;
    }
  }

  const COMPLETION_POLL: real := 0.05

  /** `_await_completion` behind a printer that reports: look, and sleep a poll at a time until
      it says it finished or the budget is spent. `completed` is what it has said at each look. */
  method AwaitCompletion(completed: nat -> nat, before: nat, budget: real)
    returns (waited: real, confirmed: bool, looks: nat)
    ensures forall k :: 0 <= k < looks ==> completed(k) <= before
    ensures confirmed ==> completed(looks) > before && waited == looks as real * 0.05 < budget
    ensures !confirmed ==> waited == (if budget > 0.0 then budget else 0.0) && budget <= looks as real * 0.05
    ensures looks > 0 ==> (looks as real - 1.0) * 0.05 < budget
  {
    waited, confirmed, looks := 0.0, false, 0;
    while waited < budget
      invariant forall k :: 0 <= k < looks ==> completed(k) <= before
      invariant waited == if looks == 0 || looks as real * COMPLETION_POLL <= budget then looks as real * COMPLETION_POLL else budget
      invariant looks == 0 || (looks as real - 1.0) * COMPLETION_POLL < budget
      decreases (budget / COMPLETION_POLL).Floor + 1 - looks
    {
      if completed(looks) > before {
        confirmed := true;
        return;
      }
      var step := if COMPLETION_POLL < budget - waited then COMPLETION_POLL else budget - waited;
      waited, looks := waited + step, looks + 1;
    }
  }

  // --- decoding a capture -----------------------------------------------------

  predicate MarkerAt(stream: seq<byte>, p: nat) {
    p + |GS_V0| <= |stream| && stream[p..p + |GS_V0|] == GS_V0
  }

  /** `stream.find(GS_V0, start)`: None stands for -1. */
  function FindFrom(stream: seq<byte>, start: nat): (p: Option<nat>)
    ensures p.Some? ==> start <= p.value && MarkerAt(stream, p.value)
    ensures forall q :: start <= q < (if p.Some? then p.value else |stream|) ==> !MarkerAt(stream, q)
    decreases |stream| - start
  {
    if start + |GS_V0| > |stream| then None
    else if MarkerAt(stream, start) then Some(start)
    else FindFrom(stream, start + 1)
  }

  /** Every place a frame header starts, in order. */
  ghost predicate AreOffsets(stream: seq<byte>, offsets: seq<nat>) {
    && (forall p :: p in offsets <==> MarkerAt(stream, p))
    && (forall i, k :: 0 <= i < k < |offsets| ==> offsets[i] < offsets[k])
  }

  method FindFrames(stream: seq<byte>) returns (offsets: seq<nat>)
    ensures AreOffsets(stream, offsets)
  {
    offsets := [];
    var start: nat := 0;
    var p := FindFrom(stream, start);
    while p.Some?
      invariant start <= |stream| && p == FindFrom(stream, start)
      invariant forall q: nat :: q in offsets <==> MarkerAt(stream, q) && q < start
      invariant forall i, k :: 0 <= i < k < |offsets| ==> offsets[i] < offsets[k]
      decreases |stream| - start
    {
      forall i | 0 <= i < |offsets| ensures offsets[i] < p.value {
        assert offsets[i] in offsets;
      }
      offsets := offsets + [p.value];
      start := p.value + 1;
      p := FindFrom(stream, start);
    }
  }

  datatype DecodeError = TruncatedHeader(at: nat) | ShortBody(at: nat) | UnknownRotation

  datatype DecodedFrame = DecodedFrame(width: nat, height: nat, offset: nat, image: Image)

  datatype Decoded = Frames(frames: seq<DecodedFrame>) | Fails(error: DecodeError)

  /** One frame of a capture. */
  function DecodeAt(stream: seq<byte>, at: nat, rotation: int, mirror: bool): Decoded {
    if at + 8 > |stream| then Fails(TruncatedHeader(at))
    else
      var wb := FromLe16(stream[at + 4..at + 6]);
      var h := FromLe16(stream[at + 6..at + 8]);
      var start := at + 8;
      if |stream| < start + wb * h then Fails(ShortBody(at))
      else if !KnownRotation(rotation) then Fails(UnknownRotation)
      else Frames([DecodedFrame(8 * wb, h, at, FromDevice(stream[start..start + wb * h], wb, h, rotation, mirror))])
  }

  function DecodeEach(stream: seq<byte>, offsets: seq<nat>, rotation: int, mirror: bool): Decoded {
    if offsets == [] then Frames([])
    else
      match DecodeEach(stream, offsets[..|offsets| - 1], rotation, mirror)
      case Fails(e) => Fails(e)
      case Frames(before) =>
        match DecodeAt(stream, offsets[|offsets| - 1], rotation, mirror)
        case Fails(e) => Fails(e)
        case Frames(last) => Frames(before + last)
  }

  /** `decode_frames` */
  method DecodeFrames(stream: seq<byte>, rotation: int, mirror: bool) returns (r: Decoded, offsets: seq<nat>)
    ensures AreOffsets(stream, offsets)
    ensures r == DecodeEach(stream, offsets, rotation, mirror)
  {
    var found := FindFrames(stream);
    offsets := found;
    var frames: seq<DecodedFrame> := [];
    for i := 0 to |found|
      invariant DecodeEach(stream, found[..i], rotation, mirror) == Frames(frames)
      invariant found == offsets
    {
      assert found[..i + 1][..i] == found[..i];
      var one := DecodeAt(stream, found[i], rotation, mirror);
      if one.Fails? {
        DecodeFailsEarly(stream, found, i + 1, rotation, mirror);
        return Fails(one.error), found;
      }
      frames := frames + one.frames;
    }
    assert found[..|found|] == found;
    r := Frames(frames);
  }

  lemma {:induction false} DecodeFailsEarly(stream: seq<byte>, offsets: seq<nat>, k: nat, rotation: int, mirror: bool)
    requires k <= |offsets| && DecodeEach(stream, offsets[..k], rotation, mirror).Fails?
    ensures DecodeEach(stream, offsets, rotation, mirror) == DecodeEach(stream, offsets[..k], rotation, mirror)
    decreases |offsets|
  {
    if k < |offsets| {
      assert offsets[..|offsets| - 1][..k] == offsets[..k];
      DecodeFailsEarly(stream, offsets[..|offsets| - 1], k, rotation, mirror);
    } else {
      assert offsets[..k] == offsets;
    }
  }

  // --- there and back ---------------------------------------------------------

  lemma {:induction false} Spread(offsets: seq<nat>, k: nat)
    requires k < |offsets| && forall i, j :: 0 <= i < j < |offsets| ==> offsets[i] < offsets[j]
    ensures offsets[k] >= offsets[0] + k
  {
    if k > 0 {
      Spread(offsets, k - 1);
    }
  }

  lemma OneOffset(stream: seq<byte>, offsets: seq<nat>, p: nat)
    requires AreOffsets(stream, offsets)
    requires MarkerAt(stream, p) && forall q :: MarkerAt(stream, q) ==> q == p
    ensures offsets == [p]
  {
    assert p in offsets;
    forall i | 0 <= i < |offsets| ensures offsets[i] == p {
      assert offsets[i] in offsets;
      assert MarkerAt(stream, offsets[i]);
    }
    Spread(offsets, |offsets| - 1);
  }

  lemma Le16RoundTrip(v: nat)
    requires v <= 0xFFFF
    ensures FromLe16(Le16(v)) == v
  {
  }

  /** A frame in a capture decodes to the bitmap it was made of. */
  lemma FrameDecodes(cfg: D30Config, raster: Raster, copies: nat, before: seq<byte>, after: seq<byte>, rotation: int,
                     mirror: bool)
    requires raster.Valid() && FrameBytes(cfg, raster, copies).Some? && KnownRotation(rotation)
    ensures var stream := before + FrameBytes(cfg, raster, copies).value + after;
            var at := |before| + |Preamble(cfg, raster.width / 8, raster.height, copies).value| - 8;
            && MarkerAt(stream, at)
            && DecodeAt(stream, at, rotation, mirror) == Frames([DecodedFrame(raster.width, raster.height, at,
                 FromDevice(raster.data, raster.width / 8, raster.height, rotation, mirror))])
  {
    hide FromDevice, Preamble, Feed;
    var wb, h := raster.width / 8, raster.height;
    var head := Preamble(cfg, wb, h, copies).value;
    var header := RasterHeader(wb, h).value;
    var stream := before + FrameBytes(cfg, raster, copies).value + after;
    var at := |before| + |head| - 8;
    assert stream == before + head[..|head| - 8] + header + raster.data + (Feed(cfg) + after);
    assert stream[at..at + 4] == GS_V0;
    assert stream[at + 4..at + 6] == Le16(wb) && stream[at + 6..at + 8] == Le16(h);
    Le16RoundTrip(wb);
    Le16RoundTrip(h);
    assert stream[at + 8..at + 8 + wb * h] == raster.data;
  }

  /** A capture that breaks off inside a frame is refused, for its header or for its body, whatever
      the rotation asked for. */
  lemma BrokenOffFrameFails(cfg: D30Config, raster: Raster, copies: nat, before: seq<byte>, rotation: int, mirror: bool,
                            k: nat)
    requires raster.Valid() && FrameBytes(cfg, raster, copies).Some? && k < 8 + |raster.data|
    ensures var head := Preamble(cfg, raster.width / 8, raster.height, copies).value;
            var at := |before| + |head| - 8;
            var stream := before + head + raster.data;
            && at + k <= |stream|
            && DecodeAt(stream[..at + k], at, rotation, mirror)
               == Fails(if k < 8 then TruncatedHeader(at) else ShortBody(at))
  {
    hide FromDevice, Preamble, Feed;
    var wb, h := raster.width / 8, raster.height;
    var head := Preamble(cfg, wb, h, copies).value;
    var stream := before + head + raster.data;
    var at := |before| + |head| - 8;
    assert stream == before + head[..|head| - 8] + RasterHeader(wb, h).value + raster.data;
    var cut := stream[..at + k];
    if k >= 8 {
      assert cut[at + 4..at + 6] == Le16(wb) && cut[at + 6..at + 8] == Le16(h);
      Le16RoundTrip(wb);
      Le16RoundTrip(h);
    }
  }

  /** What connecting and printing a strip of labels puts on the wire. */
  ghost predicate Captured(cfg: D30Config, strip: Image, rotation: int, mirror: bool, threshold: int, copies: nat,
                           stream: seq<byte>)
    requires strip.Valid()
  {
    && ToDevice(strip, rotation, mirror, threshold).Some?
    && FrameBytes(cfg, ToDevice(strip, rotation, mirror, threshold).value, copies).Some?
    && stream == Flat(SessionSetup(cfg)) + FrameBytes(cfg, ToDevice(strip, rotation, mirror, threshold).value, copies).value
  }

  /** The printed picture of one row: below the threshold black, else white. */
  function Thresholded(row: seq<byte>, threshold: int): seq<byte> {
    seq(|row|, x requires 0 <= x < |row| => if row[x] + threshold <= 255 then 0 else 255)
  }

  lemma CaptureDecodes(cfg: D30Config, strip: Image, rotation: int, mirror: bool, threshold: int, copies: nat,
                       stream: seq<byte>, offsets: seq<nat>)
    requires strip.Valid() && Captured(cfg, strip, rotation, mirror, threshold, copies, stream)
    requires AreOffsets(stream, offsets)
    requires forall p, q :: MarkerAt(stream, p) && MarkerAt(stream, q) ==> p == q
    ensures var r := DecodeEach(stream, offsets, rotation, mirror);
            && r.Frames? && |r.frames| == 1
            && r.frames[0].image == Developed(Bilevel(strip, threshold))
  {
    hide FromDevice, ToDevice, SessionSetup, FrameBytes, Bilevel, Developed, DecodeAt, DecodeEach, Preamble, MarkerAt;
    var raster := ToDevice(strip, rotation, mirror, threshold).value;
    KnownWhenDone(strip, rotation, mirror, threshold);
    FrameDecodes(cfg, raster, copies, Flat(SessionSetup(cfg)), [], rotation, mirror);
    assert stream + [] == stream;
    Framed(cfg, raster, copies);
    var at := |Flat(SessionSetup(cfg))| + |Preamble(cfg, raster.width / 8, raster.height, copies).value| - 8;
    OneOffset(stream, offsets, at);
    DecodeOne(stream, at, rotation, mirror);
    DeviceRoundTrip(strip, rotation, mirror, threshold);
  }

  lemma DecodeOne(stream: seq<byte>, at: nat, rotation: int, mirror: bool)
    ensures DecodeEach(stream, [at], rotation, mirror) == DecodeAt(stream, at, rotation, mirror)
  {
    assert [at][..0] == [];
  }

  lemma KnownWhenDone(strip: Image, rotation: int, mirror: bool, threshold: int)
    requires strip.Valid() && ToDevice(strip, rotation, mirror, threshold).Some?
    ensures KnownRotation(rotation)
  {
  }

  lemma Framed(cfg: D30Config, raster: Raster, copies: nat)
    requires FrameBytes(cfg, raster, copies).Some?
    ensures Preamble(cfg, raster.width / 8, raster.height, copies).Some?
  {
  }

  /** Decoding yields a frame for every marker, or an error. */
  lemma {:induction false} OneFramePerMarker(stream: seq<byte>, offsets: seq<nat>, rotation: int, mirror: bool)
    ensures var r := DecodeEach(stream, offsets, rotation, mirror); r.Frames? ==> |r.frames| == |offsets|
  {
    hide FromDevice;
    if offsets != [] {
      OneFramePerMarker(stream, offsets[..|offsets| - 1], rotation, mirror);
    }
  }

  /** The capture of one strip decodes to one frame exactly where the frame marker occurs
      nowhere but at the header: the raster's own bytes are searched as well. */
  lemma DecodesToOneFrameIff(cfg: D30Config, strip: Image, rotation: int, mirror: bool, threshold: int, copies: nat,
                             stream: seq<byte>, offsets: seq<nat>)
    requires strip.Valid() && Captured(cfg, strip, rotation, mirror, threshold, copies, stream)
    requires AreOffsets(stream, offsets)
    ensures var r := DecodeEach(stream, offsets, rotation, mirror);
            r.Frames? && |r.frames| == 1 <==> forall p, q :: MarkerAt(stream, p) && MarkerAt(stream, q) ==> p == q
  {
    hide ToDevice, SessionSetup, FrameBytes, DecodeEach, MarkerAt, Bilevel, Developed;
    OneFramePerMarker(stream, offsets, rotation, mirror);
    if forall p, q :: MarkerAt(stream, p) && MarkerAt(stream, q) ==> p == q {
      CaptureDecodes(cfg, strip, rotation, mirror, threshold, copies, stream, offsets);
    } else {
      var p, q :| MarkerAt(stream, p) && MarkerAt(stream, q) && p != q;
      assert p in offsets && q in offsets;
    }
  }

  /** A label one pixel long on a tape of wb bytes, whose ink spells the frame marker from its
      lower edge upwards. */
  function MarkerLabel(wb: nat): (im: Image)
    ensures im.Valid() && im.width == 1 && im.height == 8 * wb
  {
    Image(1, 8 * wb, seq(8 * wb, y requires 0 <= y < 8 * wb =>
      [if 8 * wb - 1 - y < 32 && UnpackRow(GS_V0)[8 * wb - 1 - y] then 0 else 255]))
  }

  /** Turned along the tape as by default, a column that spells the marker is a row that starts
      with it. */
  lemma ColumnToRow(strip: Image, y: nat)
    requires strip.Valid() && strip.height % 8 == 0 && strip.height >= 32 && y < strip.width
    requires forall x :: 0 <= x < 32 ==> (strip.rows[strip.height - 1 - x][y] <= 127) == UnpackRow(GS_V0)[x]
    ensures var r := ToDevice(strip, 270, false, 128);
            && r.Some? && r.value.width == strip.height && r.value.height == strip.width
            && 0 <= strip.height / 8 * y && strip.height / 8 * y + 4 <= |r.value.data|
            && r.value.data[strip.height / 8 * y..strip.height / 8 * y + 4] == GS_V0
  {
    hide PackRow, PackRows, UnpackRow;
    var b := Oriented(Bilevel(strip, 128), 270, false);
    assert b.width == strip.height && b.height == strip.width;
    RowInBody(b.rows, b.width, y);
    RowStart(b.rows[y], 4);
    assert b.rows[y][..32] == UnpackRow(GS_V0);
    AnyBytesArePacked(GS_V0);
    var at, wb, data := b.width / 8 * y, b.width / 8, PackRows(b.rows, b.width);
    assert data[at..at + wb][..4] == data[at..at + 4];
  }

  /** The strip the agent makes of that one label, separators and all. */
  function MarkerStrip(wb: nat, sep: nat): (strip: Image)
    ensures strip.Valid() && strip.height == 8 * wb && strip.width == Strips.StripWidth([MarkerLabel(wb)], sep, true)
  {
    Strips.StripOf([MarkerLabel(wb)], sep, true)
  }

  lemma MarkerInStrip(wb: nat, sep: nat) returns (at: nat)
    requires wb >= 4
    ensures var r := ToDevice(MarkerStrip(wb, sep), 270, false, 128);
            && r.Some? && r.value.width == 8 * wb && r.value.height == MarkerStrip(wb, sep).width
            && at + 4 <= |r.value.data| && r.value.data[at..at + 4] == GS_V0
  {
    hide Strips.StripRow, ToDevice, UnpackRow;
    var im, strip := MarkerLabel(wb), MarkerStrip(wb, sep);
    var y := Strips.Start([im], sep, true, 0);
    forall x | 0 <= x < 32 ensures y < strip.width && (strip.rows[strip.height - 1 - x][y] <= 127) == UnpackRow(GS_V0)[x] {
      var row := strip.height - 1 - x;
      Strips.LabelInStrip([im], sep, true, 0, row);
      assert strip.rows[row][y..y + 1] == im.rows[row];
      assert strip.rows[row][y] == im.rows[row][0];
    }
    ColumnToRow(strip, y);
    at := wb * y;
  }

  lemma MarkerTwice(cfg: D30Config, raster: Raster, at: nat, stream: seq<byte>) returns (p: nat, q: nat)
    requires raster.Valid() && FrameBytes(cfg, raster, 1).Some?
    requires at + 4 <= |raster.data| && raster.data[at..at + 4] == GS_V0
    requires stream == Flat(SessionSetup(cfg)) + FrameBytes(cfg, raster, 1).value
    ensures MarkerAt(stream, p) && MarkerAt(stream, q) && p != q
  {
    hide SessionSetup, Flat, Feed, FromDevice, DecodeAt, Preamble;
    var setup, head := Flat(SessionSetup(cfg)), Preamble(cfg, raster.width / 8, raster.height, 1).value;
    FrameDecodes(cfg, raster, 1, setup, [], 0, false);
    assert setup + FrameBytes(cfg, raster, 1).value + [] == stream;
    p, q := |setup| + |head| - 8, |setup| + |head| + at;
    assert stream == setup + head + raster.data + Feed(cfg);
    assert stream[q..q + 4] == raster.data[at..at + 4];
  }

  /** That strip does get printed on continuous tape. */
  lemma MarkerStripIsPrinted(cfg: D30Config, wb: nat, sep: nat) returns (stream: seq<byte>)
    requires cfg.paperType == PAPER_CONTINUOUS && 4 <= wb <= MAX_FRAME_BYTES_PER_LINE
    requires Strips.StripWidth([MarkerLabel(wb)], sep, true) <= MAX_FRAME_LINES
    ensures Captured(cfg, MarkerStrip(wb, sep), 270, false, 128, 1, stream)
  {
    hide ToDevice, SessionSetup, Flat, Feed, MarkerStrip, MarkerLabel;
    var at := MarkerInStrip(wb, sep);
    var raster := ToDevice(MarkerStrip(wb, sep), 270, false, 128).value;
    assert raster.width / 8 == wb;
    stream := Flat(SessionSetup(cfg)) + FrameBytes(cfg, raster, 1).value;
  }

  /** And its capture never decodes to the one frame sent. */
  lemma MarkerStripIsMisread(cfg: D30Config, wb: nat, sep: nat, stream: seq<byte>, offsets: seq<nat>)
    requires wb >= 4 && Captured(cfg, MarkerStrip(wb, sep), 270, false, 128, 1, stream) && AreOffsets(stream, offsets)
    ensures var r := DecodeEach(stream, offsets, 270, false); !(r.Frames? && |r.frames| == 1)
  {
    hide ToDevice, SessionSetup, Flat, Feed, DecodeEach, MarkerStrip, MarkerAt, FrameBytes;
    var at := MarkerInStrip(wb, sep);
    var p, q := MarkerTwice(cfg, ToDevice(MarkerStrip(wb, sep), 270, false, 128).value, at, stream);
    DecodesToOneFrameIff(cfg, MarkerStrip(wb, sep), 270, false, 128, 1, stream, offsets);
  }

  /** End to end: labels joined into a strip, turned, packed, framed and sent in chunks come
      back from the capture, and slicing the decoded strip at a label's offset gives exactly
      the thresholded label. It needs the frame marker to occur at the header only. */
  lemma EndToEnd(cfg: D30Config, labels: seq<Image>, sep: nat, bookends: bool, rotation: int, mirror: bool, threshold: int,
                 copies: nat, stream: seq<byte>, offsets: seq<nat>, i: nat, y: nat)
    requires Strips.Joinable(labels) && i < |labels| && y < labels[i].height
    requires Captured(cfg, Strips.StripOf(labels, sep, bookends), rotation, mirror, threshold, copies, stream)
    requires AreOffsets(stream, offsets)
    requires forall p, q :: MarkerAt(stream, p) && MarkerAt(stream, q) ==> p == q
    ensures var r := DecodeEach(stream, offsets, rotation, mirror); var at := Strips.Start(labels, sep, bookends, i);
            && r.Frames? && |r.frames| == 1
            && r.frames[0].image.Valid()
            && r.frames[0].image.width == Strips.StripWidth(labels, sep, bookends)
            && r.frames[0].image.height == labels[0].height
            && at + labels[i].width <= r.frames[0].image.width
            && r.frames[0].image.rows[y][at..at + labels[i].width] == Thresholded(labels[i].rows[y], threshold)
  {
    hide ToDevice, SessionSetup, FrameBytes, Strips.StripRow, DecodeEach, Captured, Bilevel, Developed, Thresholded;
    var strip := Strips.StripOf(labels, sep, bookends);
    CaptureDecodes(cfg, strip, rotation, mirror, threshold, copies, stream, offsets);
    Strips.LabelInStrip(labels, sep, bookends, i, y);
    var at := Strips.Start(labels, sep, bookends, i);
    DevelopedSlice(strip, threshold, y, at, at + labels[i].width);
  }

  lemma DevelopedSlice(im: Image, threshold: int, y: nat, a: nat, b: nat)
    requires im.Valid() && y < im.height && a <= b <= im.width
    ensures Developed(Bilevel(im, threshold)).rows[y][a..b] == Thresholded(im.rows[y][a..b], threshold)
  {
  }
}
