/** The incremental decoder of the printer's status frames, and what it says of the stream. */
module StatusParser {
  import opened Basics

  const STATUS_PREFIX: byte := 0x1A
  const ALT_PREFIX: byte := 0x1B
  const PRINT_COMPLETE: byte := 0x0F
  const CONSUMABLE_UID: byte := 0x99

  /** How long a tag's payload is: fixed, carried in its first byte, or not known. */
  datatype PayloadSpec = Fixed(length: nat) | LengthPrefixed | UnknownTag

  function Spec(tag: byte): PayloadSpec {
    if tag in {0x3C, 0xA1, 0xA2} then Fixed(0)
    else if tag in {0x03, 0x04, 0x05, 0x06, 0x09, 0x0B, 0x0C, 0x0E, 0x0F, 0x17, 0x20, 0x35, 0x3E, 0x3F, 0x5E, 0xA3} then
      Fixed(1)
    else if tag in {0x2F, 0x4B} then Fixed(2)
    else if tag in {0x07, 0x11, 0x15, 0x31} then Fixed(3)
    else if tag in {0x0A, 0x16, 0x3B} then Fixed(4)
    else if tag == 0x4E then Fixed(7)
    else if tag == 0x2D then Fixed(13)
    else if tag in {0x08, 0x40} then Fixed(15)
    else if tag == CONSUMABLE_UID then LengthPrefixed
    else UnknownTag
  }

  datatype Frame = Frame(tag: byte, raw: seq<byte>)

  predicate IsPrefix(b: byte) {
    b == STATUS_PREFIX || b == ALT_PREFIX
  }

  /** What one look at the head of the buffer finds. */
  datatype Found =
    | NeedMore
    | Noise(length: nat)
    | Skipped(tag: byte)
    | Complete(frame: Frame, length: nat)

  /** `_find_prefix`: the first frame start at or after i; the length if there is none. */
  function NextPrefix(buf: seq<byte>, i: nat): (n: nat)
    requires i <= |buf|
    ensures i <= n <= |buf|
    ensures forall k :: i <= k < n ==> !IsPrefix(buf[k])
    ensures n < |buf| ==> IsPrefix(buf[n])
    decreases |buf| - i
  {
    if i == |buf| || IsPrefix(buf[i]) then i else NextPrefix(buf, i + 1)
  }

  function TryOne(buf: seq<byte>): (f: Found)
    ensures f.Noise? ==> 0 < f.length <= |buf|
    ensures f.Skipped? ==> |buf| >= 2
    ensures f.Complete? ==> 2 <= f.length <= |buf|
  {
    if buf == [] then NeedMore
    else if !IsPrefix(buf[0]) then Noise(NextPrefix(buf, 1))
    else if |buf| < 2 then NeedMore
    else
      match Spec(buf[1])
      case UnknownTag => Skipped(buf[1])
      case LengthPrefixed =>
        if |buf| < 3 || |buf| < 3 + buf[2] as nat then NeedMore
        else Complete(Frame(buf[1], buf[3..3 + buf[2] as nat]), 3 + buf[2] as nat)
      case Fixed(n) =>
        if |buf| < 2 + n then NeedMore
        else Complete(Frame(buf[1], buf[2..2 + n]), 2 + n)
  }

  function Consumed(f: Found): nat {
    match f
    case NeedMore => 0
    case Noise(n) => n
    case Skipped(_) => 2
    case Complete(_, n) => n
  }

  /** All that can be read off a stretch of stream: frames, unknown tags, bytes dropped as
      noise, and the tail held back. */
  datatype Parsed = Parsed(frames: seq<Frame>, unknown: seq<byte>, dropped: nat, rest: seq<byte>)

  function Parse(buf: seq<byte>): Parsed
    decreases |buf|
  {
    match TryOne(buf)
    case NeedMore => Parsed([], [], 0, buf)
    case Noise(n) => var p := Parse(buf[n..]); p.(dropped := n + p.dropped)
    case Skipped(tag) => var p := Parse(buf[2..]); p.(unknown := [tag] + p.unknown)
    case Complete(frame, n) => var p := Parse(buf[n..]); p.(frames := [frame] + p.frames)
  }

  /** One stretch of stream after another. */
  function Then(p: Parsed, q: Parsed): Parsed {
    Parsed(p.frames + q.frames, p.unknown + q.unknown, p.dropped + q.dropped, q.rest)
  }

  function Tally(seen: map<byte, nat>, tags: seq<byte>): map<byte, nat>
    decreases |tags|
  {
    if tags == [] then seen
    else Tally(seen[tags[0] := (if tags[0] in seen then seen[tags[0]] else 0) + 1], tags[1..])
  }

  // --- chunking does not matter -----------------------------------------------

  predicate NoPrefix(s: seq<byte>) {
    forall i :: 0 <= i < |s| ==> !IsPrefix(s[i])
  }

  lemma NextPrefixFrom(buf: seq<byte>, i: nat, n: nat)
    requires i <= n <= |buf| && (forall k :: i <= k < n ==> !IsPrefix(buf[k]))
    requires n < |buf| ==> IsPrefix(buf[n])
    ensures NextPrefix(buf, i) == n
    decreases n - i
  {
  }

  /** Reading starts at the first frame start; what is before it is dropped. */
  lemma NoiseHead(b: seq<byte>)
    ensures var n := NextPrefix(b, 0); Parse(b) == Parse(b[n..]).(dropped := n + Parse(b[n..]).dropped)
  {
    var n := NextPrefix(b, 0);
    if n == 0 {
      assert b[0..] == b;
    } else {
      NextPrefixFrom(b, 1, n);
    }
  }

  /** Leading noise is dropped, byte for byte, and what follows reads as if it came first. */
  lemma NoiseFirst(a: seq<byte>, b: seq<byte>)
    requires NoPrefix(a)
    ensures Parse(a + b) == Parse(b).(dropped := |a| + Parse(b).dropped)
  {
    hide Parse;
    var n := NextPrefix(b, 0);
    NextPrefixFrom(a + b, 0, |a| + n);
    assert (a + b)[|a| + n..] == b[n..];
    NoiseHead(a + b);
    NoiseHead(b);
  }

  lemma ParseNothing()
    ensures Parse([]) == Parsed([], [], 0, [])
  {
  }

  /** The head of the buffer, once it can be read, reads the same whatever follows. */
  lemma HeadIsStable(a: seq<byte>, b: seq<byte>)
    requires TryOne(a).Skipped? || TryOne(a).Complete? || (TryOne(a).Noise? && TryOne(a).length < |a|)
    ensures TryOne(a + b) == TryOne(a)
  {
    if TryOne(a).Noise? {
      NextPrefixFrom(a + b, 1, TryOne(a).length);
    } else if TryOne(a).Complete? {
      assert forall i, k :: 0 <= i <= k <= |a| ==> (a + b)[i..k] == a[i..k];
    }
  }

  /** What one look adds. */
  function HeadOf(found: Found): Parsed {
    Parsed(
      if found.Complete? then [found.frame] else [],
      if found.Skipped? then [found.tag] else [],
      if found.Noise? then found.length else 0, [])
  }

  lemma ParseStep(a: seq<byte>)
    requires !TryOne(a).NeedMore?
    ensures Parse(a) == Then(HeadOf(TryOne(a)), Parse(a[Consumed(TryOne(a))..]))
  {
  }

  lemma ParseWaits(a: seq<byte>, b: seq<byte>)
    requires TryOne(a).NeedMore?
    ensures Parse(a + b) == Then(Parse(a), Parse(Parse(a).rest + b))
  {
  }

  lemma ThenAssociates(p: Parsed, q: Parsed, r: Parsed)
    ensures Then(Then(p, q), r) == Then(p, Then(q, r))
  {
  }

  /** Reading a + b is reading a, then reading b behind the tail a left. */
  lemma {:induction false} ParseConcat(a: seq<byte>, b: seq<byte>)
    ensures Parse(a + b) == Then(Parse(a), Parse(Parse(a).rest + b))
    decreases |a|
  {
    hide Parse, TryOne;
    var found := TryOne(a);
    if found.NeedMore? {
      ParseWaits(a, b);
    } else if found.Noise? && found.length == |a| {
      AllNoise(a, b);
    } else {
      var n := Consumed(found);
      HeadIsStable(a, b);
      ParseConcat(a[n..], b);
      assert (a + b)[n..] == a[n..] + b;
      ParseStep(a);
      ParseStep(a + b);
      ThenAssociates(HeadOf(found), Parse(a[n..]), Parse(Parse(a).rest + b));
    }
  }

  lemma AllNoise(a: seq<byte>, b: seq<byte>)
    requires TryOne(a).Noise? && TryOne(a).length == |a|
    ensures Parse(a + b) == Then(Parse(a), Parse(Parse(a).rest + b))
  {
    hide Parse;
    NoiseFirst(a, b);
    NoiseFirst(a, []);
    ParseNothing();
    assert a + [] == a;
    assert [] + b == b;
  }

  /** The bytes of a list of slices, in order. */
  function Joined(slices: seq<seq<byte>>): seq<byte> {
    if slices == [] then [] else Joined(slices[..|slices| - 1]) + slices[|slices| - 1]
  }

  /** What a fresh parser has read after being fed slice after slice. */
  function Fed(slices: seq<seq<byte>>): Parsed {
    if slices == [] then Parsed([], [], 0, [])
    else
      var p := Fed(slices[..|slices| - 1]);
      Then(p, Parse(p.rest + slices[|slices| - 1]))
  }

  /** Any way of cutting a stream yields the same frames, unknown tags, noise and tail. */
  lemma {:induction false} ChunkingDoesNotMatter(slices: seq<seq<byte>>)
    ensures Fed(slices) == Parse(Joined(slices))
    decreases |slices|
  {
    if slices == [] {
      ParseNothing();
    } else {
      ChunkingDoesNotMatter(slices[..|slices| - 1]);
      ParseConcat(Joined(slices[..|slices| - 1]), slices[|slices| - 1]);
    }
  }

  // --- the decoder, in place --------------------------------------------------

  class StatusParser {
    const strict: bool
    var buf: seq<byte>
    var unknownTags: map<byte, nat>
    /** Every byte fed so far. */
    ghost var stream: seq<byte>

    /** Outside strict mode the parser's state is a function of the whole stream. */
    ghost predicate Valid()
      reads this
    {
      !strict ==> buf == Parse(stream).rest && unknownTags == Tally(map[], Parse(stream).unknown)
    }

    constructor (strict: bool)
      ensures Valid() && this.strict == strict && stream == [] && buf == [] && unknownTags == map[]
    {
      this.strict, buf, unknownTags, stream := strict, [], map[], [];
      ParseNothing();
    }

    /** Add bytes, return every frame that is now complete. In strict mode an unknown tag
        raises: the frames found before it are lost and the tag stays at the head. */
    method Feed(data: seq<byte>) returns (frames: seq<Frame>, raised: bool)
      requires Valid()
      modifies this
      ensures Valid() && stream == old(stream) + data
      ensures !strict ==> !raised && Parse(stream).frames == Parse(old(stream)).frames + frames
      ensures strict ==>
        var p := Parse(old(buf) + data);
        && (raised <==> p.unknown != [])
        && (!raised ==> frames == p.frames && buf == p.rest && unknownTags == old(unknownTags))
        && (raised ==> frames == [] && TryOne(buf) == Skipped(p.unknown[0])
                       && unknownTags == Tally(old(unknownTags), p.unknown[..1]))
    {
      hide Parse, TryOne;
      ghost var fed := stream;
      ghost var seen := unknownTags;
      ghost var whole := Parse(buf + data);
      ghost var done := Parsed([], [], 0, []);
      buf := buf + data;
      stream := stream + data;
      frames, raised := [], false;
      while true
        invariant stream == fed + data
        invariant whole == Then(done, Parse(buf)) && frames == done.frames
        invariant unknownTags == Tally(seen, done.unknown) && (strict ==> done.unknown == [])
        decreases |buf|
      {
        var found := TryOne(buf);
        if found.NeedMore? {
          break;
        }
        ParseStep(buf);
        ThenAssociates(done, HeadOf(found), Parse(buf[Consumed(found)..]));
        if found.Skipped? {
          TallyOne(seen, done.unknown, found.tag);
          unknownTags := unknownTags[found.tag := (if found.tag in unknownTags then unknownTags[found.tag] else 0) + 1];
          if strict {
            assert whole.unknown[..1] == [found.tag];
            return [], true;
          }
        }
        if found.Complete? {
          frames := frames + [found.frame];
        }
        assert !found.Skipped? ==> done.unknown + HeadOf(found).unknown == done.unknown;
        assert !found.Complete? ==> done.frames + HeadOf(found).frames == done.frames;
        done := Then(done, HeadOf(found));
        buf := buf[Consumed(found)..];
      }
      ParseIdle(buf);
      assert whole == Parsed(done.frames, done.unknown, done.dropped, buf);
      ParseConcat(fed, data);
      TallyConcat(map[], Parse(fed).unknown, whole.unknown);
    }
  }

  lemma ParseIdle(buf: seq<byte>)
    requires TryOne(buf).NeedMore?
    ensures Parse(buf) == Parsed([], [], 0, buf)
  {
  }

  lemma TallyOne(seen: map<byte, nat>, tags: seq<byte>, tag: byte)
    ensures Tally(seen, tags + [tag]) ==
            var t := Tally(seen, tags); t[tag := (if tag in t then t[tag] else 0) + 1]
  {
    TallyConcat(seen, tags, [tag]);
    assert [tag][1..] == [];
  }

  lemma {:induction false} TallyConcat(seen: map<byte, nat>, a: seq<byte>, b: seq<byte>)
    ensures Tally(seen, a + b) == Tally(Tally(seen, a), b)
    decreases |a|
  {
    if a == [] {
      assert a + b == b;
    } else {
      assert (a + b)[1..] == a[1..] + b;
      TallyConcat(seen[a[0] := (if a[0] in seen then seen[a[0]] else 0) + 1], a[1..], b);
    }
  }

  /** What the printer has told us on one connection. Values are kept by tag, last one wins. */
  class DeviceState {
    var frames: seq<Frame>
    var values: map<byte, seq<byte>>
    var printsCompleted: nat

    constructor ()
      ensures frames == [] && values == map[] && printsCompleted == 0
    {
      frames, values, printsCompleted := [], map[], 0;
    }

    method Ingest(frame: Frame)
      modifies this
      ensures frames == old(frames) + [frame]
      ensures old(values == LastValues(frames)) ==> values == LastValues(frames)
      ensures old(printsCompleted == PrintsIn(frames)) ==> printsCompleted == PrintsIn(frames)
    {
      frames := frames + [frame];
      assert frames[..|frames| - 1] == old(frames);
      if Tells(frame) {
        values := values[frame.tag := frame.raw];
      }
      if frame.tag == PRINT_COMPLETE {
        printsCompleted := printsCompleted + 1;
      }
    }
  }

  /** Does this frame update the last-value view? An empty payload does so only for the
      consumable id, whose decoded value is then the empty string. */
  predicate Tells(frame: Frame) {
    frame.raw != [] || frame.tag == CONSUMABLE_UID
  }

  function LastValues(frames: seq<Frame>): map<byte, seq<byte>> {
    if frames == [] then map[]
    else
      var last := frames[|frames| - 1];
      var before := LastValues(frames[..|frames| - 1]);
      if Tells(last) then before[last.tag := last.raw] else before
  }

  function PrintsIn(frames: seq<Frame>): nat {
    if frames == [] then 0
    else PrintsIn(frames[..|frames| - 1]) + if frames[|frames| - 1].tag == PRINT_COMPLETE then 1 else 0
  }

  /** A value is what the last frame of its tag said that said anything. */
  lemma {:induction false} LastValueWins(frames: seq<Frame>, k: nat)
    requires k < |frames| && (frames[k].raw != [] || frames[k].tag == 0x99)
    requires forall j :: k < j < |frames| && frames[j].tag == frames[k].tag ==> frames[j].raw == [] && frames[j].tag != 0x99
    ensures frames[k].tag in LastValues(frames) && LastValues(frames)[frames[k].tag] == frames[k].raw
  {
    if k < |frames| - 1 {
      LastValueWins(frames[..|frames| - 1], k);
    }
  }

  /** And no frame that said nothing, nor any that did not come, has one. */
  lemma {:induction false} ValuesWereTold(frames: seq<Frame>, tag: byte) returns (k: nat)
    requires tag in LastValues(frames)
    ensures k < |frames| && frames[k].tag == tag && (frames[k].raw != [] || tag == 0x99)
  {
    var n := |frames| - 1;
    if frames[n].tag == tag && Tells(frames[n]) {
      k := n;
    } else {
      k := ValuesWereTold(frames[..n], tag);
    }
  }

  /** A print is complete for every frame that says so. */
  lemma {:induction false} PrintsAreCounted(frames: seq<Frame>)
    ensures PrintsIn(frames) == |set k | 0 <= k < |frames| && frames[k].tag == 0x0F|
  {
    if frames != [] {
      var n := |frames| - 1;
      var before := frames[..n];
      PrintsAreCounted(before);
      var earlier := set k | 0 <= k < n && before[k].tag == 0x0F;
      var all := set k | 0 <= k < |frames| && frames[k].tag == 0x0F;
      assert all == if frames[n].tag == 0x0F then earlier + {n} else earlier;
    }
  }

  // --- frames and noise, there and back ---------------------------------------

  /** Frames as the printer sends them: a known tag with a payload of the length it calls for. */
  predicate WellFormed(f: Frame) {
    match Spec(f.tag)
    case Fixed(n) => |f.raw| == n
    case LengthPrefixed => |f.raw| <= 255
    case UnknownTag => false
  }

  function Wire(prefix: byte, f: Frame): seq<byte>
    requires WellFormed(f)
  {
    [prefix, f.tag] + (if Spec(f.tag).LengthPrefixed? then [|f.raw| as byte] else []) + f.raw
  }

  /** A frame with the noise before it. */
  datatype Item = Item(noise: seq<byte>, prefix: byte, frame: Frame)

  predicate ItemOk(item: Item) {
    NoPrefix(item.noise) && (item.prefix == 0x1A || item.prefix == 0x1B) && WellFormed(item.frame)
  }

  function Stream(items: seq<Item>, tail: seq<byte>): seq<byte>
    requires forall item :: item in items ==> ItemOk(item)
  {
    if items == [] then tail
    else
      assert ItemOk(items[0]);
      items[0].noise + (Wire(items[0].prefix, items[0].frame) + Stream(items[1..], tail))
  }

  function FramesOf(items: seq<Item>): seq<Frame> {
    if items == [] then [] else [items[0].frame] + FramesOf(items[1..])
  }

  function NoiseIn(items: seq<Item>): nat {
    if items == [] then 0 else |items[0].noise| + NoiseIn(items[1..])
  }

  lemma WireReads(prefix: byte, f: Frame, rest: seq<byte>)
    requires IsPrefix(prefix) && WellFormed(f)
    ensures Parse(Wire(prefix, f) + rest) == Parse(rest).(frames := [f] + Parse(rest).frames)
  {
    var w := Wire(prefix, f);
    var buf := w + rest;
    assert buf[|w|..] == rest;
    assert buf[|w| - |f.raw|..|w|] == f.raw;
    assert TryOne(buf) == Complete(f, |w|);
  }

  /** Well-formed frames with noise between them parse back to exactly those frames. */
  lemma {:induction false} FramingRoundTrip(items: seq<Item>, tail: seq<byte>)
    requires (forall item :: item in items ==> ItemOk(item)) && NoPrefix(tail)
    ensures Parse(Stream(items, tail)) == Parsed(FramesOf(items), [], NoiseIn(items) + |tail|, [])
    decreases |items|
  {
    hide Parse, Wire;
    if items == [] {
      NoiseFirst(tail, []);
      ParseNothing();
      assert tail + [] == tail;
    } else {
      assert ItemOk(items[0]);
      FramingRoundTrip(items[1..], tail);
      WireReads(items[0].prefix, items[0].frame, Stream(items[1..], tail));
      NoiseFirst(items[0].noise, Wire(items[0].prefix, items[0].frame) + Stream(items[1..], tail));
    }
  }

  /** ... however the stream is cut into slices. */
  lemma SlicedRoundTrip(items: seq<Item>, tail: seq<byte>, slices: seq<seq<byte>>)
    requires (forall item :: item in items ==> ItemOk(item)) && NoPrefix(tail)
    requires Joined(slices) == Stream(items, tail)
    ensures Fed(slices) == Parsed(FramesOf(items), [], NoiseIn(items) + |tail|, [])
  {
    ChunkingDoesNotMatter(slices);
    FramingRoundTrip(items, tail);
  }

  lemma {:induction false} FramesRead(frames: seq<Frame>)
    requires forall f :: f in frames ==> WellFormed(f)
    ensures Parse(Sent(frames)) == Parsed(frames, [], 0, [])
  {
    hide Parse, Wire, WellFormed;
    if frames == [] {
      ParseNothing();
    } else {
      FramesRead(frames[1..]);
      WireReads(STATUS_PREFIX, frames[0], Sent(frames[1..]));
    }
  }

  /** Frames one after the other, with nothing between them. */
  function Sent(frames: seq<Frame>): seq<byte>
    requires forall f :: f in frames ==> WellFormed(f)
  {
    if frames == [] then [] else Wire(STATUS_PREFIX, frames[0]) + Sent(frames[1..])
  }

  const SERIAL: seq<byte> := [0x51, 0x32, 0x32, 0x33, 0x50, 0x34, 0x43, 0x33, 0x31, 0x34, 0x32, 0x30, 0x31, 0x30, 0x35]
  const SENSORS: seq<byte> := [0x02, 0x00, 0x00, 0x00, 0x00, 0x00, 0x00, 0x00, 0xE6, 0x00, 0x00, 0x00, 0x00]

  /** Replies as a D30 gives them: serial number, firmware, battery, the four bytes behind a
      verified paper, voltage, hardware version, sensors, paper, completion. */
  const REPLIES: seq<Frame> :=
    [Frame(0x08, SERIAL), Frame(0x07, [0x02, 0x01, 0x02]), Frame(0x04, [0x64]), Frame(0x16, [0x00, 0x40, 0x00, 0x00]),
     Frame(0x2F, [0x01, 0xA0]), Frame(0x11, [0x01, 0x00, 0x03]), Frame(0x2D, SENSORS), Frame(0x06, [0x89]),
     Frame(0x0F, [0x0C])]

  lemma RepliesAreWellFormed(i: nat)
    requires i < 9
    ensures |REPLIES| == 9 && WellFormed(REPLIES[i])
  {
    hide Spec;
    assert |SERIAL| == 15 && |SENSORS| == 13;
    LengthsOfReplies();
  }

  lemma LengthsOfReplies()
    ensures Spec(0x08) == Fixed(15) && Spec(0x07) == Fixed(3) && Spec(0x04) == Fixed(1) && Spec(0x16) == Fixed(4)
    ensures Spec(0x2F) == Fixed(2) && Spec(0x11) == Fixed(3) && Spec(0x2D) == Fixed(13) && Spec(0x06) == Fixed(1)
    ensures Spec(0x0F) == Fixed(1)
  {
  }

  /** They are told apart by the lengths their tags call for. */
  lemma RepliesRead()
    ensures forall f :: f in REPLIES ==> WellFormed(f)
    ensures Parse(Sent(REPLIES)) == Parsed(REPLIES, [], 0, [])
  {
    hide WellFormed, Spec, Parse, Sent;
    forall f | f in REPLIES ensures WellFormed(f) {
      var i :| 0 <= i < |REPLIES| && REPLIES[i] == f;
      RepliesAreWellFormed(i);
    }
    FramesRead(REPLIES);
  }

  // --- progress and memory ----------------------------------------------------

  function FrameBytes(frames: seq<Frame>): nat {
    if frames == [] then 0
    else |frames[0].raw| + (if Spec(frames[0].tag).LengthPrefixed? then 3 else 2) + FrameBytes(frames[1..])
  }

  /** These n bytes are in well-formed frames, in unknown prefixes and tags, dropped as noise, or
      held back. */
  predicate Accounted(n: nat, p: Parsed) {
    && n == FrameBytes(p.frames) + 2 * |p.unknown| + p.dropped + |p.rest|
    && (forall f :: f in p.frames ==> WellFormed(f))
    && (forall tag :: tag in p.unknown ==> Spec(tag) == UnknownTag)
  }

  lemma HeadIsAccountedFor(buf: seq<byte>, p: Parsed)
    requires !TryOne(buf).NeedMore? && Accounted(|buf| - Consumed(TryOne(buf)), p)
    ensures Accounted(|buf|, Then(HeadOf(TryOne(buf)), p))
  {
    hide Spec;
    var found := TryOne(buf);
    if found.Complete? {
      assert ([found.frame] + p.frames)[1..] == p.frames;
    } else {
      assert [] + p.frames == p.frames;
    }
  }

  /** Every byte is in a frame, in an unknown prefix and tag, dropped as noise, or held back;
      every frame is well formed; and what is held back is waiting for more. */
  lemma {:induction false} BytesAreAccountedFor(buf: seq<byte>)
    ensures var p := Parse(buf);
            && |buf| == FrameBytes(p.frames) + 2 * |p.unknown| + p.dropped + |p.rest|
            && (forall f :: f in p.frames ==> WellFormed(f))
            && (forall tag :: tag in p.unknown ==> Spec(tag) == UnknownTag)
            && TryOne(p.rest).NeedMore?
    decreases |buf|
  {
    hide TryOne, WellFormed, Spec;
    var found := TryOne(buf);
    if !found.NeedMore? {
      hide Parse;
      var p := Parse(buf[Consumed(found)..]);
      BytesAreAccountedFor(buf[Consumed(found)..]);
      ParseStep(buf);
      assert Accounted(|buf| - Consumed(found), p);
      HeadIsAccountedFor(buf, p);
      assert Accounted(|buf|, Parse(buf));
    }
  }

  /** The tail held back is empty, or a proper beginning of one frame: at most 257 bytes. */
  lemma TailIsBounded(buf: seq<byte>) returns (f: Frame, missing: seq<byte>)
    ensures var rest := Parse(buf).rest;
            rest != [] ==>
              && |rest| <= 257 && IsPrefix(rest[0]) && WellFormed(f) && missing != []
              && rest + missing == Wire(rest[0], f)
  {
    BytesAreAccountedFor(buf);
    var rest := Parse(buf).rest;
    f, missing := Frame(0x3C, []), [];
    if |rest| == 1 {
      missing := [0x3C];
    } else if |rest| > 1 {
      var tag := rest[1];
      if Spec(tag).LengthPrefixed? {
        var n: nat := if |rest| > 2 then rest[2] as nat else 0;
        var body := if |rest| > 2 then rest[3..] else [];
        f := Frame(tag, body + seq(n - |body|, _ => 0));
        missing := if |rest| > 2 then seq(n - |body|, _ => 0) else [0];
      } else {
        var n := Spec(tag).length;
        missing := seq(n - (|rest| - 2), _ => 0);
        f := Frame(tag, rest[2..] + missing);
      }
    }
  }
}
