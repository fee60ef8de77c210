/** From a landscape picture to a packed device raster, and back. */
module DeviceRaster {
  import opened Arithmetic
  import opened Basics
  import opened Contract

  /** One bit a pixel; a set bit burns. */
  datatype Bitmap = Bitmap(width: nat, height: nat, rows: seq<seq<bool>>) {
    predicate Valid() {
      && |rows| == height
      && forall y :: 0 <= y < height ==> |rows[y]| == width
    }
  }

  /** A packed raster; `data` is row-major, eight pixels a byte. */
  datatype Raster = Raster(width: nat, height: nat, data: seq<byte>) {
    /** What `DeviceRaster` checks on construction. */
    predicate Valid() {
      width % 8 == 0 && |data| == width / 8 * height
    }
  }

  /** `to_bilevel` without dithering: invert, then threshold. */
  function Burns(p: byte, threshold: int): bool {
    255 - p >= threshold
  }

  function Bilevel(im: Image, threshold: int): (b: Bitmap)
    requires im.Valid()
    ensures b.Valid() && b.width == im.width && b.height == im.height
    ensures forall x, y :: 0 <= x < im.width && 0 <= y < im.height ==> b.rows[y][x] == Burns(im.rows[y][x], threshold)
  {
    Bitmap(im.width, im.height,
      seq(im.height, y requires 0 <= y < im.height =>
        seq(im.width, x requires 0 <= x < im.width => Burns(im.rows[y][x], threshold))))
  }

  // --- PIL's transposes -------------------------------------------------------

  datatype Turn = Rotate90 | Rotate180 | Rotate270 | FlipLeftRight

  function Transposed(b: Bitmap, turn: Turn): (r: Bitmap)
    requires b.Valid()
    ensures r.Valid()
    ensures (r.width, r.height) == if turn.Rotate90? || turn.Rotate270? then (b.height, b.width) else (b.width, b.height)
  {
    match turn
    case Rotate90 =>
      Bitmap(b.height, b.width, seq(b.width, y requires 0 <= y < b.width =>
        seq(b.height, x requires 0 <= x < b.height => b.rows[x][b.width - 1 - y])))
    case Rotate180 =>
      Bitmap(b.width, b.height, seq(b.height, y requires 0 <= y < b.height =>
        seq(b.width, x requires 0 <= x < b.width => b.rows[b.height - 1 - y][b.width - 1 - x])))
    case Rotate270 =>
      Bitmap(b.height, b.width, seq(b.width, y requires 0 <= y < b.width =>
        seq(b.height, x requires 0 <= x < b.height => b.rows[b.height - 1 - x][y])))
    case FlipLeftRight =>
      Bitmap(b.width, b.height, seq(b.height, y requires 0 <= y < b.height =>
        seq(b.width, x requires 0 <= x < b.width => b.rows[y][b.width - 1 - x])))
  }

  predicate KnownRotation(rotation: int) {
    rotation == 0 || rotation == 90 || rotation == 180 || rotation == 270
  }

  /** `to_device` up to packing: rotate, then mirror. */
  function Oriented(b: Bitmap, rotation: int, mirror: bool): (r: Bitmap)
    requires b.Valid() && KnownRotation(rotation)
    ensures r.Valid()
    ensures (r.width, r.height) == if rotation == 90 || rotation == 270 then (b.height, b.width) else (b.width, b.height)
  {
    var turned := if rotation == 90 then Transposed(b, Rotate90)
                  else if rotation == 180 then Transposed(b, Rotate180)
                  else if rotation == 270 then Transposed(b, Rotate270)
                  else b;
    if mirror then Transposed(turned, FlipLeftRight) else turned
  }

  /** What `decode_frames` applies to come back: mirror, then the opposite rotation. */
  function Unoriented(b: Bitmap, rotation: int, mirror: bool): (r: Bitmap)
    requires b.Valid() && KnownRotation(rotation)
    ensures r.Valid()
  {
    var flipped := if mirror then Transposed(b, FlipLeftRight) else b;
    if rotation == 90 then Transposed(flipped, Rotate270)
    else if rotation == 180 then Transposed(flipped, Rotate180)
    else if rotation == 270 then Transposed(flipped, Rotate90)
    else flipped
  }

  lemma SameBitmap(a: Bitmap, b: Bitmap)
    requires a.Valid() && b.Valid() && a.width == b.width && a.height == b.height
    requires forall x, y :: 0 <= x < a.width && 0 <= y < a.height ==> a.rows[y][x] == b.rows[y][x]
    ensures a == b
  {
    forall y | 0 <= y < a.height ensures a.rows[y] == b.rows[y] {
    }
  }

  /** Turning one way and then the other changes nothing. */
  lemma TurnBack(b: Bitmap, turn: Turn, back: Turn)
    requires b.Valid()
    requires (turn, back) in {(Rotate90, Rotate270), (Rotate270, Rotate90), (Rotate180, Rotate180), (FlipLeftRight, FlipLeftRight)}
    ensures Transposed(Transposed(b, turn), back) == b
  {
    SameBitmap(Transposed(Transposed(b, turn), back), b);
  }

  /** All four rotations, mirrored or not, are undone. */
  lemma OrientationRoundTrip(b: Bitmap, rotation: int, mirror: bool)
    requires b.Valid() && KnownRotation(rotation)
    ensures Unoriented(Oriented(b, rotation, mirror), rotation, mirror) == b
  {
    hide Transposed;
    TurnBack(b, Rotate90, Rotate270);
    TurnBack(b, Rotate180, Rotate180);
    TurnBack(b, Rotate270, Rotate90);
    TurnBack(Oriented(b, rotation, false), FlipLeftRight, FlipLeftRight);
  }

  // --- packing, eight pixels a byte, most significant bit first ----------------

  function Pow2(n: nat): (p: nat)
    ensures p >= 1
  {
    if n == 0 then 1 else 2 * Pow2(n - 1)
  }

  /** The number a run of bits spells, most significant first. */
  function Number(bits: seq<bool>): (v: nat)
    ensures v < Pow2(|bits|)
  {
    if bits == [] then 0
    else 2 * Number(bits[..|bits| - 1]) + if bits[|bits| - 1] then 1 else 0
  }

  function Bits(v: nat, n: nat): (bits: seq<bool>)
    ensures |bits| == n
  {
    if n == 0 then [] else Bits(v / 2, n - 1) + [v % 2 == 1]
  }

  lemma {:induction false} BitsOfNumber(bits: seq<bool>)
    ensures Bits(Number(bits), |bits|) == bits
  {
    if bits != [] {
      BitsOfNumber(bits[..|bits| - 1]);
    }
  }

  lemma {:induction false} NumberOfBits(v: nat, n: nat)
    requires v < Pow2(n)
    ensures Number(Bits(v, n)) == v
  {
    if n > 0 {
      NumberOfBits(v / 2, n - 1);
    }
  }

  function PackByte(bits: seq<bool>): byte
    requires |bits| == 8
  {
    assert Pow2(8) == 256 by {
      assert Pow2(4) == 16;
    }
    Number(bits)
  }

  function UnpackByte(v: byte): (bits: seq<bool>)
    ensures |bits| == 8
  {
    Bits(v, 8)
  }

  lemma ByteRoundTrip(bits: seq<bool>)
    requires |bits| == 8
    ensures UnpackByte(PackByte(bits)) == bits
  {
    BitsOfNumber(bits);
  }

  function PackRow(bits: seq<bool>): (data: seq<byte>)
    requires |bits| % 8 == 0
    ensures |data| == |bits| / 8
  {
    if bits == [] then [] else [PackByte(bits[..8])] + PackRow(bits[8..])
  }

  function UnpackRow(data: seq<byte>): (bits: seq<bool>)
    ensures |bits| == 8 * |data|
  {
    if data == [] then [] else UnpackByte(data[0]) + UnpackRow(data[1..])
  }

  lemma {:induction false} RowRoundTrip(bits: seq<bool>)
    requires |bits| % 8 == 0
    ensures UnpackRow(PackRow(bits)) == bits
    decreases |bits|
  {
    if bits != [] {
      ByteRoundTrip(bits[..8]);
      RowRoundTrip(bits[8..]);
    }
  }

  /** Any bytes can be a row of pixels. */
  lemma {:induction false} AnyBytesArePacked(data: seq<byte>)
    ensures PackRow(UnpackRow(data)) == data
  {
    if data != [] {
      var bits := UnpackRow(data);
      assert bits[..8] == UnpackByte(data[0]) && bits[8..] == UnpackRow(data[1..]);
      AnyBytesArePacked(data[1..]);
      assert Pow2(8) == 256 by {
        assert Pow2(4) == 16;
      }
      NumberOfBits(data[0], 8);
    }
  }

  /** `tobytes()` of a byte-aligned bitmap: its rows one after the other. */
  function PackRows(rows: seq<seq<bool>>, w: nat): (data: seq<byte>)
    requires w % 8 == 0 && forall y :: 0 <= y < |rows| ==> |rows[y]| == w
    ensures |data| == w / 8 * |rows|
  {
    if rows == [] then []
    else
      assert w / 8 * |rows| == w / 8 * (|rows| - 1) + w / 8;
      PackRow(rows[0]) + PackRows(rows[1..], w)
  }

  /** The bytes of row y are where a decoder looks for them. */
  lemma {:induction false} RowInBody(rows: seq<seq<bool>>, w: nat, y: nat)
    requires w % 8 == 0 && (forall k :: 0 <= k < |rows| ==> |rows[k]| == w) && y < |rows|
    ensures 0 <= w / 8 * y && w / 8 * y + w / 8 <= w / 8 * |rows|
    ensures PackRows(rows, w)[w / 8 * y..w / 8 * y + w / 8] == PackRow(rows[y])
    decreases |rows|
  {
    hide PackRow;
    var wb := w / 8;
    assert wb * |rows| == wb * (|rows| - 1) + wb;
    if y > 0 {
      RowInBody(rows[1..], w, y - 1);
      assert wb * y == wb * (y - 1) + wb;
      var data, rest := PackRows(rows, w), PackRows(rows[1..], w);
      assert data == PackRow(rows[0]) + rest;
      assert data[wb * y..wb * y + wb] == rest[wb * (y - 1)..wb * (y - 1) + wb];
    }
  }

  lemma {:induction false} RowStart(bits: seq<bool>, n: nat)
    requires |bits| % 8 == 0 && 8 * n <= |bits|
    ensures PackRow(bits)[..n] == PackRow(bits[..8 * n])
    decreases n
  {
    if n > 0 {
      RowStart(bits[8..], n - 1);
      assert bits[..8 * n][..8] == bits[..8] && bits[..8 * n][8..] == bits[8..][..8 * (n - 1)];
    }
  }

  /** `frombytes`: cut the body into rows again. */
  function UnpackRows(data: seq<byte>, wb: nat, h: nat): (rows: seq<seq<bool>>)
    requires |data| == wb * h
    ensures |rows| == h && forall y :: 0 <= y < h ==> |rows[y]| == 8 * wb
    decreases h
  {
    if h == 0 then []
    else
      assert wb * h == wb * (h - 1) + wb;
      [UnpackRow(data[..wb])] + UnpackRows(data[wb..], wb, h - 1)
  }

  lemma {:induction false} RowsRoundTrip(rows: seq<seq<bool>>, w: nat)
    requires w % 8 == 0 && forall y :: 0 <= y < |rows| ==> |rows[y]| == w
    ensures UnpackRows(PackRows(rows, w), w / 8, |rows|) == rows
    decreases |rows|
  {
    if rows != [] {
      RowRoundTrip(rows[0]);
      RowsRoundTrip(rows[1..], w);
      var data := PackRows(rows, w);
      assert data[..w / 8] == PackRow(rows[0]) && data[w / 8..] == PackRows(rows[1..], w);
    }
  }

  /** `to_device`: None stands for the ValueError on an unknown rotation or on a width that is
      not a whole number of bytes. */
  function ToDevice(landscape: Image, rotation: int, mirror: bool, threshold: int): (r: Option<Raster>)
    requires landscape.Valid()
    ensures r.Some? ==> r.value.Valid()
  {
    if !KnownRotation(rotation) then None
    else
      var b := Oriented(Bilevel(landscape, threshold), rotation, mirror);
      if b.width % 8 != 0 then None else Some(Raster(b.width, b.height, PackRows(b.rows, b.width)))
  }

  /** What a decoder shows of a bitmap: burnt pixels black, the rest white. */
  function Developed(b: Bitmap): (im: Image)
    requires b.Valid()
    ensures im.Valid() && im.width == b.width && im.height == b.height
    ensures forall x, y :: 0 <= x < b.width && 0 <= y < b.height ==> im.rows[y][x] == if b.rows[y][x] then 0 else 255
  {
    Image(b.width, b.height,
      seq(b.height, y requires 0 <= y < b.height =>
        seq(b.width, x requires 0 <= x < b.width => if b.rows[y][x] then 0 else 255)))
  }

  /** Decoding a frame body back to landscape. */
  function FromDevice(body: seq<byte>, wb: nat, h: nat, rotation: int, mirror: bool): (im: Image)
    requires |body| == wb * h && KnownRotation(rotation)
    ensures im.Valid()
  {
    Developed(Unoriented(Bitmap(8 * wb, h, UnpackRows(body, wb, h)), rotation, mirror))
  }

  /** What a device raster says is the thresholded picture, pixel for pixel. */
  lemma DeviceRoundTrip(landscape: Image, rotation: int, mirror: bool, threshold: int)
    requires landscape.Valid() && ToDevice(landscape, rotation, mirror, threshold).Some?
    ensures var r := ToDevice(landscape, rotation, mirror, threshold).value;
            FromDevice(r.data, r.width / 8, r.height, rotation, mirror) == Developed(Bilevel(landscape, threshold))
  {
    var b := Bilevel(landscape, threshold);
    var turned := Oriented(b, rotation, mirror);
    RowsRoundTrip(turned.rows, turned.width);
    OrientationRoundTrip(b, rotation, mirror);
  }

  // --- pixel by pixel ---------------------------------------------------------

  /** Is there ink at column x of row y of a device raster? The leftmost of the eight pixels of
      a byte is its highest bit. */
  predicate InkAt(r: Raster, x: nat, y: nat)
    requires r.Valid() && x < r.width && y < r.height
  {
    InRaster(r, x, y);
    r.data[r.width / 8 * y + x / 8] / Pow2(7 - x % 8) % 2 == 1
  }

  lemma InRaster(r: Raster, x: nat, y: nat)
    requires r.Valid() && x < r.width && y < r.height
    ensures 0 <= r.width / 8 * y + x / 8 < |r.data|
  {
    var wb := r.width / 8;
    assert wb * y + wb == wb * (y + 1);
    assert wb * (y + 1) <= wb * r.height;
  }

  /** The landscape pixel, as column and row, that ends up there: rotated counter-clockwise by
      90 degrees the picture's right edge comes first, by 270 its left one; then mirrored. */
  function SourceOf(landscape: Image, rotation: int, mirror: bool, x: nat, y: nat): (int, int)
    requires KnownRotation(rotation)
  {
    var w, h := landscape.width, landscape.height;
    var u := if !mirror then x else (if rotation == 90 || rotation == 270 then h else w) - 1 - x;
    if rotation == 0 then (u, y)
    else if rotation == 90 then (w - 1 - y, u)
    else if rotation == 180 then (w - 1 - u, h - 1 - y)
    else (y, h - 1 - u)
  }

  lemma {:induction false} BitOfNumber(bits: seq<bool>, j: nat)
    requires j < |bits|
    ensures Number(bits) / Pow2(|bits| - 1 - j) % 2 == 1 <==> bits[j]
  {
    var n := |bits| - 1;
    if j < n {
      BitOfNumber(bits[..n], j);
      var v, p := Number(bits[..n]), Pow2(n - 1 - j);
      HalfOfHalf(v, if bits[n] then 1 else 0, p);
    }
  }

  lemma HalfOfHalf(v: nat, low: nat, p: nat)
    requires low < 2 && p > 0
    ensures (2 * v + low) / (2 * p) == v / p
  {
    var q, rest := v / p, v % p;
    assert v == p * q + rest;
    assert 2 * v + low == 2 * p * q + (2 * rest + low) && 0 <= 2 * rest + low < 2 * p;
    QuotientIs(2 * v + low, 2 * p, q, 2 * rest + low);
  }

  lemma QuotientIs(a: int, b: int, q: int, rest: int)
    requires b > 0 && a == b * q + rest && 0 <= rest < b
    ensures a / b == q
  {
    DivMod(a, b);
    Distributes(b, a / b, 1);
    Distributes(b, q, 1);
    Ordered(b, a / b, q + 1);
    Ordered(b, q, a / b + 1);
  }

  lemma {:induction false} ByteOfRow(bits: seq<bool>, k: nat)
    requires |bits| % 8 == 0 && 8 * k < |bits|
    ensures PackRow(bits)[k] == PackByte(bits[8 * k..8 * k + 8])
    decreases k
  {
    if k > 0 {
      ByteOfRow(bits[8..], k - 1);
      assert bits[8..][8 * (k - 1)..8 * (k - 1) + 8] == bits[8 * k..8 * k + 8];
    }
  }

  lemma BitOfRow(bits: seq<bool>, x: nat)
    requires |bits| % 8 == 0 && x < |bits|
    ensures PackRow(bits)[x / 8] / Pow2(7 - x % 8) % 2 == 1 <==> bits[x]
  {
    hide PackRow, Number;
    var k := x / 8;
    ByteOfRow(bits, k);
    var eight := bits[8 * k..8 * k + 8];
    BitOfNumber(eight, x % 8);
    assert eight[x % 8] == bits[x];
  }

  lemma OrientedPixel(b: Bitmap, landscape: Image, rotation: int, mirror: bool, x: nat, y: nat)
    requires b.Valid() && KnownRotation(rotation) && b.width == landscape.width && b.height == landscape.height
    requires var o := Oriented(b, rotation, mirror); x < o.width && y < o.height
    ensures var at := SourceOf(landscape, rotation, mirror, x, y);
            && 0 <= at.0 < b.width && 0 <= at.1 < b.height
            && Oriented(b, rotation, mirror).rows[y][x] == b.rows[at.1][at.0]
  {
  }

  /** What reaches the head: there is ink at a pixel of the device raster exactly if the ink of
      the landscape pixel it stands for, 255 less its grey, reaches the threshold. */
  lemma PixelBurnsIff(landscape: Image, rotation: int, mirror: bool, threshold: int, x: nat, y: nat)
    requires landscape.Valid() && ToDevice(landscape, rotation, mirror, threshold).Some?
    requires var r := ToDevice(landscape, rotation, mirror, threshold).value; x < r.width && y < r.height
    ensures var r, at := ToDevice(landscape, rotation, mirror, threshold).value, SourceOf(landscape, rotation, mirror, x, y);
            && 0 <= at.0 < landscape.width && 0 <= at.1 < landscape.height
            && (InkAt(r, x, y) <==> 255 - landscape.rows[at.1][at.0] >= threshold)
  {
    hide PackRow, PackRows, Oriented, SourceOf, Pow2;
    var b := Bilevel(landscape, threshold);
    var o := Oriented(b, rotation, mirror);
    OrientedPixel(b, landscape, rotation, mirror, x, y);
    RowInBody(o.rows, o.width, y);
    BitOfRow(o.rows[y], x);
    var wb, data := o.width / 8, PackRows(o.rows, o.width);
    assert data[wb * y..wb * y + wb][x / 8] == data[wb * y + x / 8];
  }

  /** And what a decoder shows of it: black exactly there, white everywhere else. */
  lemma DecodedPixelIff(landscape: Image, rotation: int, mirror: bool, threshold: int, x: nat, y: nat)
    requires landscape.Valid() && ToDevice(landscape, rotation, mirror, threshold).Some?
    requires x < landscape.width && y < landscape.height
    ensures var r := ToDevice(landscape, rotation, mirror, threshold).value;
            var im := FromDevice(r.data, r.width / 8, r.height, rotation, mirror);
            && im.width == landscape.width && im.height == landscape.height
            && im.rows[y][x] == if landscape.rows[y][x] + threshold <= 255 then 0 else 255
  {
    hide FromDevice, ToDevice;
    DeviceRoundTrip(landscape, rotation, mirror, threshold);
  }
}
