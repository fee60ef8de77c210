/** Every strip the print loop prints fits one frame. */
module StripFits {
  import opened Arithmetic
  import opened Basics
  import opened Contract
  import opened Spool
  import opened PrintLoop
  import opened EveryRun
  import DeviceRaster
  import Strips = Raster
  import Wire

  // --- millimetres and pixels -------------------------------------------------

  function Images(copies: seq<PendingLabel>): (r: seq<Image>)
    ensures |r| == |copies|
  {
    seq(|copies|, i requires 0 <= i < |copies| => copies[i].image)
  }

  lemma {:induction false} StartIs(copies: seq<PendingLabel>, sep: nat, i: nat)
    requires i <= |copies|
    ensures Strips.Start(Images(copies), sep, true, i) == PixelSum(copies[..i]) + sep * (i + 1)
  {
    if i > 0 {
      StartIs(copies, sep, i - 1);
      assert copies[..i][..i - 1] == copies[..i - 1];
      assert sep * (i + 1) == sep * i + sep;
    }
  }

  lemma LastPixels(copies: seq<PendingLabel>)
    requires copies != []
    ensures PixelSum(copies) == PixelSum(copies[..|copies| - 1]) + copies[|copies| - 1].image.width
  {
  }

  /** The strip's pixels: its labels, and a separator before each and behind the last. */
  lemma StripWidthIs(copies: seq<PendingLabel>, sep: nat)
    requires copies != []
    ensures Strips.StripWidth(Images(copies), sep, true) == PixelSum(copies) + sep * (|copies| + 1)
  {
    hide PixelSum;
    hide Strips.Start;
    var n := |copies|;
    StartIs(copies, sep, n - 1);
    LastPixels(copies);
    Distributes(sep, n, 1);
  }

  lemma SeparatorsAreNear(mm: real, n: nat)
    requires mm >= 0.0 && n > 0
    ensures MmToPx(mm) >= 0
    ensures (MmToPx(mm) * n) as real <= mm * n as real * PX_PER_MM + n as real / 2.0
  {
    RoundIsNear(mm * PX_PER_MM);
    assert mm * PX_PER_MM >= 0.0;
    OrderedReal(n as real, MmToPx(mm) as real, mm * PX_PER_MM + 0.5);
    assert (mm * PX_PER_MM + 0.5) * n as real == mm * n as real * PX_PER_MM + n as real / 2.0;
    assert (MmToPx(mm) * n) as real == MmToPx(mm) as real * n as real;
  }

  /** A strip that is not full by the coalescer's millimetres, in whole separators' pixels. */
  lemma NotFullIsShort(cfg: Config, pending: seq<PendingLabel>)
    requires pending != [] && !IsFull(cfg, pending)
    ensures PixelSum(pending) as real + cfg.separator * (|pending| + 1) as real * PX_PER_MM < cfg.maxLength * PX_PER_MM
  {
    var px, seps := PixelSum(pending) as real, cfg.separator * (|pending| + 1) as real;
    assert px / PX_PER_MM + seps < cfg.maxLength;
    assert px / PX_PER_MM * PX_PER_MM == px;
    assert (px / PX_PER_MM + seps) * PX_PER_MM < cfg.maxLength * PX_PER_MM;
  }

  /** A strip flushed as soon as it is full is at most its last label too long, give or
      take separators: the coalescer counts them in millimetres, `concat_strip` in rounded
      pixels, and the full test comes after the label that overshoots. */
  lemma StripIsShort(cfg: Config, copies: seq<PendingLabel>)
    requires NotOverfull(cfg, copies) && cfg.separator >= 0.0 && cfg.maxLength > 0.0
    ensures MmToPx(cfg.separator) >= 0
    ensures var n := |copies|;
            Strips.StripWidth(Images(copies), MmToPx(cfg.separator), true) as real
            < PX_PER_MM * (cfg.maxLength + 2.0 * cfg.separator) + copies[n - 1].image.width as real + (n + 1) as real / 2.0
  {
    hide IsFull, MmToPx, PixelSum, Images;
    hide Strips.StripWidth;
    var n, mm := |copies|, cfg.separator;
    SeparatorsAreNear(mm, n + 1);
    StripWidthIs(copies, MmToPx(mm));
    LastPixels(copies);
    BoundInPixels(cfg.maxLength, mm);
    if !IsFull(cfg, copies) {
      NotFullIsShort(cfg, copies);
    } else if n == 1 {
      NoPixels(copies[..0]);
      OneMoreSeparator(mm, 1);
    } else {
      NotFullIsShort(cfg, copies[..n - 1]);
      OneMoreSeparator(mm, n);
    }
  }

  lemma OneMoreSeparator(mm: real, n: nat)
    ensures mm * (n + 1) as real * PX_PER_MM == mm * n as real * PX_PER_MM + mm * PX_PER_MM
  {
    assert (n + 1) as real == n as real + 1.0;
  }

  lemma BoundInPixels(length: real, mm: real)
    requires length > 0.0 && mm >= 0.0
    ensures PX_PER_MM * (length + 2.0 * mm) == length * PX_PER_MM + mm * PX_PER_MM + mm * PX_PER_MM
    ensures length * PX_PER_MM > 0.0 && mm * PX_PER_MM >= 0.0 && mm * 1 as real == mm
  {
  }

  lemma NoPixels(copies: seq<PendingLabel>)
    requires copies == []
    ensures PixelSum(copies) == 0
  {
  }

  /** What a configuration must keep below one frame's lines, for labels up to `longest` pixels. */
  function Longest(cfg: Config, longest: nat): real {
    PX_PER_MM * (cfg.maxLength + 2.0 * cfg.separator) + longest as real + (cfg.maxLabels + 1) as real / 2.0
  }

  /** What the renderer is held to: well-formed labels of one height, none longer than
      `longest`. */
  ghost predicate RendersTape(cfg: Config, height: nat, longest: nat) {
    forall spec :: cfg.render(spec).Some? ==>
      var image := cfg.render(spec).value; image.Valid() && image.height == height && image.width <= longest
  }

  lemma RenderedOfTape(cfg: Config, copies: seq<PendingLabel>, height: nat, longest: nat)
    requires RendersTape(cfg, height, longest) && AllRendered(cfg, copies) && copies != []
    ensures Strips.Joinable(Images(copies)) && Images(copies)[0].height == height
    ensures forall c :: c in copies ==> c.image.width <= longest
  {
    forall c | c in copies ensures c.image.Valid() && c.image.height == height && c.image.width <= longest {
      var spec :| cfg.render(spec) == Some(c.image);
    }
    assert forall i :: 0 <= i < |copies| ==> copies[i] in copies;
  }

  /** In a run under one configuration, whatever its calls: if the renderer keeps to one tape,
      every strip ever tried can be joined, at that tape's height; and if the configuration
      keeps within the bound, its raster is never too high for `print_raster`. Turned along
      the tape its lines are the strip's columns; otherwise they are those of a single label. */
  lemma EveryStripFitsOneFrame(cfg: Config, states: seq<State>, steps: seq<Step>, n: nat, p: nat,
                               height: nat, longest: nat, rotation: int, mirror: bool, threshold: int)
    requires AnyRun(states, steps) && n < |states| && UnderOne(Some(cfg), steps)
    requires RendersTape(cfg, height, longest)
    requires cfg.separator >= 0.0 && cfg.maxLength > 0.0 && cfg.maxLabels >= 1
    requires p < |states[n].journal| && states[n].journal[p].Tried? && states[n].journal[p].strip
    ensures var images := Images(states[n].journal[p].copies);
            && Strips.Joinable(images) && images[0].height == height && MmToPx(cfg.separator) >= 0
            && (Longest(cfg, longest) <= Wire.MAX_FRAME_LINES as real ==>
                 var raster := DeviceRaster.ToDevice(
                   Strips.StripOf(images, MmToPx(cfg.separator), true), rotation, mirror, threshold);
                 raster.Some? && (rotation == 90 || rotation == 270 || height <= Wire.MAX_FRAME_LINES) ==>
                   raster.value.height <= Wire.MAX_FRAME_LINES)
  {
    hide AnyRun, IsFull, MmToPx, Resting, Rendered, RendersTape;
    hide Strips.StripOf, Strips.StripWidth;
    hide DeviceRaster.PackRows;
    StripsStayBounded(cfg, states, steps, n);
    var copies := states[n].journal[p].copies;
    RenderedOfTape(cfg, copies, height, longest);
    StripIsShort(cfg, copies);
    assert copies[|copies| - 1] in copies;
    RasterHeight(Strips.StripOf(Images(copies), MmToPx(cfg.separator), true), rotation, mirror, threshold);
  }

  lemma RasterHeight(strip: Image, rotation: int, mirror: bool, threshold: int)
    requires strip.Valid()
    ensures var raster := DeviceRaster.ToDevice(strip, rotation, mirror, threshold);
            raster.Some? ==> raster.value.height == if rotation == 90 || rotation == 270 then strip.width else strip.height
  {
  }

  // --- the configurations that exist ------------------------------------------

  const MAX_AUTO_LENGTH_MM: real := 200.0
  const MIN_LABEL_LENGTH_MM: real := 8.0

  /** The length of the canvas `compose` makes: measured and clamped, or as the label says. */
  function CanvasLength(length: Option<real>, measured: int): int {
    var px := if length.None? then Max(MmToPx(MIN_LABEL_LENGTH_MM), Min(measured, MmToPx(MAX_AUTO_LENGTH_MM)))
              else MmToPx(length.value);
    Max(1, px)
  }

  /** No label `compose` makes is longer than 200mm, measured or fixed: 1598 pixels. */
  lemma LabelsAreShort(length: Option<real>, measured: int)
    requires length.Some? ==> 0.0 < length.value <= MAX_AUTO_LENGTH_MM
    ensures 1 <= CanvasLength(length, measured) <= MmToPx(MAX_AUTO_LENGTH_MM) == 1598
  {
    hide Round;
    RoundIsMonotone(MIN_LABEL_LENGTH_MM * PX_PER_MM, MAX_AUTO_LENGTH_MM * PX_PER_MM);
    LongestLabel();
    if length.Some? {
      RoundIsMonotone(length.value * PX_PER_MM, MAX_AUTO_LENGTH_MM * PX_PER_MM);
    }
  }

  /** A measured label is as long as its content, but no shorter than 8mm, 64 pixels, and no longer
      than 200mm; a fixed one is as long as it says, to the nearest pixel. */
  lemma LengthsAreClamped(length: Option<real>, measured: int)
    requires length.Some? ==> 0.0 < length.value <= MAX_AUTO_LENGTH_MM
    ensures var px := CanvasLength(length, measured);
            match length
            case None => px == if measured <= 64 then 64 else if measured >= 1598 then 1598 else measured
            case Some(mm) => mm * PX_PER_MM - 0.5 <= px as real && (px == 1 || px as real <= mm * PX_PER_MM + 0.5)
  {
    LongestLabel();
    assert 63.5 < MIN_LABEL_LENGTH_MM * PX_PER_MM < 64.0;
    if length.Some? {
      RoundIsNear(length.value * PX_PER_MM);
    }
  }

  /** The length of the canvas `compose_portrait` makes; None where a fixed length is too short
      for the content. A measured length is not clamped. */
  function PortraitLength(length: Option<real>, measured: int): Option<int> {
    if length.None? then Some(Max(1, measured))
    else if measured > MmToPx(length.value) then None
    else Some(Max(1, MmToPx(length.value)))
  }

  /** A vertical label is refused exactly where its fixed length is shorter than its content;
      otherwise it is at most 200mm long if its length is fixed, and if it is measured exactly
      where its content is. */
  lemma PortraitLabelsAreShortIff(length: Option<real>, measured: int)
    requires length.Some? ==> 0.0 < length.value <= MAX_AUTO_LENGTH_MM
    ensures var px := PortraitLength(length, measured);
            && (px.None? <==> length.Some? && measured > MmToPx(length.value))
            && (px.Some? ==> px.value == Max(1, if length.None? then measured else MmToPx(length.value)))
            && (px.Some? ==> px.value >= 1 && (px.value <= 1598 <==> length.Some? || measured <= 1598))
  {
    hide Round;
    LongestLabel();
    if length.Some? {
      RoundIsMonotone(length.value * PX_PER_MM, MAX_AUTO_LENGTH_MM * PX_PER_MM);
    }
  }

  lemma LongestLabel()
    ensures MmToPx(MAX_AUTO_LENGTH_MM) == 1598
  {
    assert 1598.0 <= MAX_AUTO_LENGTH_MM * PX_PER_MM < 1598.5;
  }

  /** With the at most 200 labels the configuration allows, strips up to eight metres long,
      less a label and its roundings, keep within the bound; the default is 0.3 metres. */
  lemma LongStripsKeepWithinTheBound(cfg: Config)
    requires cfg.maxLabels <= 200 && cfg.maxLength + 2.0 * cfg.separator <= 7987.0
    ensures Longest(cfg, 1598) <= Wire.MAX_FRAME_LINES as real
  {
    var mm := cfg.maxLength + 2.0 * cfg.separator;
    assert PX_PER_MM * mm <= PX_PER_MM * 7987.0;
  }
}
