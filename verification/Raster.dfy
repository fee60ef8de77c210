/** Strips and device rasters: concatenation, thresholding, rotation, mirroring, packing. */
module Raster {
  import opened Basics
  import opened Contract

  // --- joining labels into a strip --------------------------------------------

  /** Where label i starts: behind the labels before it and their separators. */
  function Start(labels: seq<Image>, sep: nat, bookends: bool, i: nat): nat
    requires i <= |labels|
  {
    if i == 0 then (if bookends then sep else 0)
    else Start(labels, sep, bookends, i - 1) + labels[i - 1].width + sep
  }

  /** The strip's length; without bookends nothing follows the last label. */
  function StripWidth(labels: seq<Image>, sep: nat, bookends: bool): nat
    requires labels != []
  {
    var n := |labels| - 1;
    Start(labels, sep, bookends, n) + labels[n].width + if bookends then sep else 0
  }

  /** One row of a separator: blank, with a tick in the middle if it is wide enough. */
  function Gap(sep: nat): (row: seq<byte>)
    ensures |row| == sep
  {
    seq(sep, x requires 0 <= x < sep => if sep >= 3 && x == sep / 2 then 0 else 255)
  }

  /** Equal-height, well-formed labels, at least one. */
  predicate Joinable(labels: seq<Image>) {
    && labels != []
    && (forall i :: 0 <= i < |labels| ==> labels[i].Valid() && labels[i].height == labels[0].height)
  }

  /** Row y of the strip up to where label i starts. */
  function Lead(labels: seq<Image>, sep: nat, bookends: bool, i: nat, y: nat): (row: seq<byte>)
    requires Joinable(labels) && i <= |labels| && y < labels[0].height
    ensures |row| == Start(labels, sep, bookends, i)
  {
    if i == 0 then (if bookends then Gap(sep) else [])
    else Lead(labels, sep, bookends, i - 1, y) + labels[i - 1].rows[y] + Gap(sep)
  }

  function StripRow(labels: seq<Image>, sep: nat, bookends: bool, y: nat): (row: seq<byte>)
    requires Joinable(labels) && y < labels[0].height
    ensures |row| == StripWidth(labels, sep, bookends)
  {
    var n := |labels| - 1;
    Lead(labels, sep, bookends, n, y) + labels[n].rows[y] + if bookends then Gap(sep) else []
  }

  /** The strip these labels make: their rows end to end, with separators between them and,
      with bookends, around them. */
  function StripOf(labels: seq<Image>, sep: nat, bookends: bool): (strip: Image)
    requires Joinable(labels)
    ensures strip.Valid() && strip.height == labels[0].height && strip.width == StripWidth(labels, sep, bookends)
  {
    Image(StripWidth(labels, sep, bookends), labels[0].height,
      seq(labels[0].height, y requires 0 <= y < labels[0].height => StripRow(labels, sep, bookends, y)))
  }

  lemma {:induction false} LeadsGrow(labels: seq<Image>, sep: nat, bookends: bool, i: nat, k: nat, y: nat)
    requires Joinable(labels) && i <= k <= |labels| && y < labels[0].height
    ensures Lead(labels, sep, bookends, i, y) <= Lead(labels, sep, bookends, k, y)
    decreases k
  {
    if i < k {
      LeadsGrow(labels, sep, bookends, i, k - 1, y);
    }
  }

  lemma Sliced(a: seq<byte>, b: seq<byte>, c: seq<byte>, row: seq<byte>)
    requires a + b + c <= row
    ensures row[|a|..|a| + |b|] == b && row[|a| + |b|..|a| + |b| + |c|] == c && row[..|a|] == a
  {
    assert row == a + b + c + row[|a| + |b| + |c|..];
  }

  /** Row y of the strip shows label i at its offset, with the separator behind it if any. */
  lemma LabelLeads(labels: seq<Image>, sep: nat, bookends: bool, i: nat, y: nat)
    requires Joinable(labels) && i < |labels| && y < labels[0].height
    ensures Lead(labels, sep, bookends, i, y) + labels[i].rows[y] + (if i < |labels| - 1 || bookends then Gap(sep) else [])
            <= StripRow(labels, sep, bookends, y)
  {
    hide Gap;
    if i < |labels| - 1 {
      LeadsGrow(labels, sep, bookends, i + 1, |labels| - 1, y);
    }
  }

  /** Slicing the strip at a label's offset gives that label back, untouched. */
  lemma LabelInStrip(labels: seq<Image>, sep: nat, bookends: bool, i: nat, y: nat)
    requires Joinable(labels) && i < |labels| && y < labels[0].height
    ensures var at := Start(labels, sep, bookends, i); var row := StripRow(labels, sep, bookends, y);
            at + labels[i].width <= |row| && row[at..at + labels[i].width] == labels[i].rows[y]
  {
    hide Lead, StripRow, Gap;
    LabelLeads(labels, sep, bookends, i, y);
    Sliced(Lead(labels, sep, bookends, i, y), labels[i].rows[y],
           if i < |labels| - 1 || bookends then Gap(sep) else [], StripRow(labels, sep, bookends, y));
  }

  /** Is this the row of a separator: white, but for one black pixel in its middle, or just right
      of it, if there are three at least? So the tick touches neither label. */
  predicate TickInTheMiddle(row: seq<byte>) {
    forall x :: 0 <= x < |row| ==> row[x] == if |row| >= 3 && 0 <= x - (|row| - 1 - x) <= 1 then 0 else 255
  }

  /** Behind every label but the last, and behind the last too with bookends, comes a separator
      with its tick; with bookends there is one at the very start as well. */
  lemma SeparatorsInStrip(labels: seq<Image>, sep: nat, bookends: bool, i: nat, y: nat)
    requires Joinable(labels) && i < |labels| && (i < |labels| - 1 || bookends) && y < labels[0].height
    ensures var end := Start(labels, sep, bookends, i) + labels[i].width; var row := StripRow(labels, sep, bookends, y);
            end + sep <= |row| && TickInTheMiddle(row[end..end + sep])
    ensures bookends ==>
              sep <= StripWidth(labels, sep, bookends) && TickInTheMiddle(StripRow(labels, sep, bookends, y)[..sep])
  {
    hide StripRow, Gap, Lead, TickInTheMiddle;
    LabelLeads(labels, sep, bookends, i, y);
    Sliced(Lead(labels, sep, bookends, i, y), labels[i].rows[y], Gap(sep), StripRow(labels, sep, bookends, y));
    GapHasTick(sep);
    if bookends {
      OpeningSeparator(labels, sep, y);
    }
  }

  lemma GapHasTick(sep: nat)
    ensures TickInTheMiddle(Gap(sep))
  {
  }

  lemma OpeningSeparator(labels: seq<Image>, sep: nat, y: nat)
    requires Joinable(labels) && y < labels[0].height
    ensures sep <= StripWidth(labels, sep, true) && StripRow(labels, sep, true, y)[..sep] == Gap(sep)
  {
    hide StripRow, Gap;
    LabelLeads(labels, sep, true, 0, y);
    Sliced(Gap(sep), labels[0].rows[y], [], StripRow(labels, sep, true, y));
  }

  // --- drawing it -------------------------------------------------------------

  /** Row y of the canvas shows this up to the cursor, and is blank from there on. */
  ghost predicate Shows(canvas: array2<byte>, y: nat, row: seq<byte>)
    requires y < canvas.Length0
    reads canvas
  {
    && |row| <= canvas.Length1
    && forall x :: 0 <= x < canvas.Length1 ==> canvas[y, x] == if x < |row| then row[x] else 255
  }

  method Paste(canvas: array2<byte>, im: Image, at: nat, ghost before: seq<seq<byte>>)
    requires im.Valid() && canvas.Length0 == im.height == |before| && at + im.width <= canvas.Length1
    requires forall y :: 0 <= y < im.height ==> |before[y]| == at && Shows(canvas, y, before[y])
    modifies canvas
    ensures forall y :: 0 <= y < im.height ==> Shows(canvas, y, before[y] + im.rows[y])
  {
    forall x, y | 0 <= x < im.width && 0 <= y < im.height {
      canvas[y, at + x] := im.rows[y][x];
    }
  }

  /** `_separator`: a cut tick in the middle of the gap; returns where the gap ends. */
  method DrawSeparator(canvas: array2<byte>, at: nat, sep: nat, ghost before: seq<seq<byte>>) returns (next: nat)
    requires canvas.Length0 == |before| && at + sep <= canvas.Length1
    requires forall y :: 0 <= y < |before| ==> |before[y]| == at && Shows(canvas, y, before[y])
    modifies canvas
    ensures next == at + sep
    ensures forall y :: 0 <= y < |before| ==> Shows(canvas, y, before[y] + Gap(sep))
  {
    if sep >= 3 {
      var tick := at + sep / 2;
      forall y | 0 <= y < canvas.Length0 {
        canvas[y, tick] := 0;
      }
    }
    next := at + sep;
  }

  function Picture(canvas: array2<byte>): (im: Image)
    reads canvas
    ensures im.Valid() && im.width == canvas.Length1 && im.height == canvas.Length0
    ensures forall x, y :: 0 <= x < im.width && 0 <= y < im.height ==> im.rows[y][x] == canvas[y, x]
  {
    Image(canvas.Length1, canvas.Length0,
      seq(canvas.Length0, y requires 0 <= y < canvas.Length0 reads canvas =>
        seq(canvas.Length1, x requires 0 <= x < canvas.Length1 reads canvas => canvas[y, x])))
  }

  ghost function Leads(labels: seq<Image>, sep: nat, bookends: bool, i: nat): (rows: seq<seq<byte>>)
    requires Joinable(labels) && i <= |labels|
    ensures |rows| == labels[0].height
    ensures forall y :: 0 <= y < |rows| ==> rows[y] == Lead(labels, sep, bookends, i, y)
  {
    seq(labels[0].height, y requires 0 <= y < labels[0].height => Lead(labels, sep, bookends, i, y))
  }

  ghost function Beside(rows: seq<seq<byte>>, im: Image): (r: seq<seq<byte>>)
    requires im.Valid() && |rows| == im.height
    ensures |r| == |rows| && forall y :: 0 <= y < |rows| ==> r[y] == rows[y] + im.rows[y]
  {
    seq(|rows|, y requires 0 <= y < |rows| => rows[y] + im.rows[y])
  }

  ghost function BesideGap(rows: seq<seq<byte>>, sep: nat): (r: seq<seq<byte>>)
    ensures |r| == |rows| && forall y :: 0 <= y < |rows| ==> r[y] == rows[y] + Gap(sep)
  {
    seq(|rows|, y requires 0 <= y < |rows| => rows[y] + Gap(sep))
  }

  /** A blank strip, with the opening separator if there are bookends. */
  method OpenCanvas(labels: seq<Image>, sep: nat, bookends: bool) returns (canvas: array2<byte>, x: nat)
    requires Joinable(labels)
    ensures fresh(canvas) && canvas.Length0 == labels[0].height && canvas.Length1 == StripWidth(labels, sep, bookends)
    ensures x == Start(labels, sep, bookends, 0)
    ensures forall y :: 0 <= y < canvas.Length0 ==> Shows(canvas, y, Lead(labels, sep, bookends, 0, y))
  {
    canvas := new byte[labels[0].height, StripWidth(labels, sep, bookends)]((_, _) => 255);
    x := 0;
    if bookends {
      ghost var rows: seq<seq<byte>> := seq(labels[0].height, y => []);
      Fits(labels, sep, bookends, 0);
      x := DrawSeparator(canvas, 0, sep, rows);
      forall y | 0 <= y < canvas.Length0 ensures Shows(canvas, y, Gap(sep)) {
        assert Shows(canvas, y, rows[y] + Gap(sep));
        assert rows[y] + Gap(sep) == Gap(sep);
      }
    }
  }

  /** `concat_strip`: draw the labels onto a blank strip with a moving cursor. None stands for
      the ValueError on no labels or on labels of different heights. */
  method ConcatStrip(labels: seq<Image>, sep: nat, bookends: bool) returns (strip: Option<Image>)
    requires forall i :: 0 <= i < |labels| ==> labels[i].Valid()
    ensures strip == if Joinable(labels) then Some(StripOf(labels, sep, bookends)) else None
  {
    if labels == [] || exists i :: 0 <= i < |labels| && labels[i].height != labels[0].height {
      return None;
    }
    hide Gap, Shows;
    var n := |labels|;
    var canvas, x := OpenCanvas(labels, sep, bookends);
    ghost var rows := Leads(labels, sep, bookends, 0);
    for i := 0 to n
      invariant |rows| == labels[0].height
      invariant forall y :: 0 <= y < |rows| ==> |rows[y]| == x && Shows(canvas, y, rows[y])
      invariant i < n ==> x == Start(labels, sep, bookends, i) && rows == Leads(labels, sep, bookends, i)
      invariant i == n ==> forall y :: 0 <= y < |rows| ==> rows[y] == StripRow(labels, sep, bookends, y)
    {
      Fits(labels, sep, bookends, i);
      Paste(canvas, labels[i], x, rows);
      rows := Beside(rows, labels[i]);
      x := x + labels[i].width;
      if i < n - 1 || bookends {
        x := DrawSeparator(canvas, x, sep, rows);
        rows := BesideGap(rows, sep);
      }
    }
    strip := Some(Picture(canvas));
    ShownIsDrawn(canvas, labels, sep, bookends);
  }

  lemma ShownIsDrawn(canvas: array2<byte>, labels: seq<Image>, sep: nat, bookends: bool)
    requires Joinable(labels) && canvas.Length0 == labels[0].height && canvas.Length1 == StripWidth(labels, sep, bookends)
    requires forall y :: 0 <= y < canvas.Length0 ==> Shows(canvas, y, StripRow(labels, sep, bookends, y))
    ensures Picture(canvas) == StripOf(labels, sep, bookends)
  {
    hide StripRow;
    var im, strip := Picture(canvas), StripOf(labels, sep, bookends);
    forall y | 0 <= y < im.height ensures im.rows[y] == strip.rows[y] {
      assert Shows(canvas, y, StripRow(labels, sep, bookends, y));
    }
  }

  /** Every label, with the separator behind it, lies within the strip. */
  lemma Fits(labels: seq<Image>, sep: nat, bookends: bool, i: nat)
    requires Joinable(labels) && i < |labels|
    ensures Start(labels, sep, bookends, i) + labels[i].width + (if i < |labels| - 1 || bookends then sep else 0)
            <= StripWidth(labels, sep, bookends)
    ensures bookends ==> sep <= StripWidth(labels, sep, bookends)
  {
    StartMonotone(labels, sep, bookends, 0, |labels| - 1);
    StartMonotone(labels, sep, bookends, i, |labels| - 1);
  }

  lemma {:induction false} StartMonotone(labels: seq<Image>, sep: nat, bookends: bool, i: nat, k: nat)
    requires i <= k <= |labels|
    ensures Start(labels, sep, bookends, i) + (if i < k then labels[i].width + sep else 0) <= Start(labels, sep, bookends, k)
    decreases k
  {
    if i < k {
      StartMonotone(labels, sep, bookends, i, k - 1);
    }
  }
}
