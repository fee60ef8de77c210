/** The layout tree: measuring, and placing every leaf in its rectangle. */
module BoxTree {
  import opened Arithmetic
  import opened PixelBudget

  datatype Align = Start | Center | End | Stretch

  /** A drawable tree. A leaf's natural size is whatever its content makes of the space: a
      stretched picture reports the space itself, which may be negative. */
  datatype Node =
    | Leaf(flex: real, natural: (int, int) -> (int, int))
    | Box(children: seq<Node>, row: bool, gap: nat, padding: nat, align: Align, flex: real)

  datatype Rect = Rect(x: int, y: int, w: int, h: int) {
    function Right(): int { x + w }

    function Bottom(): int { y + h }

    predicate Empty() { w <= 0 || h <= 0 }
  }

  /** `_inner`, one axis at a time. */
  function Inner(length: int, padding: nat): nat {
    Max(0, length - 2 * padding)
  }

  function Gaps(node: Node): nat
    requires node.Box?
  {
    node.gap * Max(0, |node.children| - 1)
  }

  /** The main-axis pixels the children share, and the cross-axis pixels each may use. */
  function Budget(node: Node, w: int, h: int): int
    requires node.Box?
  {
    Inner(if node.row then w else h, node.padding) - Gaps(node)
  }

  function CrossAvail(node: Node, w: int, h: int): nat
    requires node.Box?
  {
    Inner(if node.row then h else w, node.padding)
  }

  /** `measure`: natural size within the available area. */
  function Measure(node: Node, w: int, h: int): (int, int)
    decreases node, 1, 0
  {
    match node
    case Leaf(_, natural) => natural(w, h)
    case Box(children, row, _, padding, _, _) =>
      var m := MeasureAll(children, row, Budget(node, w, h), CrossAvail(node, w, h));
      var main, cross := m.0 + Gaps(node) + 2 * padding, m.1 + 2 * padding;
      if row then (main, cross) else (cross, main)
  }

  /** The children one after the other, each measured in what its elder siblings left over:
      their total along the main axis, and the widest across it. */
  function MeasureAll(children: seq<Node>, row: bool, budget: int, cross: nat): (int, int)
    decreases children, 0, 1
  {
    if children == [] then (0, 0)
    else
      var n := |children| - 1;
      var before := MeasureAll(children[..n], row, budget, cross);
      var m := MeasureLast(children, row, budget, cross);
      (before.0 + m.0, Max(before.1, m.1))
  }

  /** The last of these children, along and across, in what its elder siblings left over. */
  function MeasureLast(children: seq<Node>, row: bool, budget: int, cross: nat): (int, int)
    requires children != []
    decreases children, 0, 0
  {
    var n := |children| - 1;
    var left := Max(0, budget - MeasureAll(children[..n], row, budget, cross).0);
    if row then Measure(children[n], left, cross)
    else
      var m := Measure(children[n], cross, left);
      (m.1, m.0)
  }

  /** Natural sizes along the main axis when drawing: every child is offered the whole budget. */
  function Naturals(node: Node, w: int, h: int): (r: seq<int>)
    requires node.Box?
    ensures |r| == |node.children|
  {
    seq(|node.children|, i requires 0 <= i < |node.children| => ChildSize(node, w, h, i).0)
  }

  /** Main and cross size of child i when drawing. */
  function ChildSize(node: Node, w: int, h: int, i: nat): (int, int)
    requires node.Box? && i < |node.children|
  {
    if node.row then Measure(node.children[i], Budget(node, w, h), CrossAvail(node, w, h))
    else
      var m := Measure(node.children[i], CrossAvail(node, w, h), Budget(node, w, h));
      (m.1, m.0)
  }

  function Flexes(node: Node): (r: seq<real>)
    requires node.Box?
    ensures |r| == |node.children|
  {
    seq(|node.children|, i requires 0 <= i < |node.children| => node.children[i].flex)
  }

  function Mains(node: Node, w: int, h: int): (r: seq<int>)
    requires node.Box?
    ensures |r| == |node.children|
  {
    Distributed(Naturals(node, w, h), Flexes(node), Budget(node, w, h))
  }

  /** Where child i starts along the main axis: behind its elders, with gaps between. */
  function Cursor(mains: seq<int>, gap: nat, i: nat): int
    requires i <= |mains|
  {
    if i == 0 then 0 else Cursor(mains, gap, i - 1) + gap + Max(0, mains[i - 1])
  }

  function Offset(align: Align, avail: int, span: int): int {
    match align
    case Start => 0
    case Stretch => 0
    case End => avail - span
    case Center => (avail - span) / 2
  }

  /** The rectangle child i is drawn in. */
  function ChildRect(node: Node, box: Rect, i: nat): Rect
    requires node.Box? && i < |node.children|
  {
    var mains := Mains(node, box.w, box.h);
    var avail := CrossAvail(node, box.w, box.h);
    var cross := ChildSize(node, box.w, box.h, i).1;
    var span := if node.align == Stretch || cross > avail then avail else cross;
    var along := Cursor(mains, node.gap, i);
    var across := Offset(node.align, avail, span);
    if node.row then Rect(box.x + node.padding + along, box.y + node.padding + across, mains[i], span)
    else Rect(box.x + node.padding + across, box.y + node.padding + along, span, mains[i])
  }

  /** A leaf in its place, with the pixels by which the rounding of its ancestors' deficits
      may have pushed it past the right and bottom edges. */
  datatype Placed = Placed(rect: Rect, overX: nat, overY: nat)

  predicate Deficit(node: Node, w: int, h: int)
    requires node.Box?
  {
    Sum(Naturals(node, w, h)) > Budget(node, w, h)
  }

  /** The pixels by which the children come out longer than the space they share. */
  function Over(node: Node, w: int, h: int): nat
    requires node.Box?
  {
    Max(0, Sum(Mains(node, w, h)) - Max(0, Budget(node, w, h)))
  }

  /** `draw`: every leaf that is drawn, in drawing order. */
  function Draw(node: Node, box: Rect, overX: nat, overY: nat): seq<Placed>
    decreases node, 1, 0
  {
    match node
    case Leaf(_, _) => [Placed(box, overX, overY)]
    case Box(children, _, _, _, _, _) => DrawUpTo(node, box, overX, overY, |children|)
  }

  function DrawUpTo(node: Node, box: Rect, overX: nat, overY: nat, n: nat): seq<Placed>
    requires node.Box? && n <= |node.children|
    decreases node, 0, n
  {
    if n == 0 then []
    else DrawUpTo(node, box, overX, overY, n - 1) + DrawChild(node, box, overX, overY, n - 1)
  }

  function DrawChild(node: Node, box: Rect, overX: nat, overY: nat, i: nat): seq<Placed>
    requires node.Box? && i < |node.children|
    decreases node, 0, 0
  {
    if Mains(node, box.w, box.h)[i] <= 0 then []
    else
      var over := Over(node, box.w, box.h);
      Draw(node.children[i], ChildRect(node, box, i),
           overX + (if node.row then over else 0), overY + if node.row then 0 else over)
  }

  // --- placement --------------------------------------------------------------

  /** Flexes as the contract allows them, and sizes of at least zero wherever there is room
      of at least zero, all the way down. */
  ghost predicate Proper(node: Node) {
    && node.flex >= 0.0
    && match node
       case Leaf(_, natural) => forall w: nat, h: nat :: natural(w, h).0 >= 0 && natural(w, h).1 >= 0
       case Box(children, _, _, _, _, _) => forall i :: 0 <= i < |children| ==> Proper(children[i])
  }

  /** No child reports a negative size in the space this box offers it. */
  predicate SizesAreSane(node: Node, w: int, h: int)
    requires node.Box?
  {
    forall i :: 0 <= i < |node.children| ==> ChildSize(node, w, h, i).0 >= 0 && ChildSize(node, w, h, i).1 >= 0
  }

  /** Nor does one anywhere in the tree where it is drawn. */
  predicate Sane(node: Node, box: Rect)
    decreases node, 1
  {
    node.Box? ==> SizesAreSane(node, box.w, box.h) && forall i :: 0 <= i < |node.children| ==> SaneChild(node, box, i)
  }

  predicate SaneChild(node: Node, box: Rect, i: nat)
    requires node.Box? && i < |node.children|
    decreases node, 0
  {
    Mains(node, box.w, box.h)[i] > 0 ==> Sane(node.children[i], ChildRect(node, box, i))
  }

  lemma {:induction false} MeasureIsNonNegative(node: Node, w: int, h: int)
    requires Proper(node) && (node.Box? || (w >= 0 && h >= 0))
    ensures Measure(node, w, h).0 >= 0 && Measure(node, w, h).1 >= 0
    decreases node, 1
  {
    if node.Box? {
      TotalsAreNonNegative(node.children, node.row, Budget(node, w, h), CrossAvail(node, w, h));
    }
  }

  lemma {:induction false} TotalsAreNonNegative(children: seq<Node>, row: bool, budget: int, cross: nat)
    requires forall i :: 0 <= i < |children| ==> Proper(children[i])
    ensures var m := MeasureAll(children, row, budget, cross); m.0 >= 0 && m.1 >= 0
    decreases children, 0
  {
    if children != [] {
      hide Proper, Measure;
      var n := |children| - 1;
      TotalsAreNonNegative(children[..n], row, budget, cross);
      var left := Max(0, budget - MeasureAll(children[..n], row, budget, cross).0);
      MeasureIsNonNegative(children[n], if row then left else cross, if row then cross else left);
    }
  }

  /** Sizes turn negative only in a box that is too short for its own gaps. */
  lemma RoomForGapsIsSane(node: Node, w: int, h: int)
    requires node.Box? && Proper(node) && Budget(node, w, h) >= 0
    ensures SizesAreSane(node, w, h)
  {
    hide Measure;
    forall i | 0 <= i < |node.children|
      ensures ChildSize(node, w, h, i).0 >= 0 && ChildSize(node, w, h, i).1 >= 0
    {
      if node.row {
        MeasureIsNonNegative(node.children[i], Budget(node, w, h), CrossAvail(node, w, h));
      } else {
        MeasureIsNonNegative(node.children[i], CrossAvail(node, w, h), Budget(node, w, h));
      }
    }
  }

  /** Has every box that is drawn room for its gaps? */
  predicate Roomy(node: Node, box: Rect)
    decreases node, 1
  {
    node.Box? ==> Budget(node, box.w, box.h) >= 0 && forall i :: 0 <= i < |node.children| ==> RoomyChild(node, box, i)
  }

  predicate RoomyChild(node: Node, box: Rect, i: nat)
    requires node.Box? && i < |node.children|
    decreases node, 0
  {
    Mains(node, box.w, box.h)[i] > 0 ==> Roomy(node.children[i], ChildRect(node, box, i))
  }

  lemma {:induction false} RoomyIsSane(node: Node, box: Rect)
    requires Proper(node) && Roomy(node, box)
    ensures Sane(node, box)
    decreases node
  {
    if node.Box? {
      hide Mains, ChildRect, Budget, SizesAreSane;
      RoomForGapsIsSane(node, box.w, box.h);
      forall i | 0 <= i < |node.children| ensures SaneChild(node, box, i) {
        assert RoomyChild(node, box, i);
        if Mains(node, box.w, box.h)[i] > 0 {
          RoomyIsSane(node.children[i], ChildRect(node, box, i));
        }
      }
    }
  }

  lemma NaturalsAreProper(node: Node, w: int, h: int)
    requires node.Box? && Proper(node) && SizesAreSane(node, w, h)
    ensures PixelBudget.Proper(Naturals(node, w, h), Flexes(node))
  {
    hide ChildSize;
    forall i | 0 <= i < |node.children| ensures Flexes(node)[i] >= 0.0 {
      assert Proper(node.children[i]);
    }
  }

  /** Rounding costs less than a pixel a child, and only in a deficit. */
  lemma MainsAreShared(node: Node, w: int, h: int)
    requires node.Box? && Proper(node) && SizesAreSane(node, w, h)
    ensures var mains := Mains(node, w, h); var budget := Budget(node, w, h);
            && NonNegative(mains)
            && Sum(mains) <= Max(0, budget) + Over(node, w, h)
            && (budget <= 0 ==> Sum(mains) == 0)
            && Over(node, w, h) <= Max(0, |node.children| - 1)
            && (Over(node, w, h) > 0 ==> Deficit(node, w, h))
  {
    hide Naturals, Flexes, Budget, Distributed;
    NaturalsAreProper(node, w, h);
    var naturals, flexes, budget := Naturals(node, w, h), Flexes(node), Budget(node, w, h);
    SumOfNonNegative(naturals);
    if Sum(naturals) > budget {
      DeficitIsShared(naturals, flexes, budget);
    } else if Sum(naturals) < budget && SumReal(flexes) > 0.0 {
      SurplusIsShared(naturals, flexes, budget);
    } else {
      FittingIsKept(naturals, flexes, budget);
    }
  }

  /** When the children come out too long: in a deficit that neither the elastic ones could
      give up to the pixel nor all of them in whole pixels. */
  lemma RoundingShowsIff(node: Node, w: int, h: int)
    requires node.Box? && Proper(node) && SizesAreSane(node, w, h)
    ensures Over(node, w, h) > 0
            <==> && Deficit(node, w, h) && Budget(node, w, h) >= 0
                 && !SqueezesEvenly(Yielded(Naturals(node, w, h), Flexes(node), Budget(node, w, h)), Budget(node, w, h))
  {
    hide Naturals, Flexes, Budget, Distributed, Yielded, SqueezesEvenly;
    MainsAreShared(node, w, h);
    NaturalsAreProper(node, w, h);
    if Deficit(node, w, h) && Budget(node, w, h) >= 0 {
      DeficitIsShared(Naturals(node, w, h), Flexes(node), Budget(node, w, h));
      DeficitEndsAtBudgetIff(Naturals(node, w, h), Flexes(node), Budget(node, w, h));
    }
  }

  // Siblings: in source order, apart by the gap.

  lemma {:induction false} CursorSteps(mains: seq<int>, gap: nat, i: nat, j: nat)
    requires i < j <= |mains|
    ensures Cursor(mains, gap, i) + Max(0, mains[i]) + gap <= Cursor(mains, gap, j)
  {
    if i + 1 < j {
      CursorSteps(mains, gap, i, j - 1);
    }
  }

  lemma {:induction false} CursorBound(mains: seq<int>, gap: nat, i: nat)
    requires NonNegative(mains) && i <= |mains|
    ensures 0 <= Cursor(mains, gap, i) == Sum(mains[..i]) + gap * i
  {
    if i > 0 {
      CursorBound(mains, gap, i - 1);
      assert mains[..i][..i - 1] == mains[..i - 1];
      assert gap * i == gap * (i - 1) + gap;
    }
  }

  lemma {:induction false} PrefixSum(s: seq<int>, i: nat)
    requires NonNegative(s) && i < |s|
    ensures 0 <= Sum(s[..i]) && Sum(s[..i]) + s[i] <= Sum(s)
  {
    var n := |s| - 1;
    if i < n {
      PrefixSum(s[..n], i);
      assert s[..n][..i] == s[..i];
    } else {
      SumOfNonNegative(s[..n]);
    }
  }

  /** Of two drawn siblings the younger starts at least a gap behind the elder's end, whatever
      sizes any of them report. */
  lemma SiblingsAreApart(node: Node, box: Rect, i: nat, j: nat)
    requires node.Box? && i < j < |node.children| && Mains(node, box.w, box.h)[i] > 0
    ensures var a, b := ChildRect(node, box, i), ChildRect(node, box, j);
            if node.row then a.Right() + node.gap <= b.x else a.Bottom() + node.gap <= b.y
  {
    hide Mains, ChildSize, CrossAvail, Cursor;
    CursorSteps(Mains(node, box.w, box.h), node.gap, i, j);
  }

  /** Children laid out in a row of total length `room` end in it, up to `over`. */
  lemma EndsInRoom(mains: seq<int>, gap: nat, room: int, over: nat, i: nat)
    requires NonNegative(mains) && i < |mains| && Sum(mains) <= room - gap * (|mains| - 1) + over
    ensures 0 <= Cursor(mains, gap, i) && Cursor(mains, gap, i) + mains[i] <= room + over
  {
    hide Cursor, Sum;
    CursorBound(mains, gap, i);
    PrefixSum(mains, i);
    assert gap * i <= gap * (|mains| - 1) by {
      if gap > 0 {
        Ordered(gap, i, |mains| - 1);
      }
    }
  }

  /** Where child i lies along the main axis: inside the padding, up to the rounding. */
  lemma ChildStaysInsideAlong(node: Node, w: int, h: int, i: nat)
    requires node.Box? && Proper(node) && SizesAreSane(node, w, h) && i < |node.children| && Mains(node, w, h)[i] > 0
    ensures var mains := Mains(node, w, h); var at := Cursor(mains, node.gap, i);
            0 <= at && at + mains[i] <= (if node.row then w else h) - 2 * node.padding + Over(node, w, h)
  {
    hide Mains, Cursor, Over, Sum;
    var mains := Mains(node, w, h);
    MainsAreShared(node, w, h);
    PrefixSum(mains, i);
    EndsInRoom(mains, node.gap, Inner(if node.row then w else h, node.padding), Over(node, w, h), i);
  }

  /** Where a child lies across: inside the padding, unless there is no room at all. */
  lemma ChildStaysInsideAcross(align: Align, length: int, padding: nat, cross: nat)
    ensures var avail := Inner(length, padding);
            var span := if align == Stretch || cross > avail then avail else cross;
            0 <= span && (span == 0
              || (0 <= Offset(align, avail, span) && Offset(align, avail, span) + span <= length - 2 * padding))
  {
  }

  /** Across, a child is set against the leading edge, against the trailing one, or in the
      middle to the pixel; stretched, it spans all there is. */
  lemma ChildIsAligned(align: Align, avail: nat, cross: nat)
    ensures var span := if align == Stretch || cross > avail then avail else cross;
            var before := Offset(align, avail, span); var after := avail - before - span;
            match align
            case Start => before == 0 && after == Max(0, avail - cross)
            case End => after == 0 && before == Max(0, avail - cross)
            case Center => 0 <= after - before <= 1 && before + after == Max(0, avail - cross)
            case Stretch => before == 0 && after == 0
  {
  }

  /** A drawn child stays inside its box along the main axis, up to the rounding of a
      deficit; and inside it across, unless there is no room across at all. */
  lemma ChildStaysInside(node: Node, box: Rect, i: nat)
    requires node.Box? && Proper(node) && SizesAreSane(node, box.w, box.h)
    requires i < |node.children| && Mains(node, box.w, box.h)[i] > 0
    ensures var c := ChildRect(node, box, i); var over := Over(node, box.w, box.h);
            if node.row then
              && box.x <= c.x && c.Right() <= box.Right() + over
              && (c.h == 0 || (box.y <= c.y && c.Bottom() <= box.Bottom() && c.h > 0))
            else
              && box.y <= c.y && c.Bottom() <= box.Bottom() + over
              && (c.w == 0 || (box.x <= c.x && c.Right() <= box.Right() && c.w > 0))
  {
    hide Mains, ChildSize, Cursor, Over, Inner, Offset;
    ChildStaysInsideAlong(node, box.w, box.h, i);
    ChildStaysInsideAcross(node.align, if node.row then box.h else box.w, node.padding,
                           ChildSize(node, box.w, box.h, i).1);
  }

  /** Where there is no room one way, nothing is drawn but empty leaves. */
  lemma {:induction false} NoRoomNoInk(node: Node, box: Rect, overX: nat, overY: nat)
    requires Proper(node) && Sane(node, box) && (box.w == 0 || box.h == 0)
    ensures forall p :: p in Draw(node, box, overX, overY) ==> p.rect.Empty()
    decreases node, 1
  {
    if node.Box? {
      NoRoomUpTo(node, box, overX, overY, |node.children|);
    }
  }

  lemma {:induction false} NoRoomUpTo(node: Node, box: Rect, overX: nat, overY: nat, n: nat)
    requires node.Box? && Proper(node) && Sane(node, box) && n <= |node.children| && (box.w == 0 || box.h == 0)
    ensures forall p :: p in DrawUpTo(node, box, overX, overY, n) ==> p.rect.Empty()
    decreases node, 0, n
  {
    hide ChildRect, Mains, Sum;
    if n > 0 {
      NoRoomUpTo(node, box, overX, overY, n - 1);
      if Mains(node, box.w, box.h)[n - 1] > 0 {
        var over := Over(node, box.w, box.h);
        NoRoomForChild(node, box, n - 1);
        assert SaneChild(node, box, n - 1);
        NoRoomNoInk(node.children[n - 1], ChildRect(node, box, n - 1),
                    overX + (if node.row then over else 0), overY + if node.row then 0 else over);
      }
    }
  }

  /** A child drawn in a box without room one way has none itself. */
  lemma NoRoomForChild(node: Node, box: Rect, i: nat)
    requires node.Box? && Proper(node) && SizesAreSane(node, box.w, box.h)
    requires i < |node.children| && (box.w == 0 || box.h == 0)
    requires Mains(node, box.w, box.h)[i] > 0
    ensures var c := ChildRect(node, box, i); c.w == 0 || c.h == 0
  {
    hide Mains, ChildSize, Cursor, Sum;
    MainsAreShared(node, box.w, box.h);
    PrefixSum(Mains(node, box.w, box.h), i);
  }

  /** Inside `box`, give or take the rounding its ancestors below `box` answer for. */
  predicate Within(p: Placed, box: Rect, overX: nat, overY: nat) {
    && overX <= p.overX && overY <= p.overY
    && box.x <= p.rect.x && p.rect.Right() <= box.Right() + p.overX - overX
    && box.y <= p.rect.y && p.rect.Bottom() <= box.Bottom() + p.overY - overY
  }

  predicate AllWithin(drawn: seq<Placed>, box: Rect, overX: nat, overY: nat) {
    forall p :: p in drawn && !p.rect.Empty() ==> Within(p, box, overX, overY)
  }

  /** Every leaf that shows anything lies in the box its tree is drawn in, stretched to the
      right and to the bottom by the pixels its ancestors' children come out too long along
      that axis; exactly inside where none do, which `RoundingShowsIff` decides box by box. */
  lemma {:induction false} LeavesStayInside(node: Node, box: Rect, overX: nat, overY: nat)
    requires Proper(node) && Sane(node, box)
    ensures AllWithin(Draw(node, box, overX, overY), box, overX, overY)
    decreases node, 1
  {
    if node.Box? {
      LeavesStayInsideUpTo(node, box, overX, overY, |node.children|);
    }
  }

  lemma {:induction false} LeavesStayInsideUpTo(node: Node, box: Rect, overX: nat, overY: nat, n: nat)
    requires node.Box? && Proper(node) && Sane(node, box) && n <= |node.children|
    ensures AllWithin(DrawUpTo(node, box, overX, overY, n), box, overX, overY)
    decreases node, 0, n
  {
    if n > 0 {
      LeavesStayInsideUpTo(node, box, overX, overY, n - 1);
      ChildLeavesStayInside(node, box, overX, overY, n - 1);
    }
  }

  lemma {:induction false} ChildLeavesStayInside(node: Node, box: Rect, overX: nat, overY: nat, i: nat)
    requires node.Box? && Proper(node) && Sane(node, box) && i < |node.children|
    ensures AllWithin(DrawChild(node, box, overX, overY, i), box, overX, overY)
    ensures var over := Over(node, box.w, box.h);
            AllWithin(DrawChild(node, box, overX, overY, i), ChildRect(node, box, i),
                      overX + (if node.row then over else 0), overY + if node.row then 0 else over)
    decreases node, 0, 0
  {
    hide ChildRect, Mains, Over, Draw;
    if Mains(node, box.w, box.h)[i] > 0 {
      var over, c := Over(node, box.w, box.h), ChildRect(node, box, i);
      var ox, oy := overX + (if node.row then over else 0), overY + if node.row then 0 else over;
      ChildStaysInside(node, box, i);
      assert SaneChild(node, box, i);
      LeavesStayInside(node.children[i], c, ox, oy);
      if c.w == 0 || c.h == 0 {
        NoRoomNoInk(node.children[i], c, ox, oy);
      }
    }
  }

  // Leaves: none covers another.

  /** The earlier leaf ends, but for the rounding it answers for, before the later begins. */
  predicate Clear(p: Placed, q: Placed, overX: nat, overY: nat) {
    p.rect.Empty() || q.rect.Empty()
    || p.rect.Right() <= q.rect.x + p.overX - overX || p.rect.Bottom() <= q.rect.y + p.overY - overY
  }

  predicate AllClear(drawn: seq<Placed>, overX: nat, overY: nat) {
    forall a, b :: 0 <= a < b < |drawn| ==> Clear(drawn[a], drawn[b], overX, overY)
  }

  /** Does every drawn child that has a younger sibling keep its leaves to itself? Nothing is
      asked of the sizes of the siblings, and nothing of the youngest but within itself. */
  predicate Apart(node: Node, box: Rect)
    decreases node, 1
  {
    node.Box? ==> forall i :: 0 <= i < |node.children| ==> ApartChild(node, box, i)
  }

  predicate ApartChild(node: Node, box: Rect, i: nat)
    requires node.Box? && i < |node.children|
    decreases node, 0
  {
    Mains(node, box.w, box.h)[i] > 0 ==>
      var c := ChildRect(node, box, i);
      Apart(node.children[i], c) && (i < |node.children| - 1 ==> Sane(node.children[i], c))
  }

  lemma {:induction false} SaneIsApart(node: Node, box: Rect)
    requires Sane(node, box)
    ensures Apart(node, box)
    decreases node
  {
    if node.Box? {
      hide Mains, ChildRect, SizesAreSane;
      forall i | 0 <= i < |node.children| ensures ApartChild(node, box, i) {
        assert SaneChild(node, box, i);
        if Mains(node, box.w, box.h)[i] > 0 {
          SaneIsApart(node.children[i], ChildRect(node, box, i));
        }
      }
    }
  }

  /** A leaf may run over the right and bottom edges of its box, never over the others. */
  predicate StartsIn(p: Placed, box: Rect, overX: nat, overY: nat) {
    overX <= p.overX && overY <= p.overY && box.x <= p.rect.x && box.y <= p.rect.y
  }

  predicate AllStartIn(drawn: seq<Placed>, box: Rect, overX: nat, overY: nat) {
    forall p :: p in drawn ==> StartsIn(p, box, overX, overY)
  }

  lemma ChildStartsInside(node: Node, box: Rect, i: nat)
    requires node.Box? && i < |node.children|
    ensures var c := ChildRect(node, box, i); box.x <= c.x && box.y <= c.y
  {
    hide Mains, ChildSize;
    CursorIsNonNegative(Mains(node, box.w, box.h), node.gap, i);
  }

  lemma {:induction false} CursorIsNonNegative(mains: seq<int>, gap: nat, i: nat)
    requires i <= |mains|
    ensures 0 <= Cursor(mains, gap, i)
  {
    if i > 0 {
      CursorIsNonNegative(mains, gap, i - 1);
    }
  }

  lemma {:induction false} LeavesStartInside(node: Node, box: Rect, overX: nat, overY: nat)
    ensures AllStartIn(Draw(node, box, overX, overY), box, overX, overY)
    decreases node, 1
  {
    if node.Box? {
      LeavesStartInsideUpTo(node, box, overX, overY, |node.children|);
    }
  }

  lemma {:induction false} LeavesStartInsideUpTo(node: Node, box: Rect, overX: nat, overY: nat, n: nat)
    requires node.Box? && n <= |node.children|
    ensures AllStartIn(DrawUpTo(node, box, overX, overY, n), box, overX, overY)
    decreases node, 0, n
  {
    hide ChildRect, Mains, Over;
    if n > 0 {
      LeavesStartInsideUpTo(node, box, overX, overY, n - 1);
      if Mains(node, box.w, box.h)[n - 1] > 0 {
        var over := Over(node, box.w, box.h);
        ChildStartsInside(node, box, n - 1);
        LeavesStartInside(node.children[n - 1], ChildRect(node, box, n - 1),
                          overX + (if node.row then over else 0), overY + if node.row then 0 else over);
      }
    }
  }

  /** No leaf covers another anywhere in the tree: of two leaves, the one drawn first ends
      to the left of the other or above it, less the rounding of the deficits it sits in. */
  lemma {:induction false} LeavesDoNotOverlap(node: Node, box: Rect, overX: nat, overY: nat)
    requires Proper(node) && Apart(node, box)
    ensures AllClear(Draw(node, box, overX, overY), overX, overY)
    decreases node, 1
  {
    if node.Box? {
      LeavesDoNotOverlapUpTo(node, box, overX, overY, |node.children|);
    }
  }

  lemma {:induction false} LeavesDoNotOverlapUpTo(node: Node, box: Rect, overX: nat, overY: nat, n: nat)
    requires node.Box? && Proper(node) && Apart(node, box) && n <= |node.children|
    ensures AllClear(DrawUpTo(node, box, overX, overY, n), overX, overY)
    decreases node, 0, n
  {
    hide DrawChild, Clear, Apart;
    if n > 0 {
      LeavesDoNotOverlapUpTo(node, box, overX, overY, n - 1);
      var before, last := DrawUpTo(node, box, overX, overY, n - 1), DrawChild(node, box, overX, overY, n - 1);
      ChildLeavesDoNotOverlap(node, box, overX, overY, n - 1);
      forall a, b | 0 <= a < |before| && 0 <= b < |last| ensures Clear(before[a], last[b], overX, overY) {
        var i := DrawnForSomeChild(node, box, overX, overY, n - 1, before[a]);
        CousinsAreClear(node, box, overX, overY, i, n - 1, before[a], last[b]);
      }
      JoinClear(before, last, overX, overY);
    }
  }

  lemma {:induction false} DrawnForSomeChild(node: Node, box: Rect, overX: nat, overY: nat, n: nat, p: Placed)
    returns (i: nat)
    requires node.Box? && n <= |node.children| && p in DrawUpTo(node, box, overX, overY, n)
    ensures i < n && p in DrawChild(node, box, overX, overY, i)
  {
    hide DrawChild;
    if p in DrawChild(node, box, overX, overY, n - 1) {
      i := n - 1;
    } else {
      i := DrawnForSomeChild(node, box, overX, overY, n - 1, p);
    }
  }

  lemma JoinClear(before: seq<Placed>, last: seq<Placed>, overX: nat, overY: nat)
    requires AllClear(before, overX, overY) && AllClear(last, overX, overY)
    requires forall a, b :: 0 <= a < |before| && 0 <= b < |last| ==> Clear(before[a], last[b], overX, overY)
    ensures AllClear(before + last, overX, overY)
  {
    hide Clear;
    var all := before + last;
    forall a, b | 0 <= a < b < |all| ensures Clear(all[a], all[b], overX, overY) {
      if b < |before| {
        assert all[a] == before[a] && all[b] == before[b];
      } else if a < |before| {
        assert all[a] == before[a] && all[b] == last[b - |before|];
      } else {
        assert all[a] == last[a - |before|] && all[b] == last[b - |before|];
      }
    }
  }

  lemma {:induction false} ChildLeavesDoNotOverlap(node: Node, box: Rect, overX: nat, overY: nat, i: nat)
    requires node.Box? && Proper(node) && Apart(node, box) && i < |node.children|
    ensures AllClear(DrawChild(node, box, overX, overY, i), overX, overY)
    decreases node, 0, 0
  {
    hide ChildRect, Mains, Over, Draw, Sane;
    assert ApartChild(node, box, i);
    if Mains(node, box.w, box.h)[i] > 0 {
      var over, c := Over(node, box.w, box.h), ChildRect(node, box, i);
      LeavesDoNotOverlap(node.children[i], c,
                         overX + (if node.row then over else 0), overY + if node.row then 0 else over);
    }
  }

  /** Leaves under two different children of one box. */
  lemma CousinsAreClear(node: Node, box: Rect, overX: nat, overY: nat, i: nat, j: nat, p: Placed, q: Placed)
    requires node.Box? && Proper(node) && Apart(node, box) && i < j < |node.children|
    requires p in DrawChild(node, box, overX, overY, i) && q in DrawChild(node, box, overX, overY, j)
    ensures Clear(p, q, overX, overY)
  {
    hide ChildRect, Mains, Over, Draw, Apart, Sane;
    assert ApartChild(node, box, i) by {
      KeepsApart(node, box, i);
    }
    var over := Over(node, box.w, box.h);
    var ox, oy := overX + (if node.row then over else 0), overY + if node.row then 0 else over;
    SiblingsAreApart(node, box, i, j);
    LeavesStayInside(node.children[i], ChildRect(node, box, i), ox, oy);
    LeavesStartInside(node.children[j], ChildRect(node, box, j), ox, oy);
  }

  lemma KeepsApart(node: Node, box: Rect, i: nat)
    requires node.Box? && Apart(node, box) && i < |node.children|
    ensures ApartChild(node, box, i)
  {
  }

  /** The rounding does show: two one-pixel children of a one-pixel box, and the second is
      drawn outside it. */
  lemma RoundingPushesALeafOut()
    ensures var leaf := Leaf(0.0, (w: int, h: int) => (1, 1));
            var node := Box([leaf, leaf], true, 0, 0, Center, 1.0); var box := Rect(0, 0, 1, 1);
            && Proper(node)
            && Draw(node, box, 0, 0) == [Placed(Rect(0, 0, 1, 1), 1, 0), Placed(Rect(1, 0, 1, 1), 1, 0)]
  {
    hide Sum, Distributed;
    var leaf := Leaf(0.0, (w: int, h: int) => (1, 1));
    var node, box := Box([leaf, leaf], true, 0, 0, Center, 1.0), Rect(0, 0, 1, 1);
    RoundingKeepsAPixel();
    assert Naturals(node, 1, 1) == [1, 1] && Flexes(node) == [0.0, 0.0] && Mains(node, 1, 1) == [1, 1];
    assert DrawChild(node, box, 0, 0, 0) == [Placed(Rect(0, 0, 1, 1), 1, 0)];
    assert Cursor([1, 1], 0, 0) == 0;
    assert DrawChild(node, box, 0, 0, 1) == [Placed(Rect(1, 0, 1, 1), 1, 0)];
    assert DrawUpTo(node, box, 0, 0, 1) == DrawUpTo(node, box, 0, 0, 0) + DrawChild(node, box, 0, 0, 0);
  }

  // --- measuring --------------------------------------------------------------

  /** Does child i keep what a drawable promises: a natural size within the area offered?
      It is offered what its elder siblings left over of the space. */
  predicate KeepsWithin(children: seq<Node>, row: bool, budget: int, cross: nat, i: nat)
    requires i < |children|
  {
    var left := Max(0, budget - MeasureAll(children[..i], row, budget, cross).0);
    var m := MeasureLast(children[..i + 1], row, budget, cross);
    0 <= m.0 <= left && 0 <= m.1 <= cross
  }

  lemma {:induction false} ChildrenFit(children: seq<Node>, row: bool, budget: int, cross: nat)
    requires forall i :: 0 <= i < |children| ==> KeepsWithin(children, row, budget, cross, i)
    ensures var m := MeasureAll(children, row, budget, cross); 0 <= m.0 <= Max(0, budget) && 0 <= m.1 <= cross
    decreases |children|
  {
    if children != [] {
      hide MeasureLast;
      var n := |children| - 1;
      forall i | 0 <= i < n ensures KeepsWithin(children[..n], row, budget, cross, i) {
        assert KeepsWithin(children, row, budget, cross, i);
        assert children[..n][..i] == children[..i] && children[..n][..i + 1] == children[..i + 1];
      }
      ChildrenFit(children[..n], row, budget, cross);
      assert KeepsWithin(children, row, budget, cross, n);
      assert children[..n + 1] == children;
    }
  }

  /** Where every child keeps within what it is offered, the box keeps within what it is
      offered itself exactly if its padding and gaps leave room: measuring never takes them
      off the area twice, nor drops them. */
  lemma MeasureFitsIff(node: Node, w: nat, h: nat)
    requires node.Box?
    requires forall i :: 0 <= i < |node.children| ==>
      KeepsWithin(node.children, node.row, Budget(node, w, h), CrossAvail(node, w, h), i)
    ensures var m := Measure(node, w, h); var main, cross := if node.row then w else h, if node.row then h else w;
            m.0 <= w && m.1 <= h <==> 2 * node.padding + Gaps(node) <= main && 2 * node.padding <= cross
  {
    hide Gaps, MeasureAll, KeepsWithin;
    ChildrenFit(node.children, node.row, Budget(node, w, h), CrossAvail(node, w, h));
  }

  /** Padding shows even where there is no room: a padded box around a leaf that keeps within
      whatever it is offered measures its padding when offered nothing. */
  lemma PaddingOutgrowsTheOffer()
    ensures var node := Box([Leaf(0.0, (w: int, h: int) => (0, 0))], true, 0, 1, Center, 1.0);
            && Proper(node) && KeepsWithin(node.children, true, Budget(node, 0, 0), CrossAvail(node, 0, 0), 0)
            && Measure(node, 0, 0) == (2, 2)
  {
    var node := Box([Leaf(0.0, (w: int, h: int) => (0, 0))], true, 0, 1, Center, 1.0);
    assert node.children[..0] == [] && node.children[..1] == node.children;
    assert MeasureAll([], true, 0, 0) == (0, 0);
    assert MeasureAll(node.children, true, 0, 0) == (0, 0);
  }

  /** The sizes of the children, each measured in what its elders left of `space`. */
  ghost predicate MeasuredInTurn(children: seq<Node>, row: bool, space: int, across: nat, mains: seq<int>, crosses: seq<int>) {
    && |mains| == |crosses| == |children|
    && forall i :: 0 <= i < |children| ==>
         var left := Max(0, space - Sum(mains[..i]));
         if row then Measure(children[i], left, across) == (mains[i], crosses[i])
         else Measure(children[i], across, left) == (crosses[i], mains[i])
  }

  /** At least as large as all of these, and zero or one of them. */
  predicate IsLargest(m: int, s: seq<int>) {
    m >= 0 && (forall i :: 0 <= i < |s| ==> s[i] <= m) && (m == 0 || m in s)
  }

  lemma LargestGrows(m: int, s: seq<int>, c: int)
    requires IsLargest(m, s)
    ensures IsLargest(Max(m, c), s + [c])
  {
    assert c in s + [c] && forall x :: x in s ==> x in s + [c];
  }

  lemma OneMoreMeasured(children: seq<Node>, row: bool, space: int, across: nat, mains: seq<int>, crosses: seq<int>,
                        m: (int, int))
    requires children != []
    requires MeasuredInTurn(children[..|children| - 1], row, space, across, mains, crosses)
    requires var left, last := Max(0, space - Sum(mains)), children[|children| - 1];
             if row then Measure(last, left, across) == m else Measure(last, across, left) == (m.1, m.0)
    ensures MeasuredInTurn(children, row, space, across, mains + [m.0], crosses + [m.1])
  {
    hide Measure, Sum;
    var n := |children| - 1;
    assert (mains + [m.0])[..n] == mains;
    forall i | 0 <= i < n ensures (mains + [m.0])[..i] == mains[..i] && children[..n][i] == children[i] {
    }
  }

  lemma {:induction false} TotalsOf(children: seq<Node>, row: bool, space: int, across: nat)
    returns (mains: seq<int>, crosses: seq<int>)
    ensures MeasuredInTurn(children, row, space, across, mains, crosses)
    ensures var m := MeasureAll(children, row, space, across); m.0 == Sum(mains) && IsLargest(m.1, crosses)
    decreases |children|
  {
    if children == [] {
      mains, crosses := [], [];
    } else {
      hide Measure, MeasuredInTurn, IsLargest;
      var n := |children| - 1;
      var before, others := TotalsOf(children[..n], row, space, across);
      var m := MeasureLast(children, row, space, across);
      mains, crosses := before + [m.0], others + [m.1];
      OneMoreMeasured(children, row, space, across, before, others, m);
      LargestGrows(MeasureAll(children[..n], row, space, across).1, others, m.1);
      assert mains[..n] == before;
    }
  }

  /** The natural size of a box. Along it: its children's sizes, each measured in what its elders
      leave of the space within padding and gaps, with the gaps and the padding. Across it: the
      largest of its children's, with the padding. */
  lemma MeasureIsSumAndLargest(node: Node, w: int, h: int) returns (mains: seq<int>, crosses: seq<int>)
    requires node.Box?
    ensures var n, along, across := |node.children|, if node.row then w else h, if node.row then h else w;
            MeasuredInTurn(node.children, node.row, Max(0, along - 2 * node.padding) - node.gap * Max(0, n - 1),
                           Max(0, across - 2 * node.padding), mains, crosses)
    ensures var m := Measure(node, w, h); var main, cross := if node.row then m.0 else m.1, if node.row then m.1 else m.0;
            && main == Sum(mains) + node.gap * Max(0, |node.children| - 1) + 2 * node.padding
            && IsLargest(cross - 2 * node.padding, crosses)
  {
    hide MeasureAll, MeasuredInTurn, IsLargest;
    mains, crosses := TotalsOf(node.children, node.row, Budget(node, w, h), CrossAvail(node, w, h));
  }

  /** `measure`, child after child. */
  method MeasureBox(node: Node, w: int, h: int) returns (size: (int, int))
    ensures size == Measure(node, w, h)
    decreases node
  {
    match node
    case Leaf(_, natural) =>
      size := natural(w, h);
    case Box(children, row, _, padding, _, _) =>
      var budget, crossAvail := Budget(node, w, h), CrossAvail(node, w, h);
      var mainTotal, crossMax := 0, 0;
      for i := 0 to |children|
        invariant (mainTotal, crossMax) == MeasureAll(children[..i], row, budget, crossAvail)
      {
        assert children[..i + 1][..i] == children[..i];
        var left := Max(0, budget - mainTotal);
        if row {
          var m := MeasureBox(children[i], left, crossAvail);
          mainTotal, crossMax := mainTotal + m.0, Max(crossMax, m.1);
        } else {
          var m := MeasureBox(children[i], crossAvail, left);
          mainTotal, crossMax := mainTotal + m.1, Max(crossMax, m.0);
        }
      }
      assert children[..|children|] == children;
      var main, cross := mainTotal + Gaps(node) + 2 * padding, crossMax + 2 * padding;
      size := if row then (main, cross) else (cross, main);
  }

  // --- drawing ----------------------------------------------------------------

  function Rects(drawn: seq<Placed>): (r: seq<Rect>)
    ensures |r| == |drawn|
  {
    seq(|drawn|, i requires 0 <= i < |drawn| => drawn[i].rect)
  }

  /** Natural sizes of all children, along and across. */
  method MeasureChildren(node: Node, w: int, h: int) returns (naturals: seq<int>, crosses: seq<int>)
    requires node.Box?
    ensures naturals == Naturals(node, w, h)
    ensures |crosses| == |node.children| && forall i :: 0 <= i < |crosses| ==> crosses[i] == ChildSize(node, w, h, i).1
  {
    hide Measure;
    naturals, crosses := [], [];
    var budget, crossAvail := Budget(node, w, h), CrossAvail(node, w, h);
    for i := 0 to |node.children|
      invariant |naturals| == |crosses| == i
      invariant forall k :: 0 <= k < i ==> (naturals[k], crosses[k]) == ChildSize(node, w, h, k)
    {
      if node.row {
        var m := MeasureBox(node.children[i], budget, crossAvail);
        naturals, crosses := naturals + [m.0], crosses + [m.1];
      } else {
        var m := MeasureBox(node.children[i], crossAvail, budget);
        naturals, crosses := naturals + [m.1], crosses + [m.0];
      }
    }
  }

  /** `draw`: a cursor moves along the main axis, past every child and the gap behind it.
      What a leaf does is record the rectangle it is given. */
  method DrawBox(node: Node, box: Rect, ghost overX: nat, ghost overY: nat) returns (drawn: seq<Rect>)
    ensures drawn == Rects(Draw(node, box, overX, overY))
    decreases node
  {
    hide Measure, Distributed, Naturals, Budget, ChildSize, Over;
    if node.Leaf? {
      return [box];
    }
    var crossAvail := CrossAvail(node, box.w, box.h);
    var naturals, crosses := MeasureChildren(node, box.w, box.h);
    var mains := Distribute(naturals, Flexes(node), Budget(node, box.w, box.h));
    ghost var over := Over(node, box.w, box.h);
    var cursor := 0;
    drawn := [];
    for i := 0 to |node.children|
      invariant cursor == Cursor(mains, node.gap, i)
      invariant drawn == Rects(DrawUpTo(node, box, overX, overY, i))
    {
      if mains[i] > 0 {
        var span := if node.align == Stretch || crosses[i] > crossAvail then crossAvail else crosses[i];
        var off := Offset(node.align, crossAvail, span);
        var rect := if node.row then Rect(box.x + node.padding + cursor, box.y + node.padding + off, mains[i], span)
                    else Rect(box.x + node.padding + off, box.y + node.padding + cursor, span, mains[i]);
        assert rect == ChildRect(node, box, i);
        var inner := DrawBox(node.children[i], rect,
                             overX + (if node.row then over else 0), overY + if node.row then 0 else over);
        drawn := drawn + inner;
        cursor := cursor + mains[i] + node.gap;
      } else {
        cursor := cursor + node.gap;
      }
    }
  }
}
