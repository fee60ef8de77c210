/** Exactly when the leaves of a box stay inside it, whatever sizes they report. */
module BoxLimits {
  import opened Arithmetic
  import opened PixelBudget
  import opened BoxTree

  /** Leaves as the contract allows them: no flex below zero, and no size below zero where
      there is room of at least zero. */
  ghost predicate ProperLeaves(children: seq<Node>) {
    forall i :: 0 <= i < |children| ==> children[i].Leaf? && BoxTree.Proper(children[i])
  }

  /** The box with these leaves for its children. */
  function Holding(node: Node, leaves: seq<Node>): (r: Node)
    requires node.Box?
    ensures r.Box?
  {
    node.(children := leaves)
  }

  /** Do its leaves stay inside, whichever they are? */
  ghost predicate AlwaysInside(node: Node, box: Rect)
    requires node.Box?
  {
    forall leaves: seq<Node> :: |leaves| == |node.children| && ProperLeaves(leaves) ==>
      AllWithin(Draw(Holding(node, leaves), box, 0, 0), box, 0, 0)
  }

  /** Has the box room for its gaps, or no room across, where nothing shows anyway? */
  predicate RoomOrNothing(node: Node, w: int, h: int)
    requires node.Box?
  {
    Budget(node, w, h) >= 0 || CrossAvail(node, w, h) == 0
  }

  lemma HoldsTheSame(node: Node, leaves: seq<Node>, w: int, h: int)
    requires node.Box? && |leaves| == |node.children|
    ensures Budget(Holding(node, leaves), w, h) == Budget(node, w, h)
    ensures CrossAvail(Holding(node, leaves), w, h) == CrossAvail(node, w, h)
  {
  }

  // --- where there is room ----------------------------------------------------

  lemma LeavesInRoom(node: Node, box: Rect)
    requires node.Box? && BoxTree.Proper(node) && ProperLeaves(node.children) && Budget(node, box.w, box.h) >= 0
    ensures AllWithin(Draw(node, box, 0, 0), box, 0, 0)
  {
    hide Mains, ChildRect, Budget, SizesAreSane;
    RoomForGapsIsSane(node, box.w, box.h);
    forall i | 0 <= i < |node.children| ensures SaneChild(node, box, i) {
      assert node.children[i].Leaf?;
    }
    LeavesStayInside(node, box, 0, 0);
  }

  /** Without room across, leaves are empty whatever sizes they report. */
  lemma LeavesWithoutHeight(node: Node, box: Rect, p: Placed)
    requires node.Box? && ProperLeaves(node.children) && CrossAvail(node, box.w, box.h) == 0
    requires p in Draw(node, box, 0, 0)
    ensures p.rect.Empty()
  {
    hide Mains, ChildSize, DrawUpTo;
    var i := DrawnForSomeChild(node, box, 0, 0, |node.children|, p);
    assert node.children[i].Leaf?;
  }

  // --- where there is not -----------------------------------------------------

  /** A leaf that fills the space where there is some, and reports `size` along the axis on
      which it is offered less than nothing. */
  function Wild(size: int, cross: int): (leaf: Node)
    ensures leaf.Leaf? && BoxTree.Proper(leaf)
  {
    Leaf(0.0, (w: int, h: int) => if w < 0 then (size, cross) else if h < 0 then (cross, size) else (0, 0))
  }

  /** One leaf of size m, one to make up for it, and the rest of size zero. */
  function WildLeaves(n: nat, budget: int, cross: int, m: int): (leaves: seq<Node>)
    ensures |leaves| == n
  {
    seq(n, i => Wild(if i == 0 then m else if i == 1 then budget - m else 0, cross))
  }

  lemma WildIsProper(n: nat, budget: int, cross: int, m: int)
    ensures ProperLeaves(WildLeaves(n, budget, cross, m))
  {
    hide Wild, BoxTree.Proper;
    var leaves := WildLeaves(n, budget, cross, m);
    forall i | 0 <= i < n ensures leaves[i].Leaf? && BoxTree.Proper(leaves[i]) {
      assert leaves[i] == Wild(if i == 0 then m else if i == 1 then budget - m else 0, cross);
    }
  }

  lemma {:induction false} WildSum(s: seq<int>, budget: int, m: int)
    requires |s| >= 2 && s[0] == m && s[1] == budget - m && forall i :: 2 <= i < |s| ==> s[i] == 0
    ensures Sum(s) == budget
    decreases |s|
  {
    if |s| == 2 {
      assert s[..1][..0] == [];
      assert Sum(s[..1]) == m;
    } else {
      WildSum(s[..|s| - 1], budget, m);
    }
  }

  lemma {:induction false} DrawnAmongAll(node: Node, box: Rect, i: nat, n: nat, p: Placed)
    requires node.Box? && i < n <= |node.children| && p in DrawChild(node, box, 0, 0, i)
    ensures p in DrawUpTo(node, box, 0, 0, n)
  {
    hide DrawChild;
    if i < n - 1 {
      DrawnAmongAll(node, box, i, n - 1, p);
    }
  }

  lemma WildMains(node: Node, w: int, h: int, m: int)
    requires node.Box? && Budget(node, w, h) < 0
    requires node.children == WildLeaves(|node.children|, Budget(node, w, h), CrossAvail(node, w, h), m)
    ensures |node.children| >= 2 && Mains(node, w, h)[0] == m && Over(node, w, h) == 0
    ensures ChildSize(node, w, h, 0).1 == CrossAvail(node, w, h)
  {
    hide Sum, SumReal, BoxTree.Proper;
    var n, budget := |node.children|, Budget(node, w, h);
    assert n >= 2;
    assert forall i :: 0 <= i < n ==>
      node.children[i] == Wild(if i == 0 then m else if i == 1 then budget - m else 0, CrossAvail(node, w, h));
    WildSum(Naturals(node, w, h), budget, m);
    assert Mains(node, w, h) == Naturals(node, w, h);
  }

  /** Among leaves of the right sizes one is drawn as long as one likes. */
  lemma SomeLeafRunsOver(node: Node, box: Rect, m: nat) returns (leaves: seq<Node>, p: Placed)
    requires node.Box? && !RoomOrNothing(node, box.w, box.h) && m > 0
    ensures |leaves| == |node.children| && ProperLeaves(leaves)
    ensures p in Draw(Holding(node, leaves), box, 0, 0) && !p.rect.Empty() && p.overX == p.overY == 0
    ensures if node.row then p.rect.x == box.x + node.padding && p.rect.w == m
            else p.rect.y == box.y + node.padding && p.rect.h == m
    ensures box.x <= p.rect.x && box.y <= p.rect.y
  {
    hide Mains, ChildSize, Over, WildLeaves, Budget, CrossAvail, DrawUpTo;
    leaves := WildLeaves(|node.children|, Budget(node, box.w, box.h), CrossAvail(node, box.w, box.h), m);
    var held := Holding(node, leaves);
    WildIsProper(|node.children|, Budget(node, box.w, box.h), CrossAvail(node, box.w, box.h), m);
    HoldsTheSame(node, leaves, box.w, box.h);
    WildMains(held, box.w, box.h, m);
    assert Cursor(Mains(held, box.w, box.h), node.gap, 0) == 0;
    p := Placed(ChildRect(held, box, 0), 0, 0);
    assert held.children[0].Leaf?;
    assert DrawChild(held, box, 0, 0, 0) == [p];
    DrawnAmongAll(held, box, 0, |leaves|, p);
    ChildStartsInside(held, box, 0);
  }

  // --- exactly when -----------------------------------------------------------

  /** Whatever leaves a box holds, each stays inside it up to the rounding of a deficit, if
      and only if the box has room for its gaps, or no room across. */
  lemma LeavesAlwaysInsideIff(node: Node, box: Rect)
    requires node.Box? && node.flex >= 0.0
    ensures AlwaysInside(node, box) <==> RoomOrNothing(node, box.w, box.h)
  {
    hide Draw, Budget, CrossAvail;
    if RoomOrNothing(node, box.w, box.h) {
      forall leaves: seq<Node> | |leaves| == |node.children| && ProperLeaves(leaves)
        ensures AllWithin(Draw(Holding(node, leaves), box, 0, 0), box, 0, 0)
      {
        HoldsTheSame(node, leaves, box.w, box.h);
        if Budget(node, box.w, box.h) >= 0 {
          LeavesInRoom(Holding(node, leaves), box);
        } else {
          forall p | p in Draw(Holding(node, leaves), box, 0, 0) ensures p.rect.Empty() {
            LeavesWithoutHeight(Holding(node, leaves), box, p);
          }
        }
      }
    } else {
      var leaves, p := SomeLeafRunsOver(node, box, 1 + Max(0, if node.row then box.w else box.h));
      assert !Within(p, box, 0, 0);
      assert !AllWithin(Draw(Holding(node, leaves), box, 0, 0), box, 0, 0);
    }
  }

  /** Leaves of one box never cover each other, whatever sizes they report. */
  lemma LeavesOfOneBoxAreApart(node: Node, box: Rect)
    requires node.Box? && ProperLeaves(node.children) && node.flex >= 0.0
    ensures AllClear(Draw(node, box, 0, 0), 0, 0)
  {
    hide Draw, Mains, ChildRect;
    forall i | 0 <= i < |node.children| ensures ApartChild(node, box, i) {
      assert node.children[i].Leaf?;
    }
    LeavesDoNotOverlap(node, box, 0, 0);
  }

  /** Does a neighbour stay clear of its leaves, whichever they are? */
  ghost predicate AlwaysClear(node: Node, box: Rect, q: Placed)
    requires node.Box?
  {
    forall leaves: seq<Node>, p ::
      |leaves| == |node.children| && ProperLeaves(leaves) && p in Draw(Holding(node, leaves), box, 0, 0) ==>
        Clear(p, q, 0, 0)
  }

  /** Is this a leaf behind the box, along its own main axis, and at its side all the way? */
  predicate Behind(node: Node, box: Rect, q: Rect)
    requires node.Box?
  {
    && !q.Empty()
    && if node.row then box.Right() <= q.x && q.y <= box.y && box.Bottom() <= q.Bottom()
       else box.Bottom() <= q.y && q.x <= box.x && box.Right() <= q.Right()
  }

  /** A leaf behind a box along the box's own main axis is never covered by the leaves of the
      box, whichever they are, if and only if the box has room for its gaps, or none across. */
  lemma NeighbourIsClearIff(node: Node, box: Rect, q: Placed)
    requires node.Box? && node.flex >= 0.0 && Behind(node, box, q.rect)
    ensures AlwaysClear(node, box, q) <==> RoomOrNothing(node, box.w, box.h)
  {
    hide Draw, Budget, CrossAvail;
    if RoomOrNothing(node, box.w, box.h) {
      LeavesAlwaysInsideIff(node, box);
    } else {
      var m := 1 + Max(0, if node.row then q.rect.x - box.x else q.rect.y - box.y);
      var leaves, p := SomeLeafRunsOver(node, box, m);
      assert !Clear(p, q, 0, 0);
    }
  }

  /** A box without room for its gaps: of three stretched pictures in a box two pixels wide
      with gaps of three, each reports minus four pixels, and the one with flex is granted
      four. */
  lemma NegativeSizesGrowALeaf()
    ensures var picture := (flex: real) => Leaf(flex, (w: int, h: int) => (w, h));
            var node := Box([picture(1.0), picture(0.0), picture(0.0)], true, 3, 0, Stretch, 1.0);
            && BoxTree.Proper(node) && Budget(node, 2, 5) == -4
            && Draw(node, Rect(0, 0, 2, 5), 0, 0) == [Placed(Rect(0, 0, 4, 5), 0, 0)]
  {
    hide Sum, Distributed;
    var picture := (flex: real) => Leaf(flex, (w: int, h: int) => (w, h));
    var node, box := Box([picture(1.0), picture(0.0), picture(0.0)], true, 3, 0, Stretch, 1.0), Rect(0, 0, 2, 5);
    NegativeSizesAreShared();
    assert Naturals(node, 2, 5) == [-4, -4, -4] && Flexes(node) == [1.0, 0.0, 0.0];
    assert Mains(node, 2, 5) == [4, -4, -4];
    assert Over(node, 2, 5) == 0 && ChildRect(node, box, 0) == Rect(0, 0, 4, 5) by {
      assert Cursor([4, -4, -4], 3, 0) == 0;
    }
    assert DrawChild(node, box, 0, 0, 0) == [Placed(Rect(0, 0, 4, 5), 0, 0)];
    assert DrawUpTo(node, box, 0, 0, 3) == DrawUpTo(node, box, 0, 0, 2) + DrawChild(node, box, 0, 0, 2);
    assert DrawUpTo(node, box, 0, 0, 2) == DrawUpTo(node, box, 0, 0, 1) + DrawChild(node, box, 0, 0, 1);
    assert DrawUpTo(node, box, 0, 0, 1) == DrawUpTo(node, box, 0, 0, 0) + DrawChild(node, box, 0, 0, 0);
  }

  lemma NegativeSizesAreShared()
    ensures Distributed([-4, -4, -4], [1.0, 0.0, 0.0], -4) == [4, -4, -4] && Sum([4, -4, -4]) == -4
  {
    var naturals, flexes := [-4, -4, -4], [1.0, 0.0, 0.0];
    SumOfThree(naturals);
    assert flexes[..2] == [1.0, 0.0] && flexes[..2][..1] == [1.0] && SumReal([1.0]) == 1.0;
    assert SumReal(flexes[..2]) == 1.0;
    assert Sum(naturals) == -12 && SumReal(flexes) == 1.0;
    assert Share(8, 1.0, 1.0) == 8;
    var grown := Grown(naturals, flexes, 8, 1.0);
    assert grown == [4, -4, -4];
    SumOfThree(grown);
    assert GreediestOf(flexes, 3) == 0;
    assert grown[0 := grown[0]] == grown;
  }

  lemma SumOfThree(s: seq<int>)
    requires |s| == 3
    ensures Sum(s) == s[0] + s[1] + s[2]
  {
    assert s[..2][..1] == [s[0]] && Sum([s[0]]) == s[0];
    assert Sum(s[..2]) == s[0] + s[1];
  }
}
