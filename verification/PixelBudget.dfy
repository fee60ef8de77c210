/** Sharing a pixel budget among the children of a box. */
module PixelBudget {
  import opened Arithmetic

  function Sum(s: seq<int>): int {
    if s == [] then 0 else Sum(s[..|s| - 1]) + s[|s| - 1]
  }

  function SumReal(s: seq<real>): real {
    if s == [] then 0.0 else SumReal(s[..|s| - 1]) + s[|s| - 1]
  }

  /** Pixels of the children that declare themselves elastic. */
  function Elastic(sizes: seq<int>, flexes: seq<real>): int
    requires |sizes| == |flexes|
  {
    if sizes == [] then 0
    else
      var n := |sizes| - 1;
      Elastic(sizes[..n], flexes[..n]) + if flexes[n] > 0.0 then sizes[n] else 0
  }

  /** `int(take * size / whole)` */
  function Part(take: int, size: int, whole: int): int
    requires whole != 0
  {
    Truncate(take * size, whole)
  }

  /** `int(leftover * f / total_flex)` for a child that has any flex. */
  function Share(leftover: int, f: real, total: real): int
    requires total > 0.0
  {
    if f > 0.0 then (leftover as real * f / total).Floor else 0
  }

  function Grown(naturals: seq<int>, flexes: seq<real>, leftover: int, total: real): (r: seq<int>)
    requires |naturals| == |flexes| && total > 0.0
    ensures |r| == |naturals|
  {
    seq(|naturals|, i requires 0 <= i < |naturals| =>
      naturals[i] + Share(leftover, flexes[i], total))
  }

  /** The first child with the largest flex. */
  predicate Greediest(flexes: seq<real>, k: nat) {
    && k < |flexes|
    && (forall i :: 0 <= i < |flexes| ==> flexes[i] <= flexes[k])
    && (forall i :: 0 <= i < k ==> flexes[i] < flexes[k])
  }

  function Shrunk(sizes: seq<int>, flexes: seq<real>, take: int, elastic: int): (r: seq<int>)
    requires |sizes| == |flexes| && elastic > 0
    ensures |r| == |sizes|
  {
    seq(|sizes|, i requires 0 <= i < |sizes| =>
      if flexes[i] > 0.0 then sizes[i] - Part(take, sizes[i], elastic) else sizes[i])
  }

  function Squeezed(sizes: seq<int>, over: int, total: int): (r: seq<int>)
    requires total != 0
    ensures |r| == |sizes|
  {
    seq(|sizes|, i requires 0 <= i < |sizes| =>
      if sizes[i] - Part(over, sizes[i], total) > 0 then sizes[i] - Part(over, sizes[i], total) else 0)
  }

  /** The sizes after the elastic children have given up what they can. */
  function Yielded(naturals: seq<int>, flexes: seq<real>, budget: int): (r: seq<int>)
    requires |naturals| == |flexes|
    ensures |r| == |naturals|
  {
    var elastic := Elastic(naturals, flexes);
    var deficit := Sum(naturals) - budget;
    if elastic > 0 then Shrunk(naturals, flexes, if deficit < elastic then deficit else elastic, elastic) else naturals
  }

  // --- sums -------------------------------------------------------------------

  predicate NonNegative(s: seq<int>) {
    forall i :: 0 <= i < |s| ==> s[i] >= 0
  }

  lemma {:induction false} SumOfNonNegative(s: seq<int>)
    requires NonNegative(s)
    ensures Sum(s) >= 0
    ensures Sum(s) == 0 <==> forall i :: 0 <= i < |s| ==> s[i] == 0
    ensures forall i :: 0 <= i < |s| ==> s[i] <= Sum(s)
  {
    if s != [] {
      SumOfNonNegative(s[..|s| - 1]);
      assert forall i :: 0 <= i < |s| ==> s[i] == (if i < |s| - 1 then s[..|s| - 1][i] else s[|s| - 1]);
    }
  }

  lemma {:induction false} SumUpdate(s: seq<int>, k: nat, v: int)
    requires k < |s|
    ensures Sum(s[k := v]) == Sum(s) - s[k] + v
  {
    var n := |s| - 1;
    if k < n {
      SumUpdate(s[..n], k, v);
      assert s[k := v][..n] == s[..n][k := v];
    } else {
      assert s[k := v][..n] == s[..n];
    }
  }

  // --- floors -----------------------------------------------------------------

  /** What comes off each child. */
  function Parts(sizes: seq<int>, take: int, whole: int): (r: seq<int>)
    requires whole > 0
    ensures |r| == |sizes|
  {
    seq(|sizes|, i requires 0 <= i < |sizes| => Part(take, sizes[i], whole))
  }

  /** Proportional parts, rounded down, add up to the whole less at most a pixel each. */
  lemma {:induction false} PartsAddUp(sizes: seq<int>, take: int, whole: int)
    requires whole > 0 && NonNegative(sizes) && take >= 0
    ensures var parts := Parts(sizes, take, whole);
            && whole * Sum(parts) <= take * Sum(sizes)
            && (sizes != [] ==> take * Sum(sizes) < whole * (Sum(parts) + |sizes|))
            && NonNegative(parts)
    decreases |sizes|
  {
    hide Part;
    var parts := Parts(sizes, take, whole);
    if sizes == [] {
      assert Sum(parts) == 0 && Sum(sizes) == 0;
      Zero(whole);
      Zero(take);
    } else {
      var n := |sizes| - 1;
      PartsAddUp(sizes[..n], take, whole);
      assert parts[..n] == Parts(sizes[..n], take, whole);
      PartBounds(take, sizes[n], whole);
      PartIsNonNegative(take, sizes[n], whole);
      Distributes(take, Sum(sizes[..n]), sizes[n]);
      Distributes(whole, Sum(parts[..n]), parts[n]);
      Distributes(whole, Sum(parts[..n]) + n, parts[n] + 1);
      if n == 0 {
        assert Sum(parts[..n]) == 0 && Sum(sizes[..n]) == 0;
        Zero(whole);
        Zero(take);
      }
    }
  }

  lemma PartBounds(take: int, size: int, whole: int)
    requires whole > 0 && take >= 0 && size >= 0
    ensures whole * Part(take, size, whole) <= take * size < whole * (Part(take, size, whole) + 1)
  {
    assert take * size >= 0;
    DivMod(take * size, whole);
    Distributes(whole, Part(take, size, whole), 1);
  }

  lemma PartIsNonNegative(take: int, size: int, whole: int)
    requires take >= 0 && size >= 0 && whole > 0
    ensures Part(take, size, whole) >= 0
    ensures take <= whole ==> Part(take, size, whole) <= size
    ensures take >= whole ==> Part(take, size, whole) >= size
  {
    hide Truncate;
    var product := take * size;
    OrderedProducts(take, whole, size);
    FloorAtLeast(product, whole, 0);
    if take <= whole {
      FloorAtMost(product, whole, size);
    }
    if take >= whole {
      FloorAtLeast(product, whole, size);
    }
  }

  lemma OrderedProducts(a: int, b: int, t: int)
    requires a >= 0 && t >= 0
    ensures a * t >= 0
    ensures a <= b ==> a * t <= b * t
    ensures a >= b ==> a * t >= b * t
  {
  }

  lemma FloorAtMost(a: int, b: int, c: int)
    requires b > 0 && a <= b * c
    ensures a / b <= c
  {
    DivMod(a, b);
    Ordered(b, a / b, c);
    Ordered(b, a / b, c + 1);
  }

  lemma FloorAtLeast(a: int, b: int, c: int)
    requires b > 0 && a >= b * c
    ensures a / b >= c
  {
    DivMod(a, b);
    Distributes(b, a / b, 1);
    Ordered(b, c, a / b);
    Ordered(b, c, a / b + 1);
  }

  // --- the rule as a whole ----------------------------------------------------

  /** `max(range(n), key=flexes)`: the first child with the largest flex. */
  function GreediestOf(flexes: seq<real>, n: nat): (k: nat)
    requires 0 < n <= |flexes|
    ensures k < n && Greediest(flexes[..n], k)
  {
    if n == 1 then 0
    else
      var k := GreediestOf(flexes, n - 1);
      if flexes[n - 1] > flexes[k] then n - 1 else k
  }

  /** `_distribute` */
  function Distributed(naturals: seq<int>, flexes: seq<real>, budget: int): (r: seq<int>)
    requires |naturals| == |flexes|
    ensures |r| == |naturals|
  {
    var leftover := budget - Sum(naturals);
    if leftover == 0 then naturals
    else if leftover > 0 then
      if SumReal(flexes) <= 0.0 then naturals
      else
        var grown := Grown(naturals, flexes, leftover, SumReal(flexes));
        var k := GreediestOf(flexes, |flexes|);
        grown[k := grown[k] + (budget - Sum(grown))]
    else
      var y := Yielded(naturals, flexes, budget);
      if Sum(y) > budget then Squeezed(y, Sum(y) - budget, if Sum(y) == 0 then 1 else Sum(y)) else y
  }

  /** Children and flexes as the contract allows them. */
  predicate Proper(naturals: seq<int>, flexes: seq<real>) {
    |naturals| == |flexes| && NonNegative(naturals) && forall i :: 0 <= i < |flexes| ==> flexes[i] >= 0.0
  }

  lemma GrownPrefix(naturals: seq<int>, flexes: seq<real>, leftover: int, total: real)
    requires |naturals| == |flexes| > 0 && total > 0.0
    ensures var n, grown := |naturals| - 1, Grown(naturals, flexes, leftover, total);
            && grown[..n] == Grown(naturals[..n], flexes[..n], leftover, total)
            && grown[n] == naturals[n] + Share(leftover, flexes[n], total)
  {
    hide Share;
  }

  lemma SumLast(s: seq<int>)
    requires s != []
    ensures Sum(s) == Sum(s[..|s| - 1]) + s[|s| - 1]
  {
  }

  lemma SumRealLast(s: seq<real>)
    requires s != []
    ensures SumReal(s) == SumReal(s[..|s| - 1]) + s[|s| - 1]
  {
  }

  /** No child shrinks when a surplus is shared. */
  lemma NobodyShrinks(naturals: seq<int>, flexes: seq<real>, leftover: int, total: real)
    requires Proper(naturals, flexes) && leftover >= 0 && total > 0.0
    ensures forall i :: 0 <= i < |naturals| ==> Grown(naturals, flexes, leftover, total)[i] >= naturals[i]
  {
    hide Share;
    forall i | 0 <= i < |naturals| ensures Grown(naturals, flexes, leftover, total)[i] >= naturals[i] {
      ShareBound(leftover, flexes[i], total);
    }
  }

  /** Rounded-down shares of a surplus never exceed it. */
  lemma {:induction false} SharesAddUp(naturals: seq<int>, flexes: seq<real>, leftover: int, total: real)
    requires Proper(naturals, flexes) && leftover >= 0 && total > 0.0
    ensures var grown := Grown(naturals, flexes, leftover, total);
            (Sum(grown) - Sum(naturals)) as real * total <= leftover as real * SumReal(flexes)
    decreases |naturals|
  {
    hide Share, Grown;
    if naturals == [] {
      assert Sum(naturals) == Sum(Grown(naturals, flexes, leftover, total)) == 0 && SumReal(flexes) == 0.0;
    } else {
      hide Sum, SumReal;
      var n := |naturals| - 1;
      SharesAddUp(naturals[..n], flexes[..n], leftover, total);
      GrownPrefix(naturals, flexes, leftover, total);
      SumLast(Grown(naturals, flexes, leftover, total));
      SumLast(naturals);
      SumRealLast(flexes);
      ShareBound(leftover, flexes[n], total);
      var before := Sum(Grown(naturals, flexes, leftover, total)[..n]) - Sum(naturals[..n]);
      AddShare(before as real, Share(leftover, flexes[n], total) as real,
               SumReal(flexes[..n]), flexes[n], leftover as real, total);
    }
  }

  lemma AddShare(a: real, share: real, sum: real, f: real, leftover: real, total: real)
    requires a * total <= leftover * sum && share * total <= leftover * f
    ensures (a + share) * total <= leftover * (sum + f)
  {
  }

  lemma ShareBound(leftover: int, f: real, total: real)
    requires leftover >= 0 && f >= 0.0 && total > 0.0
    ensures Share(leftover, f, total) >= 0 && Share(leftover, f, total) as real * total <= leftover as real * f
  {
    if f > 0.0 {
      var x := leftover as real * f / total;
      assert leftover as real * f >= 0.0;
      QuotientReal(leftover as real * f, total);
      assert x.Floor as real <= x;
      OrderedReal(total, x.Floor as real, x);
    }
  }

  lemma GrownFits(naturals: seq<int>, flexes: seq<real>, leftover: int)
    requires Proper(naturals, flexes) && leftover >= 0 && SumReal(flexes) > 0.0
    ensures Sum(Grown(naturals, flexes, leftover, SumReal(flexes))) <= Sum(naturals) + leftover
  {
    hide Grown, Sum, SumReal;
    var total := SumReal(flexes);
    SharesAddUp(naturals, flexes, leftover, total);
    OrderedReal(total, (Sum(Grown(naturals, flexes, leftover, total)) - Sum(naturals)) as real, leftover as real);
  }

  /** A surplus with any flex is shared out to the last pixel and shrinks no child. */
  lemma SurplusIsShared(naturals: seq<int>, flexes: seq<real>, budget: int)
    requires Proper(naturals, flexes) && budget > Sum(naturals) && SumReal(flexes) > 0.0
    ensures var sizes := Distributed(naturals, flexes, budget);
            Sum(sizes) == budget && forall i :: 0 <= i < |naturals| ==> sizes[i] >= naturals[i]
  {
    hide Greediest, Grown, Sum, SumReal;
    var total, leftover := SumReal(flexes), budget - Sum(naturals);
    var grown := Grown(naturals, flexes, leftover, total);
    SomeChild(flexes);
    NobodyShrinks(naturals, flexes, leftover, total);
    GrownFits(naturals, flexes, leftover);
    var k := GreediestOf(flexes, |flexes|);
    SumUpdate(grown, k, grown[k] + (budget - Sum(grown)));
  }

  lemma SomeChild(flexes: seq<real>)
    requires SumReal(flexes) > 0.0
    ensures flexes != []
  {
  }

  /** A share, rounded down, is less than a pixel short. */
  lemma ShareFallsShort(leftover: int, f: real, total: real)
    requires leftover >= 0 && f >= 0.0 && total > 0.0
    ensures leftover as real * f < (Share(leftover, f, total) + 1) as real * total
  {
    if f > 0.0 {
      var x := leftover as real * f / total;
      assert leftover as real * f >= 0.0;
      QuotientReal(leftover as real * f, total);
      assert x < x.Floor as real + 1.0;
      OrderedReal(total, x, x.Floor as real + 1.0);
    }
  }

  lemma {:induction false} SharesFallShort(naturals: seq<int>, flexes: seq<real>, leftover: int, total: real)
    requires Proper(naturals, flexes) && naturals != [] && leftover >= 0 && total > 0.0
    ensures var grown := Grown(naturals, flexes, leftover, total);
            leftover as real * SumReal(flexes) < (Sum(grown) - Sum(naturals) + |naturals|) as real * total
    decreases |naturals|
  {
    hide Share;
    var n := |naturals| - 1;
    var grown := Grown(naturals, flexes, leftover, total);
    assert grown[..n] == Grown(naturals[..n], flexes[..n], leftover, total);
    ShareFallsShort(leftover, flexes[n], total);
    if n > 0 {
      SharesFallShort(naturals[..n], flexes[..n], leftover, total);
      AddShort((Sum(grown[..n]) - Sum(naturals[..n]) + n) as real, (Share(leftover, flexes[n], total) + 1) as real,
               SumReal(flexes[..n]), flexes[n], leftover as real, total);
    }
  }

  lemma AddShort(a: real, share: real, sum: real, f: real, leftover: real, total: real)
    requires leftover * sum < a * total && leftover * f < share * total
    ensures leftover * (sum + f) < (a + share) * total
  {
  }

  /** The rounding leaves fewer pixels than there are children. */
  lemma RemainderIsSmall(naturals: seq<int>, flexes: seq<real>, leftover: int)
    requires Proper(naturals, flexes) && leftover >= 0 && SumReal(flexes) > 0.0
    ensures var rest := Sum(naturals) + leftover - Sum(Grown(naturals, flexes, leftover, SumReal(flexes)));
            0 <= rest < |naturals|
  {
    hide Grown, Sum, SumReal;
    var total := SumReal(flexes);
    SomeChild(flexes);
    GrownFits(naturals, flexes, leftover);
    SharesFallShort(naturals, flexes, leftover, total);
    var grown := Sum(Grown(naturals, flexes, leftover, total)) - Sum(naturals);
    OrderedReal(total, leftover as real, (grown + |naturals|) as real);
  }

  lemma GrowsByShare(naturals: seq<int>, flexes: seq<real>, budget: int, i: nat)
    requires |naturals| == |flexes| && budget > Sum(naturals) && SumReal(flexes) > 0.0 && i < |naturals|
    ensures var leftover, total, k := budget - Sum(naturals), SumReal(flexes), GreediestOf(flexes, |flexes|);
            var rest := budget - Sum(Grown(naturals, flexes, leftover, total));
            Distributed(naturals, flexes, budget)[i]
            == naturals[i] + Share(leftover, flexes[i], total) + if i == k then rest else 0
  {
    hide Share, Sum, SumReal, Greediest;
  }

  /** A surplus is shared in proportion to flex, to the pixel below; what the rounding leaves,
      fewer pixels than there are children, goes to the first of the greediest. */
  lemma SharesAreProportional(naturals: seq<int>, flexes: seq<real>, budget: int, i: nat)
    requires Proper(naturals, flexes) && budget > Sum(naturals) && SumReal(flexes) > 0.0 && i < |naturals|
    ensures var grown := Distributed(naturals, flexes, budget)[i] - naturals[i];
            var k, leftover, total := GreediestOf(flexes, |flexes|), budget - Sum(naturals), SumReal(flexes);
            && (i != k ==> grown as real * total <= leftover as real * flexes[i] < (grown + 1) as real * total)
            && (i == k ==> Share(leftover, flexes[k], total) <= grown < Share(leftover, flexes[k], total) + |naturals|)
  {
    hide Share, Sum, SumReal, Greediest, GreediestOf, Grown, Distributed;
    var total, leftover := SumReal(flexes), budget - Sum(naturals);
    GrowsByShare(naturals, flexes, budget, i);
    ShareBound(leftover, flexes[i], total);
    ShareFallsShort(leftover, flexes[i], total);
    RemainderIsSmall(naturals, flexes, leftover);
  }

  /** Only children with flex grow. */
  lemma OnlyFlexGrows(naturals: seq<int>, flexes: seq<real>, budget: int, i: nat)
    requires Proper(naturals, flexes) && budget > Sum(naturals) && SumReal(flexes) > 0.0
    requires i < |naturals| && flexes[i] == 0.0
    ensures Distributed(naturals, flexes, budget)[i] == naturals[i]
  {
    var k := GreediestOf(flexes, |flexes|);
    assert flexes[..|flexes|] == flexes;
    SomeFlex(flexes, k);
  }

  lemma {:induction false} SomeFlex(flexes: seq<real>, k: nat)
    requires SumReal(flexes) > 0.0 && Greediest(flexes, k)
    ensures flexes[k] > 0.0
  {
    if flexes[k] <= 0.0 {
      NoFlexNoSum(flexes);
    }
  }

  lemma {:induction false} NoFlexNoSum(flexes: seq<real>)
    requires forall i :: 0 <= i < |flexes| ==> flexes[i] <= 0.0
    ensures SumReal(flexes) <= 0.0
  {
    if flexes != [] {
      NoFlexNoSum(flexes[..|flexes| - 1]);
    }
  }

  lemma {:induction false} SumOfDifference(a: seq<int>, b: seq<int>, c: seq<int>)
    requires |a| == |b| == |c| && forall i :: 0 <= i < |a| ==> a[i] == b[i] - c[i]
    ensures Sum(a) == Sum(b) - Sum(c)
  {
    if a != [] {
      SumOfDifference(a[..|a| - 1], b[..|a| - 1], c[..|a| - 1]);
    }
  }

  /** The elastic children's own pixels: their sizes, and nothing for the others. */
  function ElasticSizes(sizes: seq<int>, flexes: seq<real>): (r: seq<int>)
    requires |sizes| == |flexes|
    ensures |r| == |sizes|
  {
    seq(|sizes|, i requires 0 <= i < |sizes| => if flexes[i] > 0.0 then sizes[i] else 0)
  }

  lemma {:induction false} ElasticIsSum(sizes: seq<int>, flexes: seq<real>)
    requires |sizes| == |flexes|
    ensures Elastic(sizes, flexes) == Sum(ElasticSizes(sizes, flexes))
  {
    if sizes != [] {
      var n := |sizes| - 1;
      ElasticIsSum(sizes[..n], flexes[..n]);
      assert ElasticSizes(sizes, flexes)[..n] == ElasticSizes(sizes[..n], flexes[..n]);
    }
  }

  lemma ShrunkAt(naturals: seq<int>, flexes: seq<real>, take: int, elastic: int, i: nat)
    requires Proper(naturals, flexes) && 0 <= take <= elastic && elastic > 0 && i < |naturals|
    ensures var part := Part(take, ElasticSizes(naturals, flexes)[i], elastic);
            Shrunk(naturals, flexes, take, elastic)[i] == naturals[i] - part && 0 <= part <= naturals[i]
  {
    PartIsNonNegative(take, ElasticSizes(naturals, flexes)[i], elastic);
  }

  lemma ShrunkBounds(naturals: seq<int>, flexes: seq<real>, take: int, elastic: int)
    requires Proper(naturals, flexes) && 0 <= take <= elastic && elastic == Elastic(naturals, flexes) > 0
    ensures var y := Shrunk(naturals, flexes, take, elastic);
            && NonNegative(y) && Sum(y) >= Sum(naturals) - take
            && forall i :: 0 <= i < |naturals| ==> y[i] <= naturals[i]
  {
    hide Part, Shrunk;
    var own := ElasticSizes(naturals, flexes);
    ElasticIsSum(naturals, flexes);
    PartsAddUp(own, take, elastic);
    var parts := Parts(own, take, elastic);
    assert take * elastic == elastic * take;
    Ordered(elastic, Sum(parts), take);
    Ordered(elastic, Sum(parts), take + 1);
    var y := Shrunk(naturals, flexes, take, elastic);
    forall i | 0 <= i < |y| ensures y[i] == naturals[i] - parts[i] && 0 <= parts[i] <= naturals[i] {
      ShrunkAt(naturals, flexes, take, elastic, i);
    }
    SumOfDifference(y, naturals, parts);
  }

  /** The elastic children give up no more than the deficit, and no child more than it has. */
  lemma YieldBounds(naturals: seq<int>, flexes: seq<real>, budget: int)
    requires Proper(naturals, flexes) && Sum(naturals) > budget
    ensures var y := Yielded(naturals, flexes, budget);
            && NonNegative(y) && Sum(y) >= budget
            && forall i :: 0 <= i < |naturals| ==> y[i] <= naturals[i]
  {
    hide Shrunk;
    var elastic := Elastic(naturals, flexes);
    var deficit := Sum(naturals) - budget;
    if elastic > 0 {
      ShrunkBounds(naturals, flexes, if deficit < elastic then deficit else elastic, elastic);
    }
  }

  /** Squeezing everyone by a proportional part of what is over. */
  lemma SqueezeBounds(sizes: seq<int>, budget: int)
    requires NonNegative(sizes) && Sum(sizes) > budget && Sum(sizes) > 0
    ensures var r := Squeezed(sizes, Sum(sizes) - budget, Sum(sizes));
            && NonNegative(r)
            && (forall i :: 0 <= i < |sizes| ==> r[i] <= sizes[i])
            && (budget >= 0 ==> budget <= Sum(r) <= budget + |sizes| - 1)
            && (budget <= 0 ==> Sum(r) == 0)
  {
    hide Part;
    var total, over := Sum(sizes), Sum(sizes) - budget;
    var parts := Parts(sizes, over, total);
    var r := Squeezed(sizes, over, total);
    forall i | 0 <= i < |sizes|
      ensures parts[i] >= 0
      ensures budget >= 0 ==> r[i] == sizes[i] - parts[i]
      ensures budget <= 0 ==> r[i] == 0
    {
      PartIsNonNegative(over, sizes[i], total);
    }
    SumOfNonNegative(r);
    if budget >= 0 {
      PartsAddUp(sizes, over, total);
      Ordered(total, Sum(parts), over);
      Ordered(total, Sum(parts), over + 1);
      Ordered(total, over, Sum(parts) + |sizes| - 1);
      Ordered(total, over, Sum(parts) + |sizes| - 1 + 1);
      SumOfDifference(r, sizes, parts);
    }
  }

  /** A deficit grows no child and leaves no size negative. For a budget of at least zero the
      sizes end at the budget or less than one pixel a child above it; for a budget of zero
      or less nothing is left. */
  lemma DeficitIsShared(naturals: seq<int>, flexes: seq<real>, budget: int)
    requires Proper(naturals, flexes) && Sum(naturals) > budget
    ensures var sizes := Distributed(naturals, flexes, budget);
            && NonNegative(sizes)
            && (forall i :: 0 <= i < |naturals| ==> sizes[i] <= naturals[i])
            && (budget >= 0 ==> budget <= Sum(sizes) && (naturals == [] || Sum(sizes) <= budget + |naturals| - 1))
            && (budget <= 0 ==> Sum(sizes) == 0)
  {
    hide Yielded, Squeezed, Grown, Share, Sum, SumReal, Greediest;
    var y := Yielded(naturals, flexes, budget);
    YieldBounds(naturals, flexes, budget);
    SumOfNonNegative(y);
    if Sum(y) > budget && Sum(y) > 0 {
      SqueezeBounds(y, budget);
    } else if Sum(y) > budget {
      SqueezeNothing(y, Sum(y) - budget);
    }
  }

  /** Does every child's proportional part of what is over come out in whole pixels? */
  predicate SqueezesEvenly(sizes: seq<int>, budget: int) {
    var total := Sum(sizes);
    total == budget || (total > 0 && forall i :: 0 <= i < |sizes| ==> (total - budget) * sizes[i] % total == 0)
  }

  /** What rounding each child's part down leaves. */
  function Rests(sizes: seq<int>, take: int, whole: int): (r: seq<int>)
    requires whole > 0
    ensures |r| == |sizes|
  {
    seq(|sizes|, i requires 0 <= i < |sizes| => take * sizes[i] % whole)
  }

  lemma {:induction false} RestsAddUp(sizes: seq<int>, take: int, whole: int)
    requires whole > 0 && NonNegative(sizes) && take >= 0
    ensures take * Sum(sizes) == whole * Sum(Parts(sizes, take, whole)) + Sum(Rests(sizes, take, whole))
    decreases |sizes|
  {
    hide Part;
    var parts, rests := Parts(sizes, take, whole), Rests(sizes, take, whole);
    if sizes == [] {
      assert Sum(parts) == 0 && Sum(sizes) == 0 && Sum(rests) == 0;
      Zero(whole);
      Zero(take);
    } else {
      var n := |sizes| - 1;
      RestsAddUp(sizes[..n], take, whole);
      assert parts[..n] == Parts(sizes[..n], take, whole) && rests[..n] == Rests(sizes[..n], take, whole);
      PartAndRest(take, sizes[n], whole);
      Distributes(take, Sum(sizes[..n]), sizes[n]);
      Distributes(whole, Sum(parts[..n]), parts[n]);
    }
  }

  lemma PartAndRest(take: int, size: int, whole: int)
    requires whole > 0 && take >= 0 && size >= 0
    ensures take * size == whole * Part(take, size, whole) + take * size % whole
  {
    assert take * size >= 0;
    DivMod(take * size, whole);
  }

  lemma EvenMeansNoRests(sizes: seq<int>, budget: int)
    requires NonNegative(sizes) && Sum(sizes) > budget >= 0
    ensures SqueezesEvenly(sizes, budget) <==> Sum(Rests(sizes, Sum(sizes) - budget, Sum(sizes))) == 0
  {
    hide Sum;
    var over, total := Sum(sizes) - budget, Sum(sizes);
    SumOfNonNegative(Rests(sizes, over, total));
    assert forall i :: 0 <= i < |sizes| ==> Rests(sizes, over, total)[i] == over * sizes[i] % total;
  }

  lemma SqueezedSum(sizes: seq<int>, budget: int)
    requires NonNegative(sizes) && Sum(sizes) > budget >= 0
    ensures var over, total := Sum(sizes) - budget, Sum(sizes);
            Sum(Squeezed(sizes, over, total)) == total - Sum(Parts(sizes, over, total))
  {
    hide Part, Sum;
    var over, total := Sum(sizes) - budget, Sum(sizes);
    var parts, r := Parts(sizes, over, total), Squeezed(sizes, over, total);
    forall i | 0 <= i < |sizes| ensures r[i] == sizes[i] - parts[i] {
      PartIsNonNegative(over, sizes[i], total);
    }
    SumOfDifference(r, sizes, parts);
  }

  lemma SqueezeIsExactIff(sizes: seq<int>, budget: int)
    requires NonNegative(sizes) && Sum(sizes) > budget >= 0
    ensures Sum(Squeezed(sizes, Sum(sizes) - budget, Sum(sizes))) == budget <==> SqueezesEvenly(sizes, budget)
  {
    hide Squeezed, SqueezesEvenly, Parts, Rests, Sum;
    var over, total := Sum(sizes) - budget, Sum(sizes);
    SqueezedSum(sizes, budget);
    RestsAddUp(sizes, over, total);
    EvenMeansNoRests(sizes, budget);
    NothingLeftOver(total, over, Sum(Parts(sizes, over, total)), Sum(Rests(sizes, over, total)));
  }

  lemma NothingLeftOver(total: int, over: int, parts: int, rests: int)
    requires total > 0 && over * total == total * parts + rests
    ensures parts == over <==> rests == 0
  {
    assert over * total == total * over;
    Distributes(total, over, parts);
    Ordered(total, over, parts);
    Ordered(total, parts, over);
  }

  /** On a budget of at least zero a deficit ends exactly at the budget if and only if the
      elastic children could give it all up to the pixel, or what they left over comes off
      every child in whole pixels. */
  lemma DeficitEndsAtBudgetIff(naturals: seq<int>, flexes: seq<real>, budget: int)
    requires Proper(naturals, flexes) && Sum(naturals) > budget >= 0
    ensures Sum(Distributed(naturals, flexes, budget)) == budget
            <==> SqueezesEvenly(Yielded(naturals, flexes, budget), budget)
  {
    hide Yielded, Squeezed, Grown, Share, Sum, SumReal, Greediest;
    var y := Yielded(naturals, flexes, budget);
    YieldBounds(naturals, flexes, budget);
    if Sum(y) > budget {
      SqueezeIsExactIff(y, budget);
    }
  }

  lemma SqueezeNothing(sizes: seq<int>, over: int)
    requires forall i :: 0 <= i < |sizes| ==> sizes[i] == 0
    ensures Squeezed(sizes, over, 1) == sizes
  {
    forall i | 0 <= i < |sizes| ensures Squeezed(sizes, over, 1)[i] == 0 {
      assert over * 0 == 0;
    }
  }

  /** Where the children fit and none wants to grow, nothing changes. */
  lemma FittingIsKept(naturals: seq<int>, flexes: seq<real>, budget: int)
    requires |naturals| == |flexes| && Sum(naturals) <= budget && (Sum(naturals) == budget || SumReal(flexes) <= 0.0)
    ensures Distributed(naturals, flexes, budget) == naturals
  {
  }

  /** The bound is met: two one-pixel children keep both their pixels on a budget of one. */
  lemma RoundingKeepsAPixel()
    ensures Distributed([1, 1], [0.0, 0.0], 1) == [1, 1] && Sum([1, 1]) == 2
  {
    var naturals, flexes := [1, 1], [0.0, 0.0];
    assert naturals[..1] == [1] && flexes[..1] == [0.0];
    assert Elastic(naturals, flexes) == 0 && Sum(naturals) == 2;
    assert Part(1, 1, 2) == 0;
    assert Squeezed(naturals, 1, 2) == [1, 1];
  }

  // --- the rule, in place -----------------------------------------------------

  /** The elastic children give up what they can of a deficit, one after the other. */
  method Yield(naturals: seq<int>, flexes: seq<real>, deficit: int) returns (sizes: seq<int>)
    requires |naturals| == |flexes|
    ensures sizes == Yielded(naturals, flexes, Sum(naturals) - deficit)
  {
    hide Sum;
    sizes := naturals;
    var n := |sizes|;
    var elastic := Elastic(sizes, flexes);
    if elastic > 0 {
      var take := if deficit < elastic then deficit else elastic;
      for i := 0 to n
        invariant |sizes| == n
        invariant forall k :: 0 <= k < n ==>
          sizes[k] == if k < i && flexes[k] > 0.0 then naturals[k] - Part(take, naturals[k], elastic) else naturals[k]
      {
        if flexes[i] > 0.0 {
          sizes := sizes[i := sizes[i] - Truncate(take * sizes[i], elastic)];
        }
      }
      assert sizes == Shrunk(naturals, flexes, take, elastic);
    }
  }

  /** What is still over comes off every child in proportion to its size. */
  method Squeeze(yielded: seq<int>, stillOver: int, total: int) returns (sizes: seq<int>)
    requires total != 0
    ensures sizes == Squeezed(yielded, stillOver, total)
  {
    sizes := yielded;
    var n := |sizes|;
    for i := 0 to n
      invariant |sizes| == n
      invariant forall k :: 0 <= k < n ==>
        sizes[k] == if k < i then Squeezed(yielded, stillOver, total)[k] else yielded[k]
    {
      var size := sizes[i] - Truncate(stillOver * sizes[i], total);
      sizes := sizes[i := if size > 0 then size else 0];
    }
  }

  lemma NoFlexNoShare(leftover: int, f: real, total: real)
    requires f <= 0.0 < total
    ensures Share(leftover, f, total) == 0
  {
  }

  /** Every child with flex takes its share of a surplus, and the greediest the rest. */
  method Grow(naturals: seq<int>, flexes: seq<real>, budget: int) returns (sizes: seq<int>)
    requires |naturals| == |flexes| && SumReal(flexes) > 0.0
    ensures var grown := Grown(naturals, flexes, budget - Sum(naturals), SumReal(flexes));
            var k := GreediestOf(flexes, |flexes|);
            sizes == grown[k := grown[k] + (budget - Sum(grown))]
  {
    hide Sum, SumReal, Greediest, Share;
    sizes := naturals;
    var n := |sizes|;
    var leftover, totalFlex := budget - Sum(sizes), SumReal(flexes);
    for i := 0 to n
      invariant |sizes| == n
      invariant forall k :: 0 <= k < n ==>
        sizes[k] == if k < i then naturals[k] + Share(leftover, flexes[k], totalFlex) else naturals[k]
    {
      if flexes[i] > 0.0 {
        sizes := sizes[i := sizes[i] + Share(leftover, flexes[i], totalFlex)];
      } else {
        NoFlexNoShare(leftover, flexes[i], totalFlex);
      }
    }
    assert sizes == Grown(naturals, flexes, leftover, totalFlex);
    SomeChild(flexes);
    var widest := GreediestOf(flexes, n);
    sizes := sizes[widest := sizes[widest] + (budget - Sum(sizes))];
  }

  /** `_distribute`: the list of sizes is updated child by child. */
  method Distribute(naturals: seq<int>, flexes: seq<real>, budget: int) returns (sizes: seq<int>)
    requires |naturals| == |flexes|
    ensures sizes == Distributed(naturals, flexes, budget)
  {
    hide Sum, SumReal, Grown, Yielded, Squeezed, Greediest;
    var leftover := budget - Sum(naturals);
    if leftover == 0 {
      return naturals;
    }
    if leftover > 0 {
      if SumReal(flexes) <= 0.0 {
        return naturals;
      }
      sizes := Grow(naturals, flexes, budget);
      return;
    }
    sizes := Yield(naturals, flexes, -leftover);
    var stillOver := Sum(sizes) - budget;
    if stillOver > 0 {
      sizes := Squeeze(sizes, stillOver, if Sum(sizes) == 0 then 1 else Sum(sizes));
    }
  }
}
