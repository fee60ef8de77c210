/** Who gives up how much when the children of a box do not fit: the elastic ones first. */
module Shortfall {
  import opened Arithmetic
  import opened PixelBudget

  function ElasticCount(flexes: seq<real>): nat {
    if flexes == [] then 0
    else ElasticCount(flexes[..|flexes| - 1]) + if flexes[|flexes| - 1] > 0.0 then 1 else 0
  }

  /** Is this a size scaled from `whole` pixels to `kept`, and rounded up? */
  predicate ScaledUp(size: int, natural: int, kept: int, whole: int) {
    natural * kept <= size * whole < natural * kept + whole
  }

  // --- where the elastic children have too few pixels -------------------------

  lemma ElasticSizesAre(naturals: seq<int>, flexes: seq<real>)
    requires Proper(naturals, flexes)
    ensures var own := ElasticSizes(naturals, flexes);
            && NonNegative(own) && Elastic(naturals, flexes) == Sum(own) >= 0
            && (Sum(own) == 0 ==> forall i :: 0 <= i < |own| ==> own[i] == 0)
  {
    ElasticIsSum(naturals, flexes);
    SumOfNonNegative(ElasticSizes(naturals, flexes));
  }

  lemma WholePart(size: int, whole: int)
    requires size >= 0 && whole > 0
    ensures Part(whole, size, whole) == size
  {
    PartIsNonNegative(whole, size, whole);
  }

  /** Then they give up all they have. */
  lemma AllGivenUp(naturals: seq<int>, flexes: seq<real>, budget: int)
    requires Proper(naturals, flexes) && Sum(naturals) - budget >= Elastic(naturals, flexes)
    ensures var y := Yielded(naturals, flexes, budget);
            && Sum(y) == Sum(naturals) - Elastic(naturals, flexes)
            && forall i :: 0 <= i < |naturals| ==> y[i] == if flexes[i] > 0.0 then 0 else naturals[i]
  {
    hide Part, Sum, Elastic;
    var y, own := Yielded(naturals, flexes, budget), ElasticSizes(naturals, flexes);
    var elastic := Elastic(naturals, flexes);
    ElasticSizesAre(naturals, flexes);
    forall i | 0 <= i < |naturals| ensures y[i] == naturals[i] - own[i] {
      if elastic > 0 {
        WholePart(naturals[i], elastic);
      } else {
        assert own[i] == 0;
      }
    }
    SumOfDifference(y, naturals, own);
  }

  lemma SqueezedInProportion(sizes: seq<int>, budget: int, i: nat)
    requires NonNegative(sizes) && Sum(sizes) > budget >= 0 && i < |sizes|
    ensures var over, total := Sum(sizes) - budget, Sum(sizes);
            ScaledUp(Squeezed(sizes, over, total)[i], sizes[i], budget, total)
  {
    hide Part, Sum;
    var over, total := Sum(sizes) - budget, Sum(sizes);
    var part := Part(over, sizes[i], total);
    PartBounds(over, sizes[i], total);
    PartIsNonNegative(over, sizes[i], total);
    Distributes(total, part, 1);
    Distributes(sizes[i], total, budget);
    Distributes(total, sizes[i], part);
  }

  // --- where they have enough -------------------------------------------------

  lemma {:induction false} RestsOfElastic(naturals: seq<int>, flexes: seq<real>, take: int, whole: int)
    requires Proper(naturals, flexes) && take >= 0 && whole > 0
    ensures Sum(Rests(ElasticSizes(naturals, flexes), take, whole)) <= ElasticCount(flexes) * (whole - 1)
  {
    hide Rests;
    var own := ElasticSizes(naturals, flexes);
    if naturals == [] {
      assert Rests(own, take, whole) == [];
    } else {
      var n := |naturals| - 1;
      RestsOfElastic(naturals[..n], flexes[..n], take, whole);
      assert own[..n] == ElasticSizes(naturals[..n], flexes[..n]);
      LastRest(own, take, whole);
      Distributes(whole - 1, ElasticCount(flexes[..n]), 1);
    }
  }

  lemma LastRest(own: seq<int>, take: int, whole: int)
    requires own != [] && whole > 0
    ensures var rests, n := Rests(own, take, whole), |own| - 1;
            rests[..n] == Rests(own[..n], take, whole) && 0 <= rests[n] < whole && (own[n] == 0 ==> rests[n] == 0)
  {
    var n := |own| - 1;
    DivMod(take * own[n], whole);
    Zero(take);
  }

  lemma {:induction false} SomeElastic(naturals: seq<int>, flexes: seq<real>)
    requires |naturals| == |flexes| && ElasticCount(flexes) == 0
    ensures Elastic(naturals, flexes) == 0
  {
    if naturals != [] {
      SomeElastic(naturals[..|naturals| - 1], flexes[..|naturals| - 1]);
    }
  }

  /** Rounding keeps less than a pixel of each of them. */
  lemma AlmostAllGivenUp(naturals: seq<int>, flexes: seq<real>, budget: int)
    requires Proper(naturals, flexes) && 0 < Sum(naturals) - budget < Elastic(naturals, flexes)
    ensures budget <= Sum(Yielded(naturals, flexes, budget)) < budget + ElasticCount(flexes)
  {
    hide Part, Sum, Elastic, Parts, Rests, Shrunk;
    var y, own := Yielded(naturals, flexes, budget), ElasticSizes(naturals, flexes);
    var take, elastic := Sum(naturals) - budget, Elastic(naturals, flexes);
    ElasticSizesAre(naturals, flexes);
    YieldBounds(naturals, flexes, budget);
    var parts := Parts(own, take, elastic);
    forall i | 0 <= i < |naturals| ensures y[i] == naturals[i] - parts[i] {
      ShrunkAt(naturals, flexes, take, elastic, i);
      PartsAt(own, take, elastic, i);
    }
    SumOfDifference(y, naturals, parts);
    RestsAddUp(own, take, elastic);
    RestsOfElastic(naturals, flexes, take, elastic);
    if ElasticCount(flexes) == 0 {
      SomeElastic(naturals, flexes);
    }
    FewLeft(elastic, take, Sum(parts), Sum(Rests(own, take, elastic)), ElasticCount(flexes));
  }

  lemma PartsAt(sizes: seq<int>, take: int, whole: int, i: nat)
    requires whole > 0 && i < |sizes|
    ensures Parts(sizes, take, whole)[i] == Part(take, sizes[i], whole)
  {
  }

  lemma FewLeft(elastic: int, take: int, parts: int, rests: int, count: nat)
    requires elastic > 0 && count > 0 && take * elastic == elastic * parts + rests && rests <= count * (elastic - 1)
    ensures take - parts < count
  {
    assert elastic * (take - parts) == rests;
    assert count * (elastic - 1) == elastic * count - count;
    Ordered(elastic, take - parts, count);
  }

  lemma GivenInProportion(naturals: seq<int>, flexes: seq<real>, budget: int, i: nat)
    requires Proper(naturals, flexes) && 0 < Sum(naturals) - budget < Elastic(naturals, flexes) && i < |naturals|
    ensures var y, elastic := Yielded(naturals, flexes, budget)[i], Elastic(naturals, flexes);
            if flexes[i] > 0.0 then ScaledUp(y, naturals[i], elastic - (Sum(naturals) - budget), elastic)
            else y == naturals[i]
  {
    hide Part, Sum, Elastic;
    var take, elastic := Sum(naturals) - budget, Elastic(naturals, flexes);
    PartBounds(take, naturals[i], elastic);
    Distributes(elastic, Part(take, naturals[i], elastic), 1);
    Distributes(elastic, naturals[i], Part(take, naturals[i], elastic));
    Distributes(naturals[i], elastic, take);
  }

  lemma SqueezedByNoMore(sizes: seq<int>, budget: int, i: nat)
    requires NonNegative(sizes) && Sum(sizes) > budget >= 0 && i < |sizes|
    ensures var over := Sum(sizes) - budget;
            sizes[i] - over <= Squeezed(sizes, over, Sum(sizes))[i] <= sizes[i]
  {
    hide Truncate, Sum;
    var over, total := Sum(sizes) - budget, Sum(sizes);
    SumOfNonNegative(sizes);
    assert sizes[i] * over == over * sizes[i];
    PartIsNonNegative(sizes[i], over, total);
  }

  // --- both -------------------------------------------------------------------

  /** A deficit comes off the elastic children first, and off the others only then. If it is at
      least all the elastic ones have, nothing is left of them, and each of the others is scaled
      down to what the budget is of them all, to the pixel above. If they have more, they are
      scaled down to what they keep, and the others stay as they are, but for the pixels that
      rounding kept: fewer than there are elastic children. */
  lemma ElasticGiveFirst(naturals: seq<int>, flexes: seq<real>, budget: int, i: nat)
    requires Proper(naturals, flexes) && Sum(naturals) > budget >= 0 && i < |naturals|
    ensures var size, elastic, short := Distributed(naturals, flexes, budget)[i], Elastic(naturals, flexes), Sum(naturals) - budget;
            var y := Yielded(naturals, flexes, budget)[i];
            if short >= elastic then
              if flexes[i] > 0.0 then size == 0
              else naturals[i] > 0 ==> ScaledUp(size, naturals[i], budget, Sum(naturals) - elastic)
            else
              && y - ElasticCount(flexes) < size <= y
              && if flexes[i] > 0.0 then ScaledUp(y, naturals[i], elastic - short, elastic) else y == naturals[i]
  {
    hide Yielded, Squeezed, Grown, Share, Sum, SumReal, Greediest, Elastic, ScaledUp;
    var y := Yielded(naturals, flexes, budget);
    YieldBounds(naturals, flexes, budget);
    if Sum(naturals) - budget >= Elastic(naturals, flexes) {
      AllGivenUp(naturals, flexes, budget);
      if Sum(y) > budget {
        SqueezedInProportion(y, budget, i);
        SqueezedByNoMore(y, budget, i);
        SqueezeBounds(y, budget);
      } else {
        SumOfNonNegative(y);
        KeptWhole(naturals[i], budget);
      }
    } else {
      AlmostAllGivenUp(naturals, flexes, budget);
      GivenInProportion(naturals, flexes, budget, i);
      if Sum(y) > budget {
        SqueezedByNoMore(y, budget, i);
      }
    }
  }

  lemma KeptWhole(natural: int, budget: int)
    ensures budget > 0 ==> ScaledUp(natural, natural, budget, budget)
  {
  }

  /** So a child without flex may have to give way though the elastic ones have pixels left. It
      keeps its size exactly if its part of what rounding kept of theirs is less than a pixel. */
  lemma InelasticIsKeptIff(naturals: seq<int>, flexes: seq<real>, budget: int, i: nat)
    requires Proper(naturals, flexes) && 0 < Sum(naturals) - budget < Elastic(naturals, flexes) && budget >= 0
    requires i < |naturals| && flexes[i] == 0.0
    ensures var kept := Sum(Yielded(naturals, flexes, budget)) - budget;
            Distributed(naturals, flexes, budget)[i] == naturals[i] <==> kept == 0 || kept * naturals[i] < budget + kept
  {
    hide Yielded, Squeezed, Grown, Share, Sum, SumReal, Greediest, Elastic, ScaledUp;
    var y := Yielded(naturals, flexes, budget);
    YieldBounds(naturals, flexes, budget);
    GivenInProportion(naturals, flexes, budget, i);
    if Sum(y) > budget {
      SqueezedAwayIff(y, budget, i);
    }
  }

  lemma SqueezedAwayIff(sizes: seq<int>, budget: int, i: nat)
    requires NonNegative(sizes) && Sum(sizes) > budget >= 0 && i < |sizes|
    ensures var over, total := Sum(sizes) - budget, Sum(sizes);
            Squeezed(sizes, over, total)[i] == sizes[i] <==> over * sizes[i] < total
  {
    hide Truncate, Sum;
    var over, total := Sum(sizes) - budget, Sum(sizes);
    var part := Part(over, sizes[i], total);
    PartIsNonNegative(over, sizes[i], total);
    PartBounds(over, sizes[i], total);
    Ordered(total, part, 0);
    Ordered(total, 1, part);
    Zero(total);
    Distributes(total, part, 1);
  }

  /** Five elastic children of a pixel each keep theirs, and the one without flex gives up three. */
  lemma InelasticGivesWay()
    ensures Distributed([100, 1, 1, 1, 1, 1], [0.0, 1.0, 1.0, 1.0, 1.0, 1.0], 101) == [97, 1, 1, 1, 1, 1]
  {
    var naturals, flexes := [100, 1, 1, 1, 1, 1], [0.0, 1.0, 1.0, 1.0, 1.0, 1.0];
    SumOfSix(100);
    ElasticOfSix();
    assert Part(4, 1, 5) == 0;
    assert Yielded(naturals, flexes, 101) == naturals;
    assert Part(4, 100, 105) == 3 && Part(4, 1, 105) == 0;
    assert Squeezed(naturals, 4, 105) == [97, 1, 1, 1, 1, 1];
  }

  lemma SumOfSix(first: int)
    ensures Sum([first, 1, 1, 1, 1, 1]) == first + 5
  {
    var s := [first, 1, 1, 1, 1, 1];
    assert s[..5] == [first, 1, 1, 1, 1] && [first, 1, 1, 1, 1][..4] == [first, 1, 1, 1];
    assert [first, 1, 1, 1][..3] == [first, 1, 1] && [first, 1, 1][..2] == [first, 1] && [first, 1][..1] == [first];
    assert Sum([first]) == first && Sum([first, 1]) == first + 1 && Sum([first, 1, 1]) == first + 2;
    assert Sum([first, 1, 1, 1]) == first + 3 && Sum([first, 1, 1, 1, 1]) == first + 4;
  }

  lemma ElasticOfSix()
    ensures Elastic([100, 1, 1, 1, 1, 1], [0.0, 1.0, 1.0, 1.0, 1.0, 1.0]) == 5
  {
    var naturals, flexes := [100, 1, 1, 1, 1, 1], [0.0, 1.0, 1.0, 1.0, 1.0, 1.0];
    ElasticIsSum(naturals, flexes);
    assert ElasticSizes(naturals, flexes) == [0, 1, 1, 1, 1, 1];
    SumOfSix(0);
  }
}
