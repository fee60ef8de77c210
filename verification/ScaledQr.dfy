/** A code whose modules are a fractional number of pixels wide. */
module ScaledQr {
  import opened Arithmetic
  import opened Basics

  /** The smallest module, in pixels, that still scans. */
  const MIN_MODULE: nat := 2

  /** `round(a / b)`: to the nearest integer, halves to the even one. */
  function RoundedQuotient(a: nat, b: nat): nat
    requires b > 0
  {
    var q, rest := a / b, a % b;
    if 2 * rest < b || (2 * rest == b && q % 2 == 0) then q else q + 1
  }

  /** A code of n x n modules in a quiet zone, on a square of `width` pixels. */
  datatype Grid = Grid(modules: seq<seq<bool>>, quiet: nat, width: nat) {
    predicate Valid() {
      && modules != []
      && forall r :: 0 <= r < |modules| ==> |modules[r]| == |modules|
    }

    function Total(): nat { |modules| + 2 * quiet }

    /** The modules are wide enough to be drawn at all. */
    predicate Drawable() { width >= MIN_MODULE * Total() }

    /** The first pixel of module i. */
    function Edge(i: nat): nat
      requires Valid()
    {
      RoundedQuotient(i * width, Total())
    }

    /** Module (r, c) of the square, quiet zone included. */
    predicate Dark(r: nat, c: nat)
      requires Valid()
    {
      && quiet <= r < quiet + |modules| && quiet <= c < quiet + |modules|
      && modules[r - quiet][c - quiet]
    }
  }

  // --- rounding ---------------------------------------------------------------

  /** A rounded quotient is off by at most a half. */
  lemma QuotientIsNear(a: nat, b: nat)
    requires b > 0
    ensures 2 * a - b <= 2 * (b * RoundedQuotient(a, b)) <= 2 * a + b
  {
    DivMod(a, b);
    Distributes(b, a / b, 1);
    Settle(a, b, a % b, b * (a / b), b * (a / b + 1));
  }

  lemma Settle(a: nat, b: nat, rest: nat, low: int, high: int)
    requires a == low + rest && rest < b && high == low + b
    ensures 2 * rest <= b ==> 2 * a - b <= 2 * low <= 2 * a + b
    ensures 2 * rest >= b ==> 2 * a - b <= 2 * high <= 2 * a + b
  {
  }

  lemma QuotientExact(k: nat, b: nat)
    requires b > 0
    ensures RoundedQuotient(b * k, b) == k
  {
    DivMod(b * k, b);
    SameMultiple(b, (b * k) / b, k, (b * k) % b);
  }

  lemma SameMultiple(b: nat, q: int, k: int, rest: nat)
    requires b > 0 && b * k == b * q + rest && rest < b
    ensures q == k && rest == 0
  {
    Distributes(b, k, q);
    Zero(b);
    Ordered(b, 1, k - q);
    Ordered(b, k - q, -1);
  }

  // --- edges ------------------------------------------------------------------

  lemma EdgeIsNear(g: Grid, i: nat)
    requires g.Valid()
    ensures 2 * (i * g.width) - g.Total() <= 2 * (g.Total() * g.Edge(i)) <= 2 * (i * g.width) + g.Total()
  {
    QuotientIsNear(i * g.width, g.Total());
  }

  /** Every edge is the pixel nearest to its true place, and of two as near the even one. */
  lemma EdgeIsRounded(g: Grid, i: nat)
    requires g.Valid()
    ensures var off := 2 * (g.Total() * g.Edge(i)) - 2 * (i * g.width);
            && 0 - g.Total() <= off <= g.Total()
            && (off == g.Total() || off == 0 - g.Total() ==> g.Edge(i) % 2 == 0)
  {
    EdgeIsNear(g, i);
    var a, t := i * g.width, g.Total();
    DivMod(a, t);
    Distributes(t, a / t, 1);
  }

  /** The outer edges are the edges of the square. */
  lemma EdgesSpan(g: Grid)
    requires g.Valid()
    ensures g.Edge(0) == 0 && g.Edge(g.Total()) == g.width
  {
    hide RoundedQuotient;
    var t := g.Total();
    QuotientExact(0, t);
    Zero(t);
    QuotientExact(g.width, t);
    assert 0 * g.width == 0;
  }

  /** Every module is the whole number of pixels next below its true width, or next above. */
  lemma ModuleWidth(g: Grid, i: nat)
    requires g.Valid()
    ensures var t, d := g.Total(), g.Edge(i + 1) - g.Edge(i);
            d == g.width / t || (d == g.width / t + 1 && g.width % t != 0)
  {
    hide RoundedQuotient;
    var t, w := g.Total(), g.width;
    DivMod(w, t);
    if w % t == 0 {
      WholeModules(g, i, w / t);
    } else {
      Drift(g, i);
      Between(t, w / t, w % t, g.Edge(i + 1) - g.Edge(i));
    }
  }

  lemma Drift(g: Grid, i: nat)
    requires g.Valid()
    ensures var t := g.Total(); g.width - t <= t * (g.Edge(i + 1) - g.Edge(i)) <= g.width + t
  {
    hide RoundedQuotient;
    EdgeIsNear(g, i);
    EdgeIsNear(g, i + 1);
    Distributes(g.width, i, 1);
    Distributes(g.Total(), g.Edge(i + 1), g.Edge(i));
    Apart(g.Total(), g.width, i * g.width, (i + 1) * g.width, g.Total() * g.Edge(i), g.Total() * g.Edge(i + 1));
  }

  lemma Apart(t: int, w: int, a: int, b: int, e: int, f: int)
    requires 2 * a - t <= 2 * e <= 2 * a + t && 2 * b - t <= 2 * f <= 2 * b + t && b == a + w
    ensures w - t <= f - e <= w + t
  {
  }

  /** Where the modules are a whole number of pixels, every one is. */
  lemma WholeModules(g: Grid, i: nat, q: nat)
    requires g.Valid() && g.width == g.Total() * q
    ensures g.Edge(i) == i * q && g.Edge(i + 1) - g.Edge(i) == q
  {
    hide RoundedQuotient;
    var t := g.Total();
    Regroup(i, t, q);
    Regroup(i + 1, t, q);
    QuotientExact(i * q, t);
    QuotientExact((i + 1) * q, t);
    Distributes(q, i, 1);
  }

  lemma Regroup(i: nat, t: nat, q: nat)
    ensures i * (t * q) == t * (i * q)
  {
  }

  lemma Between(t: nat, q: nat, rest: nat, d: int)
    requires 0 < rest < t && t * q + rest - t <= t * d <= t * q + rest + t
    ensures d == q || d == q + 1
  {
    Distributes(t, q, 1);
    Distributes(t, q, 2);
    Ordered(t, q - 1, d);
    Ordered(t, d, q + 2);
  }

  lemma AtLeastTwo(g: Grid, i: nat)
    requires g.Valid() && g.Drawable()
    ensures g.Edge(i + 1) - g.Edge(i) >= MIN_MODULE
  {
    hide RoundedQuotient;
    ModuleWidth(g, i);
    var t := g.Total();
    DivMod(g.width, t);
    Distributes(t, g.width / t, 1);
    Ordered(t, MIN_MODULE, g.width / t + 1);
  }

  lemma {:induction false} EdgesGrow(g: Grid, i: nat, j: nat)
    requires g.Valid() && g.Drawable() && i <= j
    ensures g.Edge(i) + MIN_MODULE * (j - i) <= g.Edge(j)
    decreases j - i
  {
    hide RoundedQuotient;
    if i < j {
      EdgesGrow(g, i, j - 1);
      AtLeastTwo(g, j - 1);
    }
  }

  // --- the picture ------------------------------------------------------------

  /** The module that pixel column (or row) x belongs to, searching down from module i. */
  function ModuleUpTo(g: Grid, x: nat, i: nat): (m: nat)
    requires g.Valid() && x < g.Edge(i + 1)
    ensures m <= i && x < g.Edge(m + 1) && (m == 0 || g.Edge(m) <= x)
  {
    if i == 0 || g.Edge(i) <= x then i else ModuleUpTo(g, x, i - 1)
  }

  function ModuleAt(g: Grid, x: nat): (m: nat)
    requires g.Valid() && x < g.width
  {
    EdgesSpan(g);
    ModuleUpTo(g, x, g.Total() - 1)
  }

  /** Every pixel belongs to one module and no other: the modules tile the square. */
  lemma ModulesTile(g: Grid, x: nat, i: nat)
    requires g.Valid() && g.Drawable() && x < g.width && i < g.Total()
    ensures ModuleAt(g, x) < g.Total()
    ensures g.Edge(i) <= x < g.Edge(i + 1) <==> i == ModuleAt(g, x)
  {
    hide RoundedQuotient;
    EdgesSpan(g);
    var m := ModuleAt(g, x);
    if i < m {
      EdgesGrow(g, i + 1, m);
    } else if m < i {
      EdgesGrow(g, m + 1, i);
    }
  }

  function Pixel(g: Grid, y: nat, x: nat): byte
    requires g.Valid() && y < g.width && x < g.width
  {
    if g.Dark(ModuleAt(g, y), ModuleAt(g, x)) then 0 else 255
  }

  /** Modules before (r, c) in drawing order. */
  predicate Before(g: Grid, my: nat, mx: nat, r: nat, c: nat) {
    my < g.quiet + r || (my == g.quiet + r && mx < g.quiet + c)
  }

  ghost predicate DrawnBefore(g: Grid, img: array2<byte>, r: nat, c: nat)
    requires g.Valid() && img.Length0 == img.Length1 == g.width
    reads img
  {
    forall y, x :: 0 <= y < g.width && 0 <= x < g.width ==>
      img[y, x] == if Before(g, ModuleAt(g, y), ModuleAt(g, x), r, c) then Pixel(g, y, x) else 255
  }

  /** `d.rectangle([x0, y0, x1 - 1, y1 - 1], fill=0)`, whose corners both belong to it. */
  method Rectangle(img: array2<byte>, x0: nat, y0: nat, x1: nat, y1: nat)
    requires x0 <= x1 <= img.Length1 && y0 <= y1 <= img.Length0
    modifies img
    ensures forall y, x :: 0 <= y < img.Length0 && 0 <= x < img.Length1 ==>
      img[y, x] == if y0 <= y < y1 && x0 <= x < x1 then 0 else old(img[y, x])
  {
    forall y, x | y0 <= y < y1 && x0 <= x < x1 {
      img[y, x] := 0;
    }
  }

  /** One module of the code. */
  method DrawModule(g: Grid, img: array2<byte>, r: nat, c: nat)
    requires g.Valid() && g.Drawable() && img.Length0 == img.Length1 == g.width
    requires r < |g.modules| && c < |g.modules| && DrawnBefore(g, img, r, c)
    modifies img
    ensures DrawnBefore(g, img, r, c + 1)
  {
    hide RoundedQuotient, ModuleAt;
    var q := g.quiet;
    if g.modules[r][c] {
      EdgesSpan(g);
      EdgesGrow(g, q + r, q + r + 1);
      EdgesGrow(g, q + c, q + c + 1);
      EdgesGrow(g, q + r + 1, g.Total());
      EdgesGrow(g, q + c + 1, g.Total());
      Rectangle(img, g.Edge(q + c), g.Edge(q + r), g.Edge(q + c + 1), g.Edge(q + r + 1));
    }
    forall y, x | 0 <= y < g.width && 0 <= x < g.width
      ensures img[y, x] == if Before(g, ModuleAt(g, y), ModuleAt(g, x), r, c + 1) then Pixel(g, y, x) else 255
    {
      ModulesTile(g, y, q + r);
      ModulesTile(g, x, q + c);
    }
  }

  /** `scaled_qr`: nothing where the modules would be less than two pixels wide. */
  method DrawCode(g: Grid) returns (drawn: bool, img: array2<byte>)
    requires g.Valid()
    ensures drawn <==> g.Drawable()
    ensures drawn ==> img.Length0 == img.Length1 == g.width
                      && forall y, x :: 0 <= y < g.width && 0 <= x < g.width ==> img[y, x] == Pixel(g, y, x)
    ensures fresh(img)
  {
    hide RoundedQuotient, ModuleAt;
    drawn := g.Drawable();
    if !drawn {
      img := new byte[0, 0];
      return;
    }
    img := new byte[g.width, g.width]((_, _) => 255);
    var n := |g.modules|;
    assert DrawnBefore(g, img, 0, 0);
    for r := 0 to n
      invariant DrawnBefore(g, img, r, 0)
    {
      for c := 0 to n
        invariant DrawnBefore(g, img, r, c)
      {
        DrawModule(g, img, r, c);
      }
      NextRow(g, img, r);
    }
  }

  /** Beyond the last module of a row there is nothing to draw until the next. */
  lemma NextRow(g: Grid, img: array2<byte>, r: nat)
    requires g.Valid() && img.Length0 == img.Length1 == g.width && r < |g.modules|
    requires DrawnBefore(g, img, r, |g.modules|)
    ensures DrawnBefore(g, img, r + 1, 0)
  {
    hide ModuleAt;
  }

  // --- reading it back --------------------------------------------------------

  /** The pixel at the centre of module i, where a decoder looks. */
  function Centre(g: Grid, i: nat): nat
    requires g.Valid()
  {
    Floor((2 * i + 1) * g.width, 2 * g.Total())
  }

  function Floor(a: nat, b: nat): nat
    requires b > 0
  {
    a / b
  }

  lemma CentreIsNear(g: Grid, i: nat)
    requires g.Valid()
    ensures var t, c := g.Total(), Centre(g, i); 2 * (t * c) <= 2 * (i * g.width) + g.width < 2 * (t * c) + 2 * t
  {
    var t, w := g.Total(), g.width;
    DivMod((2 * i + 1) * w, 2 * t);
    Distributes(w, 2 * i, 1);
    assert 2 * i * w == 2 * (i * w);
    assert 2 * t * Centre(g, i) == 2 * (t * Centre(g, i));
  }

  /** However a module's edges are rounded, its true centre falls on a pixel of its own. */
  lemma CentresAreInside(g: Grid, i: nat)
    requires g.Valid() && g.Drawable() && i < g.Total()
    ensures g.Edge(i) <= Centre(g, i) < g.Edge(i + 1)
  {
    hide RoundedQuotient, Centre;
    var t, w, c := g.Total(), g.width, Centre(g, i);
    EdgeIsNear(g, i);
    EdgeIsNear(g, i + 1);
    CentreIsNear(g, i);
    Distributes(w, i, 1);
    Distributes(t, c, 1);
    Ordered(t, g.Edge(i), c + 1);
    Ordered(t, c, g.Edge(i + 1));
  }

  /** Sampled at the centres of its modules, the picture gives the code back, module for
      module, in a quiet zone that stayed white. */
  lemma SamplingGivesTheCode(g: Grid, r: nat, c: nat)
    requires g.Valid() && g.Drawable() && r < g.Total() && c < g.Total()
    ensures Centre(g, r) < g.width && Centre(g, c) < g.width
    ensures var inside := g.quiet <= r < g.quiet + |g.modules| && g.quiet <= c < g.quiet + |g.modules|;
            Pixel(g, Centre(g, r), Centre(g, c)) == if inside && g.modules[r - g.quiet][c - g.quiet] then 0 else 255
  {
    hide RoundedQuotient, Centre, ModuleAt;
    EdgesSpan(g);
    CentresAreInside(g, r);
    CentresAreInside(g, c);
    EdgesGrow(g, r + 1, g.Total());
    EdgesGrow(g, c + 1, g.Total());
    ModulesTile(g, Centre(g, r), r);
    ModulesTile(g, Centre(g, c), c);
  }

  /** The quiet zone is white on every side. */
  lemma QuietZoneIsWhite(g: Grid, y: nat, x: nat)
    requires g.Valid() && g.Drawable() && y < g.width && x < g.width
    requires var q, n := g.quiet, |g.modules|;
             x < g.Edge(q) || y < g.Edge(q) || g.Edge(q + n) <= x || g.Edge(q + n) <= y
    ensures Pixel(g, y, x) == 255
  {
    hide RoundedQuotient, ModuleAt;
    OutsideTheCode(g, x);
    OutsideTheCode(g, y);
  }

  lemma OutsideTheCode(g: Grid, x: nat)
    requires g.Valid() && g.Drawable() && x < g.width
    ensures x < g.Edge(g.quiet) ==> ModuleAt(g, x) < g.quiet
    ensures g.Edge(g.quiet + |g.modules|) <= x ==> ModuleAt(g, x) >= g.quiet + |g.modules|
  {
    hide RoundedQuotient, ModuleAt;
    var m := ModuleAt(g, x);
    ModulesTile(g, x, 0);
    ModulesTile(g, x, m);
    if g.quiet <= m {
      EdgesGrow(g, g.quiet, m);
    }
    if m + 1 <= g.quiet + |g.modules| {
      EdgesGrow(g, m + 1, g.quiet + |g.modules|);
    }
  }
}
