/** Rounding as Python does it, and the few facts about products and quotients that
    proofs elsewhere call by name. */
module Arithmetic {

  function Max(a: int, b: int): int {
    if a > b then a else b
  }

  function Min(a: int, b: int): int {
    if a < b then a else b
  }

  /** `round(x)`: to the nearest integer, halves to the even one. */
  function Round(x: real): (r: int)
    ensures x >= 0.0 ==> r >= 0
  {
    var q := x.Floor;
    var rest := x - q as real;
    if rest < 0.5 || (rest == 0.5 && q % 2 == 0) then q else q + 1
  }

  lemma RoundIsNear(x: real)
    ensures x - 0.5 <= Round(x) as real <= x + 0.5
    ensures Round(x) as real - x == 0.5 || x - Round(x) as real == 0.5 ==> Round(x) % 2 == 0
  {
  }

  lemma RoundIsMonotone(x: real, y: real)
    requires x <= y
    ensures Round(x) <= Round(y)
  {
    assert x.Floor <= y.Floor;
  }

  /** `int(a / b)`: towards zero. */
  function Truncate(a: int, b: int): (r: int)
    requires b != 0
    ensures a >= 0 && b > 0 ==> r == a / b
  {
    var size, of := if a < 0 then -a else a, if b < 0 then -b else b;
    if (a < 0) == (b < 0) then size / of else -(size / of)
  }

  /** The quotient has the sign of a / b, or is zero, and what it leaves of `a` is less than `b`,
      with the sign of `a`. */
  lemma TruncateIsTowardsZero(a: int, b: int)
    requires b != 0
    ensures var rest := a - Truncate(a, b) * b;
            && (a >= 0 ==> 0 <= rest < if b < 0 then -b else b)
            && (a <= 0 ==> 0 >= rest > if b < 0 then b else -b)
  {
    hide Truncate;
    var q, rest := Divided(a, b);
    Signs(b, q);
  }

  /** Quotient and rest of the absolute values. */
  lemma Divided(a: int, b: int) returns (q: int, rest: int)
    requires b != 0
    ensures Truncate(a, b) == if (a < 0) == (b < 0) then q else -q
    ensures (if a < 0 then -a else a) == (if b < 0 then -b else b) * q + rest
    ensures 0 <= rest < if b < 0 then -b else b
  {
    var size, of := if a < 0 then -a else a, if b < 0 then -b else b;
    q, rest := size / of, size % of;
    DivMod(size, of);
  }

  lemma Signs(b: int, q: int)
    ensures -b * q == -(b * q) && q * b == b * q && -q * b == -(b * q)
  {
  }

  lemma DivMod(a: int, b: int)
    requires b > 0
    ensures a == b * (a / b) + a % b && 0 <= a % b < b
  {
  }

  lemma Distributes(a: int, b: int, c: int)
    ensures a * (b + c) == a * b + a * c
    ensures a * (b - c) == a * b - a * c
    ensures (b + c) * a == b * a + c * a
  {
  }

  lemma Ordered(t: int, a: int, b: int)
    requires t > 0
    ensures a <= b <==> t * a <= t * b
    ensures a < b <==> t * a < t * b
  {
  }

  lemma Zero(a: int)
    ensures a * 0 == 0 && a * 1 == a && a * -1 == -a
  {
  }

  lemma OrderedReal(t: real, a: real, b: real)
    requires t > 0.0
    ensures a <= b <==> a * t <= b * t
    ensures a < b <==> a * t < b * t
  {
  }

  lemma QuotientReal(a: real, b: real)
    requires b > 0.0
    ensures a / b * b == a
    ensures a >= 0.0 ==> a / b >= 0.0
  {
  }
}
