/** Python's `round` to an integer: to the nearest, ties to even. Divisions are exact. */
module Rounding {

  /** `round(num / den)` */
  function RoundDiv(num: int, den: int): (r: int)
    requires den > 0
    ensures 2 * (r * den - num) <= den
    ensures 2 * (num - r * den) <= den
  {
    var q, m := num / den, num % den;
    assert num == q * den + m;
    assert (q + 1) * den == q * den + den;
    if 2 * m < den then q
    else if 2 * m > den then q + 1
    else if q % 2 == 0 then q else q + 1
  }

  /** Rounding keeps order, ties included. */
  lemma {:induction false} RoundDivMonotone(a: int, b: int, den: int)
    requires den > 0 && a <= b
    ensures RoundDiv(a, den) <= RoundDiv(b, den)
  {
    if a < b {
      CloserThanOne(RoundDiv(a, den), RoundDiv(b, den), a, b, den);
    }
  }

  lemma {:induction false} CloserThanOne(x: int, y: int, a: int, b: int, den: int)
    requires den > 0 && a < b
    requires 2 * (x * den - a) <= den && 2 * (b - y * den) <= den
    ensures x <= y
  {
    assert (x - y) * den == x * den - y * den < den;
    SmallMultiple(x - y, den);
  }

  lemma SmallMultiple(k: int, den: int)
    requires den > 0 && k * den < den
    ensures k <= 0
  {
  }

  lemma MulMonotone(x: int, y: int, z: int)
    requires x <= y && z >= 0
    ensures x * z <= y * z
  {
  }

  /** `round(x)` for a real number. */
  function RoundReal(x: real): (r: int)
    ensures -0.5 <= r as real - x <= 0.5
  {
    var f := x.Floor;
    var d := x - f as real;
    if d < 0.5 then f
    else if d > 0.5 then f + 1
    else if f % 2 == 0 then f else f + 1
  }

  function Sum(s: seq<int>): int {
    if s == [] then 0 else Sum(s[..|s| - 1]) + s[|s| - 1]
  }

  lemma SumSnoc(s: seq<int>, x: int)
    ensures Sum(s + [x]) == Sum(s) + x
  {
    assert (s + [x])[..|s|] == s;
  }
}
