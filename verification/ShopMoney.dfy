/**
Money: rounding to hundredths, the discount of a voucher, and the share of a price in what was paid.
 */
module ShopMoney {
  import opened Basics
  import opened ShopState

  /** `roundMoney` of a quotient: halves go up. */
  function HalfUp(num: int, den: int): (r: int)
    requires den > 0
    ensures -den <= 2 * (num - r * den) < den
  {
    var r := (2 * num + den) / (2 * den);
    assert 2 * num + den == r * (2 * den) + (2 * num + den) % (2 * den);
    assert r * (2 * den) == 2 * (r * den);
    r
  }

  lemma CancelFactor(a: int, b: int, den: int)
    requires den > 0 && a * den <= b * den
    ensures a <= b
  {
  }

  lemma {:induction false} QuotientBetween(num: int, r: int, den: int, top: int)
    requires den > 0 && 0 <= num <= top * den
    requires -den <= 2 * (num - r * den) < den
    ensures 0 <= r <= top
  {
    var p, q := r * den, top * den;
    assert (2 * r) * den == 2 * p && (2 * top + 1) * den == 2 * q + den && (-1) * den == 0 - den;
    CancelFactor(2 * r, 2 * top + 1, den);
    CancelFactor(-1, 2 * r, den);
  }

  /** Rounding keeps order. */
  lemma {:induction false} HalfUpMonotone(a: int, b: int, den: int)
    requires den > 0 && a <= b
    ensures HalfUp(a, den) <= HalfUp(b, den)
  {
    var x, y := HalfUp(a, den), HalfUp(b, den);
    hide HalfUp;
    assert (2 * (x - y)) * den == 2 * (x * den) - 2 * (y * den);
    CancelBelow(x - y, den);
  }

  lemma CancelBelow(k: int, den: int)
    requires den > 0 && (2 * k) * den < 2 * den
    ensures k <= 0
  {
    hide *;
    if k >= 1 {
      assert false by { CancelFactor(1, k, den); }
    }
  }

  lemma {:induction false} HalfUpExact(q: int, den: int)
    requires den > 0
    ensures HalfUp(den * q, den) == q
  {
    var r := HalfUp(den * q, den);
    hide HalfUp;
    var k := q - r;
    assert (2 * k) * den == 2 * (den * q - r * den);
    CancelFactor(-1, 2 * k, den);
    CancelFactor(2 * k, 1, den);
  }

  // ----- vouchers

  /** One hundred per cent, in the unit of the values of percentage vouchers. */
  const WHOLE := 10000

  /** The discount before rounding, times `WHOLE`. */
  function RawDiscount(v: Voucher, amount: nat): int {
    var raw := if v.percent then amount * v.value else v.value * WHOLE;
    var capped := if v.cap.Some? then Min(raw, v.cap.value * WHOLE) else raw;
    Max(0, Min(amount * WHOLE, capped))
  }

  /** The discount of a voucher on an order amount, rounded to hundredths last. */
  function Discount(v: Voucher, amount: nat): (d: int)
    ensures 0 <= d <= amount
  {
    QuotientBetween(RawDiscount(v, amount), HalfUp(RawDiscount(v, amount), WHOLE), WHOLE, amount);
    HalfUp(RawDiscount(v, amount), WHOLE)
  }

  lemma {:induction false} HalfUpMin(a: int, b: int, den: int)
    requires den > 0
    ensures HalfUp(Min(a, b * den), den) == Min(HalfUp(a, den), b)
    ensures HalfUp(Max(0, a), den) == Max(0, HalfUp(a, den))
  {
    hide HalfUp;
    HalfUpExact(b, den);
    HalfUpExact(0, den);
    if a <= b * den { HalfUpMonotone(a, b * den, den); } else { HalfUpMonotone(b * den, a, den); }
    if a <= 0 { HalfUpMonotone(a, 0, den); } else { HalfUpMonotone(0, a, den); }
  }

  /**
  What a voucher is worth: a fixed voucher its value, a percentage one its rounded part of the amount;
  never more than the cap or the amount, and never less than nothing. Rounding last is rounding first.
   */
  lemma DiscountIs(v: Voucher, amount: nat)
    ensures var worth := if v.percent then HalfUp(amount * v.value, WHOLE) else v.value;
            Discount(v, amount) == Max(0, Min(amount, if v.cap.Some? then Min(worth, v.cap.value) else worth))
  {
    hide HalfUp;
    var raw := if v.percent then amount * v.value else v.value * WHOLE;
    HalfUpExact(v.value, WHOLE);
    var capped := if v.cap.Some? then Min(raw, v.cap.value * WHOLE) else raw;
    if v.cap.Some? { HalfUpMin(raw, v.cap.value, WHOLE); }
    HalfUpMin(capped, amount, WHOLE);
    HalfUpMin(Min(capped, amount * WHOLE), amount, WHOLE);
  }

  /** A voucher of `p` per cent takes `p` of every hundred. */
  lemma PercentIs(v: Voucher, p: nat, amount: nat)
    requires v.percent && v.cap.None? && v.value == 100 * p && p <= 100
    ensures Discount(v, 100 * amount) == p * amount
  {
    hide HalfUp, Discount;
    DiscountIs(v, 100 * amount);
    assert (100 * amount) * (100 * p) == WHOLE * (p * amount);
    HalfUpExact(p * amount, WHOLE);
    PartOf(p, amount);
  }

  lemma PartOf(p: nat, amount: nat)
    requires p <= 100
    ensures 0 <= p * amount <= 100 * amount
  {
  }

  /** Buying more never lowers the discount. */
  lemma DiscountMonotone(v: Voucher, a: nat, b: nat)
    requires a <= b
    ensures Discount(v, a) <= Discount(v, b)
  {
    hide HalfUp;
    if v.value >= 0 {
      assert a * v.value <= b * v.value;
    } else {
      assert a * v.value <= 0;
    }
    HalfUpMonotone(RawDiscount(v, a), RawDiscount(v, b), WHOLE);
  }

  // ----- returns

  /** `calculateReturnRefund`: the gross amount less its part of the discount. */
  function Share(gross: nat, subtotal: nat, discount: nat): (r: int)
    ensures 0 <= r <= gross
  {
    if subtotal == 0 then gross
    else
      var kept := subtotal - Min(discount, subtotal);
      ShareBound(gross, kept, subtotal);
      HalfUp(gross * kept, subtotal)
  }

  lemma {:induction false} ShareBound(gross: nat, kept: nat, subtotal: nat)
    requires kept <= subtotal && subtotal > 0
    ensures 0 <= HalfUp(gross * kept, subtotal) <= gross
  {
    hide HalfUp;
    assert 0 <= gross * kept <= gross * subtotal;
    QuotientBetween(gross * kept, HalfUp(gross * kept, subtotal), subtotal, gross);
  }
}
