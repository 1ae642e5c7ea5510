/**
 * The slippage arithmetic of hooks/helpers.ts. The arbitrary-precision
 * decimals the source works with are exact reals here; a division by zero
 * gives the non-finite values the decimal library produces.
 */
module Helpers {

  /** A decimal result: a finite value, not-a-number, or an infinity of either sign. */
  datatype Num = Finite(value: real) | NaN | Infinity(negative: bool)

  /** The least amount received, `amount * (1 - maxSpread)`. */
  function MinAmountReceive(amount: real, maxSpread: real): (r: real)
    ensures maxSpread == 0.0 ==> r == amount
    ensures maxSpread == 1.0 ==> r == 0.0
    ensures 0.0 <= amount && 0.0 <= maxSpread <= 1.0 ==> 0.0 <= r <= amount
    ensures maxSpread != 1.0 ==> amount == r / (1.0 - maxSpread)
  {
    amount * (1.0 - maxSpread)
  }

  lemma ProductNonNegative(x: real, y: real)
    requires 0.0 <= x && 0.0 <= y
    ensures 0.0 <= x * y
  {
  }

  lemma NonNegativeFactor(x: real, y: real)
    requires 0.0 < y && 0.0 <= x * y
    ensures 0.0 <= x
  {
    if x < 0.0 {
      ProductNonNegative(-x, y);
    }
  }

  /** A larger spread tolerance never raises the minimum received. */
  lemma MinAmountMonotone(amount: real, s1: real, s2: real)
    requires 0.0 <= amount && s1 <= s2
    ensures MinAmountReceive(amount, s2) <= MinAmountReceive(amount, s1)
  {
    assert MinAmountReceive(amount, s1) - MinAmountReceive(amount, s2) == amount * (s2 - s1);
    ProductNonNegative(amount, s2 - s1);
  }

  /**
   * The price impact in percent, `maxSpread / (offerAmount + maxSpread) * 100`;
   * with a zero divisor it is not a number when the spread is zero too, and
   * an infinity with the spread's sign otherwise.
   */
  function PriceImpact(offerAmount: real, maxSpread: real): (r: Num)
    ensures r.Finite? <==> offerAmount + maxSpread != 0.0
    ensures r.Finite? ==> r.value * (offerAmount + maxSpread) == 100.0 * maxSpread
    ensures r == NaN <==> offerAmount == 0.0 && maxSpread == 0.0
  {
    var total := offerAmount + maxSpread;
    if total == 0.0 then
      if maxSpread == 0.0 then NaN else Infinity(maxSpread < 0.0)
    else Finite(maxSpread / total * 100.0)
  }

  /** For a positive offer and a non-negative spread the impact is a percentage below 100, zero exactly without spread. */
  lemma PriceImpactBounds(offerAmount: real, maxSpread: real)
    requires 0.0 < offerAmount && 0.0 <= maxSpread
    ensures PriceImpact(offerAmount, maxSpread).Finite?
    ensures 0.0 <= PriceImpact(offerAmount, maxSpread).value < 100.0
    ensures PriceImpact(offerAmount, maxSpread).value == 0.0 <==> maxSpread == 0.0
  {
    var total := offerAmount + maxSpread;
    var v := PriceImpact(offerAmount, maxSpread).value;
    assert v * total == 100.0 * maxSpread;
    assert 100.0 * total - v * total == 100.0 * offerAmount;
    assert (100.0 - v) * total == 100.0 * offerAmount;
  }

  /** For a positive offer, a larger spread gives a larger impact. */
  lemma PriceImpactMonotone(offerAmount: real, s1: real, s2: real)
    requires 0.0 < offerAmount && 0.0 <= s1 <= s2
    ensures PriceImpact(offerAmount, s1).value <= PriceImpact(offerAmount, s2).value
  {
    var t1, t2 := offerAmount + s1, offerAmount + s2;
    var v1, v2 := PriceImpact(offerAmount, s1).value, PriceImpact(offerAmount, s2).value;
    assert v1 * t1 == 100.0 * s1;
    assert v2 * t2 == 100.0 * s2;
    // (v2 - v1) * t1 * t2 == 100 * (s2 * t1 - s1 * t2) == 100 * offerAmount * (s2 - s1)
    assert s2 * t1 - s1 * t2 == offerAmount * (s2 - s1);
    assert (v2 - v1) * (t1 * t2) == 100.0 * offerAmount * (s2 - s1);
    ProductNonNegative(100.0 * offerAmount, s2 - s1);
    ProductNonNegative(t1, t2);
    assert t1 * t2 != 0.0;
    NonNegativeFactor(v2 - v1, t1 * t2);
  }

  /** The impact determines the spread: the spread is recovered from the offer and the impact. */
  lemma SpreadFromImpact(offerAmount: real, maxSpread: real)
    requires 0.0 < offerAmount && 0.0 <= maxSpread
    ensures var p := PriceImpact(offerAmount, maxSpread).value;
            p < 100.0 && maxSpread == p * offerAmount / (100.0 - p)
  {
    PriceImpactBounds(offerAmount, maxSpread);
    var p := PriceImpact(offerAmount, maxSpread).value;
    assert p * (offerAmount + maxSpread) == 100.0 * maxSpread;
    assert p * offerAmount == (100.0 - p) * maxSpread;
  }
}
