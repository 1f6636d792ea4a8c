/** The price decision of the discount manager, as a pure function of the
    season flag, the provider's two answers and the original price, together
    with the properties the discount scenarios rely on.

    Prices are exact reals: the scenarios compare against exact rationals
    (160.0, 170.0, -80.0, ...), so no floating-point rounding is modelled. */
module Pricing {

  /** Fraction of the price kept in a special week: a fixed 20% reduction. */
  const SpecialWeekFactor: real := 0.8

  /** The provider's percentage is the share of the price the customer still
      pays, so percentage 85 keeps 85/100 of the price. */
  function KeptFraction(percentage: int): real
  {
    percentage as real / 100.0
  }

  /** The three-way decision of calculatePriceAfterDiscount: out of season the
      price is unchanged; in a special week it is reduced by 20%; otherwise it
      is scaled by the provider's percentage. */
  function PriceAfterDiscount(isDiscountsSeason: bool, isSpecialWeek: bool, percentage: int,
                              originalPrice: real): (r: real)
    ensures !isDiscountsSeason ==> r == originalPrice
    ensures isDiscountsSeason && isSpecialWeek ==> 5.0 * r == 4.0 * originalPrice
    ensures isDiscountsSeason && !isSpecialWeek ==> 100.0 * r == originalPrice * percentage as real
    ensures originalPrice == 0.0 ==> r == 0.0
  {
    if !isDiscountsSeason then originalPrice
    else if isSpecialWeek then originalPrice * SpecialWeekFactor
    else originalPrice * KeptFraction(percentage)
  }

  /** A special week behaves exactly like a percentage of 80, and the
      percentage the provider would give is irrelevant. */
  lemma SpecialWeekIsPercentageEighty(percentage: int, originalPrice: real)
    ensures PriceAfterDiscount(true, true, percentage, originalPrice)
         == PriceAfterDiscount(true, false, 80, originalPrice)
  {
  }

  /** The price is linear in the original price, whatever the branch. */
  lemma Linear(isDiscountsSeason: bool, isSpecialWeek: bool, percentage: int, k: real, originalPrice: real)
    ensures PriceAfterDiscount(isDiscountsSeason, isSpecialWeek, percentage, k * originalPrice)
         == k * PriceAfterDiscount(isDiscountsSeason, isSpecialWeek, percentage, originalPrice)
  {
  }

  /** With a percentage between 0 and 100 the price never grows in magnitude
      and keeps its sign. */
  lemma WithinOriginal(isDiscountsSeason: bool, isSpecialWeek: bool, percentage: int, originalPrice: real)
    requires 0 <= percentage <= 100
    ensures originalPrice >= 0.0 ==>
      0.0 <= PriceAfterDiscount(isDiscountsSeason, isSpecialWeek, percentage, originalPrice) <= originalPrice
    ensures originalPrice <= 0.0 ==>
      originalPrice <= PriceAfterDiscount(isDiscountsSeason, isSpecialWeek, percentage, originalPrice) <= 0.0
  {
    var r := PriceAfterDiscount(isDiscountsSeason, isSpecialWeek, percentage, originalPrice);
    if !isDiscountsSeason {
    } else if isSpecialWeek {
      ScaleByUnitFraction(originalPrice, SpecialWeekFactor, r);
    } else {
      assert 0.0 <= percentage as real <= 100.0;
      var f := KeptFraction(percentage);
      assert 0.0 <= f <= 1.0;
      ScaleByUnitFraction(originalPrice, f, r);
    }
  }

  /** Scaling by a fraction in [0, 1] moves a value towards zero. */
  lemma ScaleByUnitFraction(x: real, f: real, r: real)
    requires 0.0 <= f <= 1.0
    requires r == x * f
    ensures x >= 0.0 ==> 0.0 <= r <= x
    ensures x <= 0.0 ==> x <= r <= 0.0
  {
    var rest := 1.0 - f;
    assert x - r == x * rest;
    var m := if x >= 0.0 then x else -x;
    NonNegativeProduct(m, f);
    NonNegativeProduct(m, rest);
    assert m * f == if x >= 0.0 then r else -r;
    assert m * rest == if x >= 0.0 then x - r else r - x;
  }

  /** The product of two non-negative reals is non-negative. */
  lemma NonNegativeProduct(a: real, b: real)
    requires 0.0 <= a && 0.0 <= b
    ensures 0.0 <= a * b
  {
  }

  /** On a positive price a higher percentage never gives a lower price, and
      a lower price means a lower percentage: the percentage is the share
      paid, not the share taken off. */
  lemma HigherPercentageHigherPrice(originalPrice: real, p1: int, p2: int)
    requires originalPrice > 0.0
    ensures PriceAfterDiscount(true, false, p1, originalPrice) <= PriceAfterDiscount(true, false, p2, originalPrice)
        <==> p1 <= p2
  {
    var r1 := PriceAfterDiscount(true, false, p1, originalPrice);
    var r2 := PriceAfterDiscount(true, false, p2, originalPrice);
    assert 100.0 * (r2 - r1) == originalPrice * (p2 - p1) as real;
    if p1 <= p2 {
      NonNegativeProduct(originalPrice, (p2 - p1) as real);
    } else {
      PositiveProduct(originalPrice, (p1 - p2) as real);
      assert 100.0 * (r1 - r2) == originalPrice * (p1 - p2) as real;
    }
  }

  /** The product of two positive reals is positive. */
  lemma PositiveProduct(a: real, b: real)
    requires 0.0 < a && 0.0 < b
    ensures 0.0 < a * b
  {
  }

  /** On a non-zero price the percentage branch determines the percentage. */
  lemma PercentageRecoverable(originalPrice: real, p1: int, p2: int)
    requires originalPrice != 0.0
    ensures PriceAfterDiscount(true, false, p1, originalPrice) == PriceAfterDiscount(true, false, p2, originalPrice)
        <==> p1 == p2
  {
  }

  /** Percentage 100 keeps the price whole, whatever the price. */
  lemma FullPercentageKeepsPrice(originalPrice: real)
    ensures PriceAfterDiscount(true, false, 100, originalPrice) == originalPrice
  {
  }

  /** The share kept at percentage d and the share kept at 100 - d add up to
      the whole price: the percentage is what is paid, not what is taken off. */
  lemma KeptAndRemovedSharesMakeThePrice(originalPrice: real, percentage: int)
    ensures PriceAfterDiscount(true, false, percentage, originalPrice)
          + PriceAfterDiscount(true, false, 100 - percentage, originalPrice) == originalPrice
  {
  }

  /** The price obtained by using the percentage as a plain multiplier, without
      dividing by 100: the behaviour that comments in the scenarios report
      of the current implementation. */
  function MultiplierPrice(originalPrice: real, percentage: int): (r: real)
    ensures r == 100.0 * PriceAfterDiscount(true, false, percentage, originalPrice)
  {
    originalPrice * percentage as real
  }

  /** The multiplier reading agrees with the kept-share reading only when the
      price or the percentage is zero. */
  lemma MultiplierReadingDisagrees(originalPrice: real, percentage: int)
    ensures MultiplierPrice(originalPrice, percentage) == PriceAfterDiscount(true, false, percentage, originalPrice)
        <==> originalPrice == 0.0 || percentage == 0
  {
  }

  /** The concrete inputs on which the two readings clash: percentage 100 on
      200.0 gives 20000.0 as a multiplier but 200.0 as a kept share, and
      percentage 50 on 100.0 gives 5000.0 against 50.0. */
  lemma MultiplierReadingCounterexamples()
    ensures MultiplierPrice(200.0, 100) == 20000.0 && PriceAfterDiscount(true, false, 100, 200.0) == 200.0
    ensures MultiplierPrice(100.0, 50) == 5000.0 && PriceAfterDiscount(true, false, 50, 100.0) == 50.0
  {
  }
}
