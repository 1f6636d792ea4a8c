/** The discount manager and the discount-information provider it consults.

    The provider is an external capability with two read operations,
    isTheSpecialWeek and getDiscountPercentage. Here it is a stub with fixed
    answers that records every query it receives, in order, so that "called
    exactly once" and "never called" become statements about its log. */
module Discounts {
  import opened Pricing

  /** A query the manager puts to its provider. */
  datatype Query = SpecialWeekQuery | PercentageQuery

  /** The queries one price calculation puts to the provider, in order: none
      out of season, then the special-week question, then the percentage
      question only when the week is not special. */
  function QueriesFor(isDiscountsSeason: bool, isSpecialWeek: bool): (r: seq<Query>)
    ensures SpecialWeekQuery in r <==> isDiscountsSeason
    ensures PercentageQuery in r <==> isDiscountsSeason && !isSpecialWeek
    ensures r != [] ==> r[0] == SpecialWeekQuery
    ensures |r| <= 2
  {
    if !isDiscountsSeason then []
    else if isSpecialWeek then [SpecialWeekQuery]
    else [SpecialWeekQuery, PercentageQuery]
  }

  /** How often query q occurs in a log. */
  function Count(log: seq<Query>, q: Query): nat
  {
    multiset(log)[q]
  }

  /** The provider is touched if and only if the season is on; the special-week
      question is asked exactly once in season and never otherwise; the
      percentage question is asked exactly once when the season is on and the
      week is not special, and never otherwise. */
  lemma QueriesMatchExpectations(isDiscountsSeason: bool, isSpecialWeek: bool)
    ensures QueriesFor(isDiscountsSeason, isSpecialWeek) == [] <==> !isDiscountsSeason
    ensures Count(QueriesFor(isDiscountsSeason, isSpecialWeek), SpecialWeekQuery)
         == if isDiscountsSeason then 1 else 0
    ensures Count(QueriesFor(isDiscountsSeason, isSpecialWeek), PercentageQuery)
         == if isDiscountsSeason && !isSpecialWeek then 1 else 0
  {
  }

  /** The queries n successive calculations on one manager put to its
      provider: the answers are not cached, so every call asks again. */
  function RepeatedQueries(isDiscountsSeason: bool, isSpecialWeek: bool, n: nat): seq<Query>
  {
    if n == 0 then []
    else RepeatedQueries(isDiscountsSeason, isSpecialWeek, n - 1) + QueriesFor(isDiscountsSeason, isSpecialWeek)
  }

  /** After n calculations the special-week question has been asked n times in
      season and never otherwise, and the percentage question n times in
      season outside a special week and never otherwise. */
  lemma {:induction false} RepeatedCallsRequery(isDiscountsSeason: bool, isSpecialWeek: bool, n: nat)
    ensures Count(RepeatedQueries(isDiscountsSeason, isSpecialWeek, n), SpecialWeekQuery)
         == if isDiscountsSeason then n else 0
    ensures Count(RepeatedQueries(isDiscountsSeason, isSpecialWeek, n), PercentageQuery)
         == if isDiscountsSeason && !isSpecialWeek then n else 0
  {
    if n > 0 {
      RepeatedCallsRequery(isDiscountsSeason, isSpecialWeek, n - 1);
      QueriesMatchExpectations(isDiscountsSeason, isSpecialWeek);
      var earlier := RepeatedQueries(isDiscountsSeason, isSpecialWeek, n - 1);
      assert multiset(earlier + QueriesFor(isDiscountsSeason, isSpecialWeek))
          == multiset(earlier) + multiset(QueriesFor(isDiscountsSeason, isSpecialWeek));
    }
  }

  /** n successive calculations of the same price on one manager: every call
      gives the decided price, and every call asks the provider again, so the
      log grows by the queries of one calculation per call. */
  method CalculateRepeatedly(m: DiscountManager, originalPrice: real, n: nat) returns (prices: seq<real>)
    modifies m.calculator`log
    ensures |prices| == n
    ensures forall k :: 0 <= k < n ==>
      prices[k] == PriceAfterDiscount(m.isDiscountsSeason, m.calculator.specialWeek, m.calculator.percentage,
                                      originalPrice)
    ensures m.calculator.log
         == old(m.calculator.log) + RepeatedQueries(m.isDiscountsSeason, m.calculator.specialWeek, n)
  {
    prices := [];
    var i := 0;
    while i < n
      invariant 0 <= i <= n
      invariant |prices| == i
      invariant forall k :: 0 <= k < i ==>
        prices[k] == PriceAfterDiscount(m.isDiscountsSeason, m.calculator.specialWeek, m.calculator.percentage,
                                        originalPrice)
      invariant m.calculator.log
             == old(m.calculator.log) + RepeatedQueries(m.isDiscountsSeason, m.calculator.specialWeek, i)
    {
      var price := m.CalculatePriceAfterDiscount(originalPrice);
      prices := prices + [price];
      i := i + 1;
    }
  }

  /** A provider with fixed answers that logs the queries it receives. */
  class DiscountCalculatorStub {
    const specialWeek: bool
    const percentage: int
    var log: seq<Query>

    constructor (specialWeek: bool, percentage: int)
      ensures this.specialWeek == specialWeek && this.percentage == percentage
      ensures log == []
    {
      this.specialWeek := specialWeek;
      this.percentage := percentage;
      log := [];
    }

    method IsTheSpecialWeek() returns (b: bool)
      modifies this`log
      ensures b == specialWeek
      ensures log == old(log) + [SpecialWeekQuery]
    {
      b := specialWeek;
      log := log + [SpecialWeekQuery];
    }

    method GetDiscountPercentage() returns (p: int)
      modifies this`log
      ensures p == percentage
      ensures log == old(log) + [PercentageQuery]
    {
      p := percentage;
      log := log + [PercentageQuery];
    }
  }

  /** Computes sale prices from a season flag fixed at construction and a
      provider it holds for its whole lifetime. */
  class DiscountManager {
    const isDiscountsSeason: bool
    const calculator: DiscountCalculatorStub

    /** Stores the flag and the provider; no provider query is made. */
    constructor (isDiscountsSeason: bool, calculator: DiscountCalculatorStub)
      ensures this.isDiscountsSeason == isDiscountsSeason && this.calculator == calculator
      ensures calculator.log == old(calculator.log)
    {
      this.isDiscountsSeason := isDiscountsSeason;
      this.calculator := calculator;
    }

    /** The price after discount, asking the provider only what the branch
        taken needs: the result is the pure decision applied to the
        provider's answers, and exactly the queries QueriesFor describes are
        appended to the provider's log. */
    method CalculatePriceAfterDiscount(originalPrice: real) returns (r: real)
      modifies calculator`log
      ensures r == PriceAfterDiscount(isDiscountsSeason, calculator.specialWeek, calculator.percentage,
                                      originalPrice)
      ensures calculator.log == old(calculator.log) + QueriesFor(isDiscountsSeason, calculator.specialWeek)
    {
      if !isDiscountsSeason {
        return originalPrice;
      }
      var isSpecialWeek := calculator.IsTheSpecialWeek();
      if isSpecialWeek {
        r := originalPrice * SpecialWeekFactor;
      } else {
        var percentage := calculator.GetDiscountPercentage();
        r := originalPrice * KeptFraction(percentage);
      }
    }
  }
}
