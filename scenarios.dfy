/** The discount scenarios: each builds a fresh provider with fixed answers
    and a manager over it, makes one price calculation, and states the price
    and how often each provider operation was called. A provider answer that
    the scenario leaves open is a parameter, since the manager must not ask
    for it. */
module DiscountScenarios {
  import opened Pricing
  import opened Discounts

  /** One calculation on a fresh provider: the price is the decision applied
      to the provider's answers, the special-week question is asked once in
      season and never otherwise, and the percentage question is asked once
      in season outside a special week and never otherwise. */
  method RunOnce(isDiscountsSeason: bool, specialWeek: bool, percentage: int, originalPrice: real)
    returns (price: real, specialWeekCalls: nat, percentageCalls: nat)
    ensures price == PriceAfterDiscount(isDiscountsSeason, specialWeek, percentage, originalPrice)
    ensures specialWeekCalls == if isDiscountsSeason then 1 else 0
    ensures percentageCalls == if isDiscountsSeason && !specialWeek then 1 else 0
  {
    var calculator := new DiscountCalculatorStub(specialWeek, percentage);
    var manager := new DiscountManager(isDiscountsSeason, calculator);
    price := manager.CalculatePriceAfterDiscount(originalPrice);
    QueriesMatchExpectations(isDiscountsSeason, specialWeek);
    specialWeekCalls := Count(calculator.log, SpecialWeekQuery);
    percentageCalls := Count(calculator.log, PercentageQuery);
  }

  /** n calculations on one manager over a fresh provider: every price is the
      decision applied to the provider's answers, and the provider is asked
      again on every call, never from a cached answer. */
  method RunRepeatedly(isDiscountsSeason: bool, specialWeek: bool, percentage: int, originalPrice: real, n: nat)
    returns (prices: seq<real>, specialWeekCalls: nat, percentageCalls: nat)
    ensures |prices| == n
    ensures forall k :: 0 <= k < n ==>
      prices[k] == PriceAfterDiscount(isDiscountsSeason, specialWeek, percentage, originalPrice)
    ensures specialWeekCalls == if isDiscountsSeason then n else 0
    ensures percentageCalls == if isDiscountsSeason && !specialWeek then n else 0
  {
    var calculator := new DiscountCalculatorStub(specialWeek, percentage);
    var manager := new DiscountManager(isDiscountsSeason, calculator);
    prices := CalculateRepeatedly(manager, originalPrice, n);
    RepeatedCallsRequery(isDiscountsSeason, specialWeek, n);
    specialWeekCalls := Count(calculator.log, SpecialWeekQuery);
    percentageCalls := Count(calculator.log, PercentageQuery);
  }

  method CalculatePriceWhenDiscountsSeasonIsFalse(specialWeek: bool, percentage: int)
    returns (price: real, specialWeekCalls: nat, percentageCalls: nat)
    ensures price == 100.0 && specialWeekCalls == 0 && percentageCalls == 0
  {
    price, specialWeekCalls, percentageCalls := RunOnce(false, specialWeek, percentage, 100.0);
  }

  method CalculatePriceWhenSpecialWeekIsTrue(percentage: int)
    returns (price: real, specialWeekCalls: nat, percentageCalls: nat)
    ensures price == 160.0 && specialWeekCalls == 1 && percentageCalls == 0
  {
    price, specialWeekCalls, percentageCalls := RunOnce(true, true, percentage, 200.0);
  }

  method CalculatePriceWhenSpecialWeekIsFalse()
    returns (price: real, specialWeekCalls: nat, percentageCalls: nat)
    ensures price == 170.0 && specialWeekCalls == 1 && percentageCalls == 1
  {
    price, specialWeekCalls, percentageCalls := RunOnce(true, false, 85, 200.0);
  }

  method PercentageConversion()
    returns (price: real, specialWeekCalls: nat, percentageCalls: nat)
    ensures price == 50.0 && specialWeekCalls == 1 && percentageCalls == 1
  {
    price, specialWeekCalls, percentageCalls := RunOnce(true, false, 50, 100.0);
  }

  method CalculatePriceWithNegativePrice(percentage: int)
    returns (price: real, specialWeekCalls: nat, percentageCalls: nat)
    ensures price == -80.0 && specialWeekCalls == 1 && percentageCalls == 0
  {
    price, specialWeekCalls, percentageCalls := RunOnce(true, true, percentage, -100.0);
  }

  method ZeroPrice()
    returns (price: real, specialWeekCalls: nat, percentageCalls: nat)
    ensures price == 0.0 && specialWeekCalls == 1 && percentageCalls == 1
  {
    price, specialWeekCalls, percentageCalls := RunOnce(true, false, 50, 0.0);
  }

  method ZeroDiscountPercentage()
    returns (price: real, specialWeekCalls: nat, percentageCalls: nat)
    ensures price == 200.0 && specialWeekCalls == 1 && percentageCalls == 1
  {
    price, specialWeekCalls, percentageCalls := RunOnce(true, false, 100, 200.0);
  }

  method NinetyNinePercentDiscount()
    returns (price: real, specialWeekCalls: nat, percentageCalls: nat)
    ensures price == 1.0 && specialWeekCalls == 1 && percentageCalls == 1
  {
    price, specialWeekCalls, percentageCalls := RunOnce(true, false, 1, 100.0);
  }

  method Week25NotSpecialWeek()
    returns (price: real, specialWeekCalls: nat, percentageCalls: nat)
    ensures price == 90.0 && specialWeekCalls == 1 && percentageCalls == 1
  {
    price, specialWeekCalls, percentageCalls := RunOnce(true, false, 90, 100.0);
  }
}
