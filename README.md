# Discount manager

A model of `DiscountManager.calculatePriceAfterDiscount` from the JFree
project, as its test suite `JFree/src/test/DiscountManagerTest.java` pins it
down. A `DiscountManager` is built with a discount-season flag and an
`IDiscountCalculator` provider. On each call it:

- returns the price unchanged out of season, without touching the provider;
- in season, asks the provider `isTheSpecialWeek()` once; in a special week it
  returns the price times 0.8 and asks nothing else;
- otherwise asks `getDiscountPercentage()` once and returns the price times
  percentage / 100. The percentage is the share of the price that is still
  paid: 85 on 200.0 gives 170.0.

The model has three modules:

- `Pricing` (`pricing.dfy`): the price decision as the pure function
  `PriceAfterDiscount(season, specialWeek, percentage, price)` over exact
  reals, and lemmas about it.
- `Discounts` (`discount_manager.dfy`): the provider as a stub class with
  fixed answers that logs every query it receives, in order. `DiscountManager`
  is a class with the season flag and the provider as constant fields. Its
  method `CalculatePriceAfterDiscount` is proved against `PriceAfterDiscount`,
  and it is proved to append exactly `QueriesFor(season, specialWeek)` to the
  provider's log. The jMock `never` and `oneOf` expectations become counts
  over that log.
- `DiscountScenarios` (`scenarios.dfy`): one method per test of the suite
  except `test100PercentDiscount`, whose 20000.0 expectation is discussed
  under Findings. Each builds a fresh stub and manager, makes one
  calculation, and states the price and the number of calls to each
  provider operation. Provider answers that a test leaves open (the
  percentage in a special-week test, both answers out of season) are
  parameters. The scenario must hold whatever
  they are. The tests make one call each; `RunRepeatedly` extends them to n
  calls on one manager, where the provider is asked again on every call.

The source of the `DiscountManager` class itself is not part of this model.
Its behaviour is taken from the test scenarios. Where they contradict each
other (see Findings), the model follows the majority and the kept-share
reading of the percentage.

## Model

| member | source | states |
|---|---|---|
| `Pricing.PriceAfterDiscount` | JFree/src/test/DiscountManagerTest.java:12-214 | the three-way decision: out of season the price is returned unchanged; in a special week the result is four fifths of the price (200.0 → 160.0); otherwise 100 × result = price × percentage, so the percentage is the share paid; a zero price gives zero |
| `Pricing.MultiplierPrice` | JFree/src/test/DiscountManagerTest.java:98-99 | the price × percentage reading that the comments at lines 98 and 163 report; it is exactly 100 times the kept-share price of `PriceAfterDiscount` |
| `Discounts.QueriesFor` | JFree/src/test/DiscountManagerTest.java:20-27 | the queries one calculation makes: the special-week question is among them if and only if the season is on, the percentage question if and only if the season is on and the week is not special, the special-week question always comes first, and there are at most two |
| `Pricing.SpecialWeekIsPercentageEighty` | JFree/src/test/DiscountManagerTest.java:40-56 | in a special week the price is the same as at percentage 80 (price × 0.8), whatever the percentage the provider holds |
| `Pricing.Linear` | JFree/src/test/DiscountManagerTest.java:104-124 | on every branch, scaling the original price by k scales the result by k; negative prices are accepted and -100.0 behaves as the negation of 100.0 |
| `Pricing.FullPercentageKeepsPrice` | JFree/src/test/DiscountManagerTest.java:167-182 | percentage 100 ("0% discount") returns every price unchanged |
| `Pricing.KeptAndRemovedSharesMakeThePrice` | JFree/src/test/DiscountManagerTest.java:183-214 | the percentage is the share paid: the prices at percentage d and at 100 - d add up to the original price (1 means a 99% discount, 90 a 10% discount) |
| `Pricing.WithinOriginal` | JFree/src/test/DiscountManagerTest.java:183-214 | with a percentage in 0..100, every branch keeps the price between 0 and the original price, on either side of zero: the result is a discount, never a surcharge |
| `Pricing.HigherPercentageHigherPrice` | JFree/src/test/DiscountManagerTest.java:184-214 | on a positive price, the price at percentage p1 is at most the price at p2 if and only if p1 <= p2 (on 100.0, percentage 1 gives 1.0 and 90 gives 90.0): the percentage is the share paid |
| `Pricing.PercentageRecoverable` | JFree/src/test/DiscountManagerTest.java:61-99 | on a non-zero price, two percentages give the same price if and only if they are equal |
| `Pricing.MultiplierReadingDisagrees` | JFree/src/test/DiscountManagerTest.java:86-99 | using the percentage as a plain multiplier gives the kept-share price if and only if the price or the percentage is zero |
| `Pricing.MultiplierReadingCounterexamples` | JFree/src/test/DiscountManagerTest.java:150-164 | on percentage 100 and price 200.0 the multiplier reading gives 20000.0 and the kept-share reading 200.0. On percentage 50 and price 100.0 they give 5000.0 and 50.0 |
| `Discounts.QueriesMatchExpectations` | JFree/src/test/DiscountManagerTest.java:20-27 | the provider is queried if and only if the season is on. The special-week question is asked once in season and never otherwise. The percentage question is asked once in season outside a special week and never otherwise |
| `Discounts.RepeatedCallsRequery` | JFree/src/test/DiscountManagerTest.java:70-78 | in the queries of n calculations (n copies of `QueriesFor`, in order) the special-week question occurs n times in season and never otherwise, and the percentage question n times in season outside a special week and never otherwise: the `oneOf` expectations hold per call |
| `Discounts.CalculateRepeatedly` | JFree/src/test/DiscountManagerTest.java:75-78 | calling `CalculatePriceAfterDiscount` n times on one manager gives n copies of the decided price and appends to the provider's log the queries of n calculations, so every call asks the provider again |
| `DiscountScenarios.RunRepeatedly` | JFree/src/test/DiscountManagerTest.java:67-81 | n calls on one manager over a fresh provider: every price is the decided one, `isTheSpecialWeek` is called n times in season and never otherwise, and `getDiscountPercentage` n times in season outside a special week and never otherwise |
| `Discounts.DiscountCalculatorStub.constructor` | JFree/src/test/DiscountManagerTest.java:67-73 | a provider with fixed special-week and percentage answers and an empty query log |
| `Discounts.DiscountCalculatorStub.IsTheSpecialWeek` | JFree/src/test/DiscountManagerTest.java:48-49 | returns the fixed special-week answer and logs one special-week query |
| `Discounts.DiscountCalculatorStub.GetDiscountPercentage` | JFree/src/test/DiscountManagerTest.java:70-72 | returns the fixed percentage and logs one percentage query |
| `Discounts.DiscountManager.constructor` | JFree/src/test/DiscountManagerTest.java:28 | stores the season flag and the provider and makes no provider query |
| `Discounts.DiscountManager.CalculatePriceAfterDiscount` | JFree/src/test/DiscountManagerTest.java:75-78 | returns `PriceAfterDiscount` of the season flag, the provider's answers and the price. It appends exactly the queries `QueriesFor` prescribes to the provider's log and changes nothing else |
| `DiscountScenarios.RunOnce` | JFree/src/test/DiscountManagerTest.java:67-81 | one call on a fresh provider returns the decided price. It calls `isTheSpecialWeek` once in season and never otherwise, and `getDiscountPercentage` once in season outside a special week and never otherwise |
| `DiscountScenarios.CalculatePriceWhenDiscountsSeasonIsFalse` | JFree/src/test/DiscountManagerTest.java:12-37 | out of season 100.0 gives 100.0 with no provider call, whatever the provider's answers |
| `DiscountScenarios.CalculatePriceWhenSpecialWeekIsTrue` | JFree/src/test/DiscountManagerTest.java:40-58 | in season in a special week 200.0 gives 160.0, with one special-week call and no percentage call, whatever the percentage |
| `DiscountScenarios.CalculatePriceWhenSpecialWeekIsFalse` | JFree/src/test/DiscountManagerTest.java:61-84 | in season outside a special week with percentage 85, 200.0 gives 170.0, with one call to each provider operation |
| `DiscountScenarios.PercentageConversion` | JFree/src/test/DiscountManagerTest.java:86-100 | percentage 50 on 100.0 gives 50.0, with one call to each provider operation |
| `DiscountScenarios.CalculatePriceWithNegativePrice` | JFree/src/test/DiscountManagerTest.java:104-125 | in a special week -100.0 gives -80.0, with one special-week call and no percentage call |
| `DiscountScenarios.ZeroPrice` | JFree/src/test/DiscountManagerTest.java:127-148 | percentage 50 on 0.0 gives exactly 0.0, with one call to each provider operation |
| `DiscountScenarios.ZeroDiscountPercentage` | JFree/src/test/DiscountManagerTest.java:168-182 | percentage 100 on 200.0 gives 200.0, with one call to each provider operation |
| `DiscountScenarios.NinetyNinePercentDiscount` | JFree/src/test/DiscountManagerTest.java:184-198 | percentage 1 on 100.0 gives 1.0, with one call to each provider operation |
| `DiscountScenarios.Week25NotSpecialWeek` | JFree/src/test/DiscountManagerTest.java:201-215 | percentage 90 on 100.0 gives 90.0, with one call to each provider operation |

## Left out

- The source of `DiscountManager` and `IDiscountCalculator` is not part of this model. The behaviour is taken from the test scenarios.
- jMock (`Mockery`, `Expectations`, `will(returnValue(...))`, `assertIsSatisfied`) and the JUnit assertions are test plumbing. They are replaced by a stub provider with fixed answers and a query log, and by the `ensures` clauses of the scenario methods.
- Java `double` arithmetic and the 0.001 tolerance of `assertEquals` are left out. Prices are exact reals, and every expected value is an exact rational.
- How a real provider decides the special week and the percentage is external and not modelled. The stub gives the same answers on every query, so answers that change between queries are not covered.
- Provider failures are not modelled. The manager does not catch them, so there is no error path of its own.
- The percentage branch follows the assertions at DiscountManagerTest.java:65, 99, 180, 196 and 213 (price × percentage / 100). The comments at DiscountManagerTest.java:98, 99 and 163 report that the implementation currently returns price × percentage instead; the model does not follow that behaviour, which appears only as `Pricing.MultiplierPrice` and the lemmas comparing it with `Pricing.PriceAfterDiscount`.
- The `test100PercentDiscount` expectation of 20000.0 (DiscountManagerTest.java:163) is not followed as behaviour. See Findings.

## Findings

| source | as written | input that shows it | evidently intended | confidence | as-written member | corrected member |
|---|---|---|---|---|---|---|
| JFree/src/test/DiscountManagerTest.java:163 | `test100PercentDiscount` expects 20000.0, which reads the percentage as a plain multiplier; the comments at lines 98-99 report that the implementation returns that reading today (5000.0 for 50 on 100.0, "This will FAIL") | percentage 100, price 200.0, not a special week: line 163 expects 20000.0 and line 180 expects 200.0 for the same inputs | price × percentage / 100, the share paid, as at lines 65, 99, 180, 196 and 213 | high that the two expectations contradict; not executed | `Pricing.MultiplierReadingCounterexamples` | `Pricing.FullPercentageKeepsPrice` |
