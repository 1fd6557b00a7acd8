# Prescription pricing calculator

A model of a prescription order pricing calculator. An order has a price per
refill, a number of refills, a subscription flag and a coupon flag. Its cost is
computed in three steps, applied in sequence:

1. `getTotalCost(pricePerRefill, refills)`: the price times the number of refills (`Pricing.TotalCost`);
2. `applyDiscount(total, subscription)`: 75% of the total with a subscription, the total unchanged without (`Pricing.ApplyDiscount`);
3. `applyCoupon(amount, coupon)`: the post-subscription amount less 10 with a coupon, unchanged without (`Pricing.ApplyCoupon`).

`Pricing.FinalCost` composes the three on an `Order`. `Pricing.TotalCostValidated`
is an optional variant that follows the test suite's disabled expectations
(a negative price or refill count gives 0). It is not the canonical behaviour.

The implementation file `index.js` is not part of this model. The three functions
are modelled from the assertions and comments of the test suite
`__tests__/prescriptions.test.js`, which pin each of them down exactly.

Every function is pure, with no state, so everything is modelled as functions and lemmas:

- `pricing.dfy`, module `Pricing`: the `Order` datatype, the three functions and
  their composition, a reference definition of the total (`RepeatedSum`: the price
  counted once per refill), and the lemmas that connect them;
- `expectations.dfy`, module `Expectations`: the three sample orders and the
  test suite's concrete expectations, stated as lemmas.

Amounts are JavaScript numbers in the original. Here they are `real`; the factor
0.75 and every expected value (60, 37.5, 102.5) are exact there. Refill counts
are `int`. Inputs are not validated, as in the passing behaviour: negatives
propagate through the arithmetic, and a coupon may take an amount below zero.

## Model

| member | source | states |
|---|---|---|
| `Pricing.TotalCost` | __tests__/prescriptions.test.js:34-45 | one refill costs exactly the price per refill; zero price or zero refills costs 0; non-negative inputs give a non-negative total |
| `Pricing.TotalCostIsRepeatedSum` | __tests__/prescriptions.test.js:46-52 | for every non-negative refill count, the total is the price paid once for each refill (the independent reference definition), proved by induction |
| `Pricing.TotalCostAddRefill` | __tests__/prescriptions.test.js:37-39 | one more refill costs exactly one more price per refill |
| `Pricing.ApplyDiscount` | __tests__/prescriptions.test.js:80-91 | with a subscription the deduction is exactly a quarter of the total (the customer pays 75%); without one the total is unchanged; a non-negative total never rises or goes below 0; the result equals the total exactly when there is no subscription or the total is 0 |
| `Pricing.DiscountIsNotIdempotent` | __tests__/prescriptions.test.js:80-82 | applying the discount twice compounds it to 56.25% of the total, which differs from one application unless the total is 0 |
| `Pricing.ApplyCoupon` | __tests__/prescriptions.test.js:94-105 | with a coupon the result is the amount less 10; without one the amount is unchanged; the result never exceeds the amount and equals it exactly when there is no coupon; there is no floor at 0 |
| `Pricing.CouponIsNotIdempotent` | __tests__/prescriptions.test.js:94-96 | applying the coupon twice takes off 20, never the same as one application |
| `Pricing.FinalCost` | __tests__/prescriptions.test.js:94-96 | the customer's saving on the total is a quarter of it with a subscription plus 10 with a coupon; with neither flag the cost is the total; for non-negative inputs the cost never exceeds the total |
| `Pricing.FinalCostClosedForm` | __tests__/prescriptions.test.js:80-96 | the final cost is the paid fraction (0.75 or 1) of the price counted once per refill, less 10 when a coupon applies |
| `Pricing.CouponAfterDiscount` | __tests__/prescriptions.test.js:94-96 | with both flags, taking the coupon off the discounted amount costs 2.5 less than discounting the couponed amount, so the order of the steps matters |
| `Pricing.TotalCostValidated` | __tests__/prescriptions.test.js:63-75 | a negative price or refill count gives 0; non-negative inputs give the unvalidated total; the result is never negative |
| `Pricing.ValidatedAgreesWithTotalCost` | __tests__/prescriptions.test.js:62-75 | the validated and the unvalidated totals agree exactly when no input is negative or the unvalidated total is already 0 |
| `Expectations.TotalCostExamples` | __tests__/prescriptions.test.js:34-45 | the totals 25 (25, 1), 75 (25, 3), 0 (0, 3) and 0 (25, 0) |
| `Expectations.TotalCostRandomRange` | __tests__/prescriptions.test.js:46-52 | for every whole price below 100 and refill count below 10, the total is the integer product and the repeated sum |
| `Expectations.SampleTotals` | __tests__/prescriptions.test.js:53-58 | every sample order's total is its price counted once per refill: 75, 50 and 150 |
| `Expectations.SampleFinalCosts` | __tests__/prescriptions.test.js:5-27 | the sample orders finally cost 65 (coupon only), 37.5 (subscription only) and 102.5 (both) |
| `Expectations.ApplyDiscountExamples` | __tests__/prescriptions.test.js:84-92 | a subscription takes 80 to 60; without one 80 stays 80 |
| `Expectations.ApplyCouponExamples` | __tests__/prescriptions.test.js:98-106 | a coupon takes 60 to 50; without one 60 stays 60 |
| `Expectations.NegativeInputExamples` | __tests__/prescriptions.test.js:69-74 | the disabled expectations (-25, 3) and (25, -3) give 0 for the validated variant, while the unvalidated total gives -75 for both |

## Left out

- The test harness (`describe`, `it`, `expect`, `describe.skip`): it is test plumbing, not behaviour.
- The random inputs drawn with `Math.random` and `Math.floor`: they become lemmas over all inputs (`Pricing.TotalCostIsRepeatedSum`) and over the drawn range (`Expectations.TotalCostRandomRange`).
- IEEE-754 floating-point rounding: amounts are exact `real` numbers.
- The `prescription` name strings of the sample orders: they play no role in any computation.
- TotalCostValidated: does not model the rejection of string inputs such as `"25"` (lines 64-68); the types of the model rule such inputs out.
- Refill counts that are not whole numbers: a refill count is an `int`.
