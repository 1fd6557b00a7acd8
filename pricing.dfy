/**
 A prescription pricing calculator: the cost of an order is the price per refill
 times the number of refills, less an optional 25% subscription discount, less an
 optional flat coupon of 10 taken off the discounted amount.

 Amounts are JavaScript numbers in the original; they are modelled as `real`,
 where the factor 0.75 and every expected value are exact.
 */
module Pricing {

  /** One order line with its two discount flags (the prescription's name plays no role). */
  datatype Order = Order(pricePerRefill: real, refills: int, subscription: bool, coupon: bool)

  /** The fraction of the total that a subscriber pays (25% off). */
  const SUBSCRIPTION_FACTOR: real := 0.75

  /** The flat amount a coupon takes off. */
  const COUPON_AMOUNT: real := 10.0

  /** Reference definition of an order total: the price counted once per refill. */
  function RepeatedSum(price: real, n: nat): real
  {
    if n == 0 then 0.0 else RepeatedSum(price, n - 1) + price
  }

  /**
   The cost of `refills` refills at `pricePerRefill` each. Neither argument is
   validated: negative values propagate through the multiplication.
   */
  function TotalCost(pricePerRefill: real, refills: int): (total: real)
    ensures refills == 1 ==> total == pricePerRefill
    ensures pricePerRefill == 0.0 || refills == 0 ==> total == 0.0
    ensures pricePerRefill >= 0.0 && refills >= 0 ==> total >= 0.0
  {
    pricePerRefill * refills as real
  }

  /** For every refill count, the total is the price paid once for each refill. */
  lemma {:induction false} TotalCostIsRepeatedSum(pricePerRefill: real, refills: nat)
    ensures TotalCost(pricePerRefill, refills) == RepeatedSum(pricePerRefill, refills)
  {
    if refills > 0 {
      TotalCostIsRepeatedSum(pricePerRefill, refills - 1);
      assert TotalCost(pricePerRefill, refills)
          == TotalCost(pricePerRefill, refills - 1) + pricePerRefill;
    }
  }

  /** One more refill costs exactly one more price per refill. */
  lemma TotalCostAddRefill(pricePerRefill: real, refills: int)
    ensures TotalCost(pricePerRefill, refills + 1) == TotalCost(pricePerRefill, refills) + pricePerRefill
  {
  }

  /** With a subscription the customer pays 75% of the total; otherwise the total is unchanged. */
  function ApplyDiscount(total: real, subscription: bool): (discounted: real)
    ensures subscription ==> total - discounted == total / 4.0
    ensures subscription ==> discounted * 4.0 == total * 3.0
    ensures !subscription ==> discounted == total
    ensures total >= 0.0 ==> 0.0 <= discounted <= total
    ensures discounted == total <==> !subscription || total == 0.0
  {
    if subscription then total * SUBSCRIPTION_FACTOR else total
  }

  /** The discount is meant to be applied once: a second application compounds it. */
  lemma DiscountIsNotIdempotent(total: real)
    ensures ApplyDiscount(ApplyDiscount(total, true), true) == total * 0.5625
    ensures ApplyDiscount(ApplyDiscount(total, true), true) == ApplyDiscount(total, true) <==> total == 0.0
  {
  }

  /** With a coupon, 10 is taken off the amount; otherwise the amount is unchanged. No floor at zero. */
  function ApplyCoupon(amount: real, coupon: bool): (reduced: real)
    ensures coupon ==> reduced + COUPON_AMOUNT == amount
    ensures !coupon ==> reduced == amount
    ensures reduced <= amount
    ensures reduced == amount <==> !coupon
    ensures coupon && amount < COUPON_AMOUNT ==> reduced < 0.0
  {
    if coupon then amount - COUPON_AMOUNT else amount
  }

  /** The coupon is meant to be applied once: a second application takes off another 10. */
  lemma CouponIsNotIdempotent(amount: real)
    ensures ApplyCoupon(ApplyCoupon(amount, true), true) == amount - 20.0
    ensures ApplyCoupon(ApplyCoupon(amount, true), true) != ApplyCoupon(amount, true)
  {
  }

  /**
   What the customer pays for an order: total, then the subscription discount, then
   the coupon. The saving is a quarter of the total with a subscription plus 10 with a coupon.
   */
  function FinalCost(o: Order): (cost: real)
    ensures !o.subscription && !o.coupon ==> cost == TotalCost(o.pricePerRefill, o.refills)
    ensures o.pricePerRefill >= 0.0 && o.refills >= 0 ==> cost <= TotalCost(o.pricePerRefill, o.refills)
    ensures TotalCost(o.pricePerRefill, o.refills) - cost
         == (if o.subscription then TotalCost(o.pricePerRefill, o.refills) / 4.0 else 0.0)
          + (if o.coupon then COUPON_AMOUNT else 0.0)
  {
    ApplyCoupon(ApplyDiscount(TotalCost(o.pricePerRefill, o.refills), o.subscription), o.coupon)
  }

  /** The final cost in closed form: the paid fraction of price times refills, less the coupon. */
  lemma {:induction false} FinalCostClosedForm(o: Order)
    requires o.refills >= 0
    ensures FinalCost(o) ==
      (if o.subscription then SUBSCRIPTION_FACTOR else 1.0) * RepeatedSum(o.pricePerRefill, o.refills)
      - (if o.coupon then COUPON_AMOUNT else 0.0)
  {
    TotalCostIsRepeatedSum(o.pricePerRefill, o.refills);
  }

  /**
   The order of the two discounts matters: taking the coupon off the discounted
   amount costs the customer 2.5 less than discounting the couponed amount would.
   */
  lemma CouponAfterDiscount(o: Order)
    requires o.subscription && o.coupon
    ensures FinalCost(o)
         == ApplyDiscount(ApplyCoupon(TotalCost(o.pricePerRefill, o.refills), true), true) - 2.5
  {
  }

  /**
   Optional validated variant of TotalCost, following the expectations that are
   disabled in the test suite: a negative price or refill count gives 0. It is not
   the behaviour the passing tests describe.
   */
  function TotalCostValidated(pricePerRefill: real, refills: int): (total: real)
    ensures pricePerRefill < 0.0 || refills < 0 ==> total == 0.0
    ensures pricePerRefill >= 0.0 && refills >= 0 ==> total == TotalCost(pricePerRefill, refills)
    ensures total >= 0.0
  {
    if pricePerRefill < 0.0 || refills < 0 then 0.0 else TotalCost(pricePerRefill, refills)
  }

  /** The two variants agree exactly when the unvalidated total is already 0 or no input is negative. */
  lemma ValidatedAgreesWithTotalCost(pricePerRefill: real, refills: int)
    ensures TotalCostValidated(pricePerRefill, refills) == TotalCost(pricePerRefill, refills)
        <==> (pricePerRefill >= 0.0 && refills >= 0) || TotalCost(pricePerRefill, refills) == 0.0
  {
  }
}
