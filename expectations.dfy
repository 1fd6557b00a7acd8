/**
 The sample orders and the concrete expectations of the test suite, stated as
 lemmas about the pricing functions.
 */
module Expectations {
  import opened Pricing

  /** The three sample orders: acetaminophen, diphenhydramine and phenylephrine. */
  const SAMPLE_DATA: seq<Order> := [
    Order(25.0, 3, false, true),
    Order(50.0, 1, true, false),
    Order(30.0, 5, true, true)
  ]

  /** A single refill costs the price per refill; zero price or zero refills cost nothing. */
  lemma TotalCostExamples()
    ensures TotalCost(25.0, 1) == 25.0
    ensures TotalCost(25.0, 3) == 75.0
    ensures TotalCost(0.0, 3) == 0.0
    ensures TotalCost(25.0, 0) == 0.0
  {
  }

  /** Every price below 100 and refill count below 10 (the range the random test draws from). */
  lemma {:induction false} TotalCostRandomRange(pricePerRefill: nat, refills: nat)
    requires pricePerRefill < 100 && refills < 10
    ensures TotalCost(pricePerRefill as real, refills) == RepeatedSum(pricePerRefill as real, refills)
    ensures TotalCost(pricePerRefill as real, refills) == (pricePerRefill * refills) as real
  {
    TotalCostIsRepeatedSum(pricePerRefill as real, refills);
  }

  /** Each sample order's total is its price counted once per refill: 75, 50 and 150. */
  lemma SampleTotals()
    ensures forall i :: 0 <= i < |SAMPLE_DATA| ==>
      SAMPLE_DATA[i].refills >= 0 &&
      TotalCost(SAMPLE_DATA[i].pricePerRefill, SAMPLE_DATA[i].refills)
        == RepeatedSum(SAMPLE_DATA[i].pricePerRefill, SAMPLE_DATA[i].refills)
    ensures TotalCost(SAMPLE_DATA[0].pricePerRefill, SAMPLE_DATA[0].refills) == 75.0
    ensures TotalCost(SAMPLE_DATA[1].pricePerRefill, SAMPLE_DATA[1].refills) == 50.0
    ensures TotalCost(SAMPLE_DATA[2].pricePerRefill, SAMPLE_DATA[2].refills) == 150.0
  {
    forall i | 0 <= i < |SAMPLE_DATA|
      ensures SAMPLE_DATA[i].refills >= 0 && TotalCost(SAMPLE_DATA[i].pricePerRefill, SAMPLE_DATA[i].refills)
           == RepeatedSum(SAMPLE_DATA[i].pricePerRefill, SAMPLE_DATA[i].refills)
    {
      TotalCostIsRepeatedSum(SAMPLE_DATA[i].pricePerRefill, SAMPLE_DATA[i].refills);
    }
  }

  /** What each sample order finally costs: 65, 37.5 and 102.5. */
  lemma SampleFinalCosts()
    ensures FinalCost(SAMPLE_DATA[0]) == 65.0
    ensures FinalCost(SAMPLE_DATA[1]) == 37.5
    ensures FinalCost(SAMPLE_DATA[2]) == 102.5
  {
  }

  /** A subscription takes 80 to 60; without one 80 stays 80. */
  lemma ApplyDiscountExamples()
    ensures ApplyDiscount(80.0, true) == 60.0
    ensures ApplyDiscount(80.0, false) == 80.0
  {
  }

  /** A coupon takes 60 to 50; without one 60 stays 60. */
  lemma ApplyCouponExamples()
    ensures ApplyCoupon(60.0, true) == 50.0
    ensures ApplyCoupon(60.0, false) == 60.0
  {
  }

  /**
   The disabled negative-input expectations hold of the validated variant and fail
   for the unvalidated total, which gives -75.
   */
  lemma NegativeInputExamples()
    ensures TotalCostValidated(-25.0, 3) == 0.0 && TotalCost(-25.0, 3) == -75.0
    ensures TotalCostValidated(25.0, -3) == 0.0 && TotalCost(25.0, -3) == -75.0
  {
  }
}
