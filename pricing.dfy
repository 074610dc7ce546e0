/** The quick-quote calculator: a flat processing fee plus simple daily
    interest, rounded the way JavaScript's `Math.round` rounds. */
module Pricing {
  import opened Common

  /** Daily interest rate, in percent (1% per day). */
  const DailyRatePercent: int := 1
  /** Flat processing fee, in percent of the principal. */
  const FeeRatePercent: int := 5

  /** The amount slider: 500 to 50,000 in steps of 500. */
  predicate IsSliderAmount(a: int) {
    500 <= a <= 50000 && a % 500 == 0
  }

  /** The term slider: 7 to 60 days in steps of 1. */
  predicate IsSliderTerm(t: int) {
    7 <= t <= 60
  }

  // ---------------------------------------------------------------------
  // Reference definition: the calculator's formula over exact rationals.

  /** `Math.round(x)`: the integer nearest to x, halves rounded up. */
  function MathRound(x: real): (r: int)
    ensures r as real - 0.5 <= x < r as real + 0.5
  {
    (x + 0.5).Floor
  }

  /** `amount * INTEREST_RATE_DAY * term`, computed exactly. */
  function ExactInterest(a: int, t: int): real {
    a as real * 0.01 * t as real
  }

  /** `amount * PROCESSING_FEE_RATE`, computed exactly. */
  function ExactFees(a: int): real {
    a as real * 0.05
  }

  /** The offer the calculator's effect builds, with exact arithmetic in
      place of floating point. */
  function ExactOffer(a: int, t: int): LoanOffer {
    LoanOffer(
      a,
      t,
      1,
      MathRound(a as real + ExactInterest(a, t) + ExactFees(a)),
      MathRound(ExactFees(a)))
  }

  // ---------------------------------------------------------------------
  // Integer implementation.

  /** Round-half-up of n hundredths to a whole number: the integer r with
      r - 1/2 <= n / 100 < r + 1/2. */
  function RoundHundredths(n: int): (r: int)
    ensures 100 * r - 50 <= n < 100 * r + 50
  {
    (n + 50) / 100
  }

  /** The processing fee: 5% of the principal, rounded on its own to the
      nearest shilling, halves up. */
  function Fee(a: int): (r: int)
    ensures 100 * r - 50 <= FeeRatePercent * a < 100 * r + 50
    ensures a >= 0 ==> r >= 0
  {
    RoundHundredths(FeeRatePercent * a)
  }

  /** The total to repay: principal, interest and fee summed exactly and
      rounded once to the nearest shilling, halves up. */
  function Total(a: int, t: int): (r: int)
    ensures 100 * r - 50 <= 100 * a + FeeRatePercent * a + DailyRatePercent * a * t < 100 * r + 50
  {
    RoundHundredths(a * (100 + FeeRatePercent + DailyRatePercent * t))
  }

  /** The offer for principal `a` over `t` days: it echoes the inputs,
      quotes the 1% daily rate, and carries the rounded fee and total. */
  function Price(a: int, t: int): (r: LoanOffer)
    ensures r.amount == a && r.termDays == t && r.interestRate == 1
    ensures r.fees == Fee(a) && r.totalRepayment == Total(a, t)
  {
    LoanOffer(a, t, DailyRatePercent, Total(a, t), Fee(a))
  }

  /** The interest line of the summary box: total minus principal minus
      fee. For an offer priced from a non-negative principal and term it is
      never negative. */
  function DisplayedInterest(o: LoanOffer): (r: int)
    ensures o == Price(o.amount, o.termDays) && o.amount >= 0 && o.termDays >= 0 ==> r >= 0
  {
    o.totalRepayment - o.amount - o.fees
  }

  // ---------------------------------------------------------------------
  // Properties of rounding.

  /** The integer rounding agrees with `Math.round` of the exact quotient. */
  lemma RoundHundredthsIsMathRound(n: int)
    ensures RoundHundredths(n) == MathRound(n as real / 100.0)
  {
  }

  // ---------------------------------------------------------------------
  // Properties of the offer.

  /** The exact sum of principal, interest and fee is a * (105 + t)
      hundredths. */
  lemma ExactSumInHundredths(a: int, t: int)
    ensures a as real + ExactInterest(a, t) + ExactFees(a)
         == (a * (100 + FeeRatePercent + DailyRatePercent * t)) as real / 100.0
  {
  }

  /** The integer pricing is the calculator's exact formula: the fee is `Math.round`
      of 5% of the principal; the total is `Math.round` of the exact sum
      of principal, interest and fee; the offer echoes its inputs and
      quotes a 1% daily rate. */
  lemma PriceIsExactOffer(a: int, t: int)
    ensures Price(a, t) == ExactOffer(a, t)
    ensures Price(a, t).amount == a && Price(a, t).termDays == t
    ensures Price(a, t).interestRate == 1
  {
  }

  /** On every slider position all parts are whole shillings: the fee is a
      twentieth of the principal, the interest is a * t / 100 exactly, and
      the total is their sum, with no rounding anywhere. */
  lemma SliderPricesAreExact(a: int, t: int)
    requires IsSliderAmount(a) && IsSliderTerm(t)
    ensures a % 20 == 0 && (a * t) % 100 == 0
    ensures Fee(a) == a / 20
    ensures DisplayedInterest(Price(a, t)) == a * t / 100
    ensures Total(a, t) == a + a / 20 + a * t / 100
    ensures Fee(a) as real == ExactFees(a)
    ensures Total(a, t) as real == a as real + ExactInterest(a, t) + ExactFees(a)
  {
    var k := a / 500;
    var kt := k * t;
    var p := a * t;
    assert a == 500 * k;
    assert p == 100 * (5 * kt) by {
      assert p == (500 * k) * t;
    }
    SliderPricesInHundredths(a, p, k, kt);
    assert Total(a, t) == 525 * k + 5 * kt by {
      assert a * (100 + FeeRatePercent + DailyRatePercent * t) == 105 * a + p;
    }
    ExactSumInHundredths(a, t);
  }

  /** Helper for SliderPricesAreExact, with the products a * t and k * t
      named so that everything is linear. */
  lemma SliderPricesInHundredths(a: int, p: int, k: int, kt: int)
    requires a == 500 * k && p == 500 * kt
    ensures Fee(a) == 25 * k && a % 20 == 0 && a / 20 == 25 * k
    ensures p % 100 == 0 && p / 100 == 5 * kt
    ensures RoundHundredths(105 * a + p) == 525 * k + 5 * kt
  {
  }

  /** The displayed interest is never negative, so the total covers the
      principal plus the fee, which covers the principal. */
  lemma DisplayedInterestNonNegative(a: int, t: int)
    requires a >= 0 && t >= 0
    ensures DisplayedInterest(Price(a, t)) >= 0
    ensures Total(a, t) >= a + Fee(a) >= a
  {
  }

  /** The total is rounded once, as a whole: off the slider grid that
      differs from rounding the fee and the interest separately and adding
      them to the principal. */
  lemma RoundedOnceNotPerPart()
    ensures exists a: int, t: int ::
      Total(a, t) != a + Fee(a) + RoundHundredths(DailyRatePercent * a * t)
  {
    assert Total(10, 5) == 11;
    assert Fee(10) == 1 && RoundHundredths(DailyRatePercent * 10 * 5) == 1;
  }

  /** The total is non-decreasing in the principal. */
  lemma TotalMonotoneInAmount(a1: int, a2: int, t: int)
    requires a1 <= a2 && t >= 0
    ensures Total(a1, t) <= Total(a2, t)
  {
  }

  /** The total is non-decreasing in the term. */
  lemma TotalMonotoneInTerm(a: int, t1: int, t2: int)
    requires a >= 0 && t1 <= t2
    ensures Total(a, t1) <= Total(a, t2)
  {
  }

  // ---------------------------------------------------------------------
  // The calculator widget's state.

  /** The calculator's slider state and the offer its effect derives. */
  class Calculator {
    var amount: int
    var term: int
    var offer: Option<LoanOffer>

    /** Both sliders are at one of their positions. */
    ghost predicate OnSliders()
      reads this
    {
      IsSliderAmount(amount) && IsSliderTerm(term)
    }

    /** The state between events: sliders in range, and an offer, once
        derived, is the price of the current slider values. */
    ghost predicate Valid()
      reads this
    {
      OnSliders() && (offer.Some? ==> offer.value == Price(amount, term))
    }

    /** First render: 5,000 over 30 days, no offer yet. */
    constructor ()
      ensures Valid()
      ensures amount == 5000 && term == 30 && offer == None
    {
      amount, term, offer := 5000, 30, None;
    }

    /** The effect that runs after a render in which amount or term is new:
        the offer becomes the price of the current inputs and nothing else
        changes. Running it again with the same inputs yields the same offer. */
    method RecomputeOffer()
      requires OnSliders()
      modifies this
      ensures Valid()
      ensures amount == old(amount) && term == old(term)
      ensures offer == Some(Price(amount, term))
      ensures old(Valid()) && old(offer).Some? ==> offer == old(offer)
    {
      offer := Some(Price(amount, term));
    }

    /** The amount slider moved to `v`; the effect then re-prices. */
    method SetAmount(v: int)
      requires Valid() && IsSliderAmount(v)
      modifies this
      ensures Valid()
      ensures amount == v && term == old(term)
      ensures offer == Some(Price(v, term))
    {
      amount := v;
      RecomputeOffer();
    }

    /** The term slider moved to `v`; the effect then re-prices. */
    method SetTerm(v: int)
      requires Valid() && IsSliderTerm(v)
      modifies this
      ensures Valid()
      ensures term == v && amount == old(amount)
      ensures offer == Some(Price(amount, v))
    {
      term := v;
      RecomputeOffer();
    }

    /** The apply button: hands the current offer on unchanged, or hands
        nothing while no offer has been derived. */
    method Apply() returns (handedOff: Option<LoanOffer>)
      requires Valid()
      ensures handedOff == offer
      ensures handedOff.Some? ==> handedOff.value == Price(amount, term)
    {
      handedOff := offer;
    }
  }
}
