/**
 * The conversion between what a doctor earns and what a patient pays, shared by
 * the two pricing screens: a flat platform fee (`PricingCalculator`, ₹200) and a
 * percentage fee per consultation channel (`ConsultationPricing`, 20% home, 10% video).
 *
 * Amounts are whole rupees. `Math.round` on a non-negative amount is `floor(x + 1/2)`
 * (halves round up), computed exactly on integers.
 */
module PricingEngine {

  /** A platform fee: a fixed amount, or a rate in percent of the amount it is applied to. */
  datatype FeeModel = Flat(amount: nat) | Percent(rate: nat)

  /** A percentage fee leaves the doctor something: the rate is below 100%. */
  predicate ValidModel(m: FeeModel) {
    m.Percent? ==> m.rate < 100
  }

  /** `Math.round(n / 100)` for `n >= 0`: the integer nearest to n/100, halves rounded up. */
  function RoundCents(n: nat): (r: nat)
    ensures 100 * r <= n + 50 < 100 * r + 100
  {
    (n + 50) / 100
  }

  /** What the patient is charged when the doctor asks for `earnings`. */
  function PriceFromEarnings(earnings: nat, m: FeeModel): nat {
    match m
    case Flat(fee) => earnings + fee
    case Percent(rate) => RoundCents(earnings * (100 + rate))
  }

  /** What the doctor receives when the patient is charged `price`; never negative. */
  function EarningsFromPrice(price: nat, m: FeeModel): nat
    requires ValidModel(m)
  {
    match m
    case Flat(fee) => if price >= fee then price - fee else 0
    case Percent(rate) => RoundCents(price * (100 - rate))
  }

  /** The patient never pays less than the doctor earns. */
  lemma PriceCoversEarnings(earnings: nat, m: FeeModel)
    ensures PriceFromEarnings(earnings, m) >= earnings
  {
    if m.Percent? {
      assert earnings * (100 + m.rate) == 100 * earnings + earnings * m.rate;
    }
  }

  /** The doctor never earns more than the patient pays. */
  lemma EarningsWithinPrice(price: nat, m: FeeModel)
    requires ValidModel(m)
    ensures EarningsFromPrice(price, m) <= price
  {
    if m.Percent? {
      assert price * (100 - m.rate) == 100 * price - price * m.rate;
    }
  }

  /** A larger amount never yields a smaller price. */
  lemma PriceMonotone(e1: nat, e2: nat, m: FeeModel)
    requires e1 <= e2
    ensures PriceFromEarnings(e1, m) <= PriceFromEarnings(e2, m)
  {
    if m.Percent? {
      MultiplyBound(e1, e2, 100 + m.rate);
    }
  }

  /** A larger price never yields smaller earnings. */
  lemma EarningsMonotone(p1: nat, p2: nat, m: FeeModel)
    requires ValidModel(m) && p1 <= p2
    ensures EarningsFromPrice(p1, m) <= EarningsFromPrice(p2, m)
  {
    if m.Percent? {
      MultiplyBound(p1, p2, 100 - m.rate);
    }
  }

  /** Flat fee: earnings -> price -> earnings gives the earnings back exactly. */
  lemma FlatRoundTrip(earnings: nat, fee: nat)
    ensures EarningsFromPrice(PriceFromEarnings(earnings, Flat(fee)), Flat(fee)) == earnings
  {
  }

  /** Flat fee: price -> earnings -> price gives the price back, or the fee when the price was below it. */
  lemma FlatPriceRoundTrip(price: nat, fee: nat)
    ensures PriceFromEarnings(EarningsFromPrice(price, Flat(fee)), Flat(fee)) == if price >= fee then price else fee
  {
  }

  /**
   * Percentage fee: earnings -> price -> earnings never gives the doctor more than asked,
   * because the fee is added on the earnings and taken off the (larger) price.
   */
  lemma {:induction false} PercentRoundTripNeverGains(earnings: nat, rate: nat)
    requires rate < 100
    ensures EarningsFromPrice(PriceFromEarnings(earnings, Percent(rate)), Percent(rate)) <= earnings
  {
    var p := PriceFromEarnings(earnings, Percent(rate));
    var back := EarningsFromPrice(p, Percent(rate));
    // Math.round on both legs: 100 p <= e (100 + rate) + 50 and 100 back <= p (100 - rate) + 50
    RoundTripBound(earnings, rate, p, back);
  }

  /**
   * The arithmetic of the round trip: adding rate% and rounding, then taking rate% off the
   * result and rounding, cannot end above the start, since (100 + rate)(100 - rate) <= 100 * 100.
   */
  lemma RoundTripBound(e: nat, rate: nat, p: nat, back: nat)
    requires rate < 100
    requires 100 * p <= e * (100 + rate) + 50
    requires 100 * back <= p * (100 - rate) + 50
    ensures back <= e
  {
    var q := 100 - rate;
    var bound := e * (100 + rate) + 50;
    MultiplyBound(100 * p, bound, q);
    ScaledTwice(p, q);
    FeeScaled(e, rate);
    // 10000 back <= 100 (p q) + 5000 <= bound q + 5000 <= 10000 e + 50 q + 5000 < 10000 (e + 1)
  }

  lemma ScaledTwice(p: nat, q: nat)
    ensures 100 * (p * q) == (100 * p) * q
  {
  }

  /** Adding rate% and then taking rate% off scales by (100 + rate)(100 - rate) <= 100 * 100. */
  lemma FeeScaled(e: nat, rate: nat)
    requires rate < 100
    ensures (e * (100 + rate) + 50) * (100 - rate) <= 10000 * e + 50 * (100 - rate)
  {
    var q := 100 - rate;
    assert (e * (100 + rate) + 50) * q == e * ((100 + rate) * q) + 50 * q;
    assert (100 + rate) * q == 10000 - rate * rate;
    MultiplyBound(10000 - rate * rate, 10000, e);
  }

  /** Scaling by the same factor keeps the order. */
  lemma MultiplyBound(a: nat, b: nat, k: nat)
    requires a <= b
    ensures a * k <= b * k
  {
  }

  /** Percentage fee: a positive price comes only from positive earnings, and the other way round. */
  lemma PercentPricePositive(earnings: nat, rate: nat)
    ensures PriceFromEarnings(earnings, Percent(rate)) > 0 <==> earnings > 0
  {
    PriceCoversEarnings(earnings, Percent(rate));
  }

  /**
   * Worked values: ₹800 plus the flat ₹200 fee is ₹1000 and back; a price under the fee leaves
   * nothing; 20% on ₹1000 is ₹1200, but 20% off ₹1200 is ₹960, not ₹1000; 10% on ₹900 is ₹990,
   * and 10% off ₹990 is ₹891.
   */
  lemma WorkedValues()
    ensures PriceFromEarnings(800, Flat(200)) == 1000 && EarningsFromPrice(1000, Flat(200)) == 800
    ensures EarningsFromPrice(100, Flat(200)) == 0
    ensures PriceFromEarnings(1000, Percent(20)) == 1200 && EarningsFromPrice(1200, Percent(20)) == 960
    ensures PriceFromEarnings(900, Percent(10)) == 990 && EarningsFromPrice(990, Percent(10)) == 891
  {
  }
}
