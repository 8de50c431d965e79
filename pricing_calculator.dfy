/**
 * The flat-fee pricing widget: two numeric inputs, "how much do you want to earn"
 * and "set price for patient", kept in step through a fixed platform fee of ₹200.
 * Editing one input strips it to its digits, stores it, rewrites the other input
 * and reports the pair to the parent (when the parent passed a callback).
 */
module PricingCalculator {
  import opened Flow
  import opened Text
  import opened PricingEngine

  /** `PLATFORM_FEE`. */
  const PlatformFee: nat := 200

  const Fee: FeeModel := Flat(PlatformFee)

  /** The input that last received focus (`editingField`). */
  datatype Field = DoctorField | PatientField

  /** The object handed to `onPriceChange`. */
  datatype PriceReport = PriceReport(doctorEarning: nat, patientPrice: nat, platformFee: nat)

  /** The contents of the two inputs. */
  datatype Inputs = Inputs(doctorEarning: Digits, patientPrice: Digits)

  /**
   * Both inputs after the earning input changes to `value`: the earning is the digits of
   * `value`, and the price is empty with it or else the earning plus the fee.
   */
  function AfterEarningChange(value: string): (r: Inputs)
    ensures r.doctorEarning == KeepDigits(value)
    ensures r.doctorEarning == "" <==> r.patientPrice == ""
    ensures r.doctorEarning != "" ==> DigitsValue(r.patientPrice) == DigitsValue(r.doctorEarning) + PlatformFee
  {
    var digits := KeepDigits(value);
    if digits == "" then Inputs("", "")
    else
      var price := PriceFromEarnings(DigitsValue(digits), Fee);
      DigitsValueOfNatToDigits(price);
      Inputs(digits, NatToDigits(price))
  }

  /**
   * Both inputs after the price input changes to `value`: the price is the digits of
   * `value`, and the earning is empty with it or else the price less the fee, but never below 0.
   */
  function AfterPriceChange(value: string): (r: Inputs)
    ensures r.patientPrice == KeepDigits(value)
    ensures r.patientPrice == "" <==> r.doctorEarning == ""
    ensures r.patientPrice != "" ==>
      DigitsValue(r.doctorEarning) == (if DigitsValue(r.patientPrice) >= PlatformFee then DigitsValue(r.patientPrice) - PlatformFee else 0)
  {
    var digits := KeepDigits(value);
    if digits == "" then Inputs("", "")
    else
      var earning := EarningsFromPrice(DigitsValue(digits), Fee);
      DigitsValueOfNatToDigits(earning);
      Inputs(NatToDigits(earning), digits)
  }

  /**
   * What the parent hears after the earning input changes to `value`: the earning typed
   * (0 when no digit was typed), the price it implies (0 with an empty input) and the fee.
   */
  function EarningChangeReport(value: string): (r: PriceReport)
    ensures r.platformFee == PlatformFee && r.doctorEarning == DigitsValue(KeepDigits(value))
    ensures KeepDigits(value) == "" ==> r.doctorEarning == 0 && r.patientPrice == 0
    ensures KeepDigits(value) != "" ==> r.patientPrice == PriceFromEarnings(r.doctorEarning, Fee)
  {
    var digits := KeepDigits(value);
    PriceReport(DigitsValue(digits), if digits != "" then DigitsValue(digits) + PlatformFee else 0, PlatformFee)
  }

  /**
   * What the parent hears after the price input changes to `value`: the price typed (0 when no
   * digit was typed), the earning it leaves after the fee (never negative) and the fee.
   */
  function PriceChangeReport(value: string): (r: PriceReport)
    ensures r.platformFee == PlatformFee && r.patientPrice == DigitsValue(KeepDigits(value))
    ensures r.doctorEarning <= r.patientPrice
    ensures KeepDigits(value) == "" ==> r.doctorEarning == 0 && r.patientPrice == 0
    ensures r.patientPrice >= PlatformFee ==> r.doctorEarning + PlatformFee == r.patientPrice
    ensures r.patientPrice < PlatformFee ==> r.doctorEarning == 0
  {
    var digits := KeepDigits(value);
    var price := DigitsValue(digits);
    PriceReport(if digits != "" then (if price >= PlatformFee then price - PlatformFee else 0) else 0, price, PlatformFee)
  }

  /** `patientWillPay`: 0 while the earning input is empty, else the earning plus the fee. */
  function PatientWillPay(doctorEarning: Digits): (r: nat)
    ensures doctorEarning == "" ==> r == 0
    ensures doctorEarning != "" ==> r == PriceFromEarnings(DigitsValue(doctorEarning), Fee) && r >= PlatformFee
  {
    if doctorEarning == "" then 0 else DigitsValue(doctorEarning) + PlatformFee
  }

  /** `doctorWillEarn`: 0 while the price input is empty, never negative, never above the price. */
  function DoctorWillEarn(patientPrice: Digits): (r: nat)
    ensures patientPrice == "" ==> r == 0
    ensures r <= DigitsValue(patientPrice)
    ensures DigitsValue(patientPrice) >= PlatformFee ==> r + PlatformFee == DigitsValue(patientPrice)
  {
    if patientPrice == "" then 0 else EarningsFromPrice(DigitsValue(patientPrice), Fee)
  }

  /** `formatCurrency`: the rupee sign followed by the amount. */
  function FormatCurrency(amount: nat): (r: string)
    ensures |r| >= 2 && r[0] == '₹' && AllDigits(r[1..]) && DigitsValue(r[1..]) == amount
  {
    DigitsValueOfNatToDigits(amount);
    assert ("₹" + NatToDigits(amount))[1..] == NatToDigits(amount);
    "₹" + NatToDigits(amount)
  }

  /**
   * After an earning change the report agrees with what is stored: its earning is the stored
   * earning, its price is what the widget displays as "patient will pay" (and the stored price
   * whenever there is one), and the fee is always 200.
   */
  lemma EarningReportConsistent(value: string)
    ensures var r := EarningChangeReport(value); var s := AfterEarningChange(value);
      && r.platformFee == PlatformFee
      && r.doctorEarning == DigitsValue(s.doctorEarning)
      && r.patientPrice == PatientWillPay(s.doctorEarning)
      && (s.patientPrice != "" ==> r.patientPrice == DigitsValue(s.patientPrice))
  {
  }

  /**
   * After a price change the report agrees with what is stored: its price is the stored price,
   * its earning is what the widget displays as "you will earn" (and the stored earning whenever
   * there is one), and the fee is always 200.
   */
  lemma PriceReportConsistent(value: string)
    ensures var r := PriceChangeReport(value); var s := AfterPriceChange(value);
      && r.platformFee == PlatformFee
      && r.patientPrice == DigitsValue(s.patientPrice)
      && r.doctorEarning == DoctorWillEarn(s.patientPrice)
      && (s.doctorEarning != "" ==> r.doctorEarning == DigitsValue(s.doctorEarning))
  {
  }

  /**
   * Typing an earning `e`, then typing into the price input the price that was computed,
   * gives back exactly the earning `e` as it was typed.
   */
  lemma EarningPriceRoundTrip(e: nat)
    ensures AfterPriceChange(AfterEarningChange(NatToDigits(e)).patientPrice).doctorEarning == NatToDigits(e)
  {
    KeepDigitsOfDigits(NatToDigits(e));
    DigitsValueOfNatToDigits(e);
    var price := AfterEarningChange(NatToDigits(e)).patientPrice;
    KeepDigitsOfDigits(price);
  }

  /** Inputs limited to six characters never hold more than 999999. */
  lemma InputsBounded(value: string)
    requires |value| <= 6
    ensures DigitsValue(AfterEarningChange(value).doctorEarning) <= 999999
    ensures DigitsValue(AfterPriceChange(value).patientPrice) <= 999999
  {
    SixDigitsBound(KeepDigits(value));
  }

  /** The widget's state: one field per `useState` slot, plus the reports sent to the parent. */
  class Calculator {
    var doctorEarning: Digits
    var patientPrice: Digits
    var editingField: Option<Field>
    /** Whether the parent passed `onPriceChange`. */
    const notifiesParent: bool
    /** Every object handed to `onPriceChange`, oldest first. */
    var reports: seq<PriceReport>

    constructor (notifiesParent: bool)
      ensures doctorEarning == "" && patientPrice == "" && editingField == None
      ensures this.notifiesParent == notifiesParent && reports == []
    {
      doctorEarning := "";
      patientPrice := "";
      editingField := None;
      this.notifiesParent := notifiesParent;
      reports := [];
    }

    function Contents(): Inputs
      reads this
    {
      Inputs(doctorEarning, patientPrice)
    }

    /** `handleDoctorEarningChange`. */
    method HandleDoctorEarningChange(value: string)
      modifies this
      ensures Contents() == AfterEarningChange(value)
      ensures reports == old(reports) + (if notifiesParent then [EarningChangeReport(value)] else [])
      ensures editingField == old(editingField)
    {
      var numericValue := KeepDigits(value);
      doctorEarning := numericValue;
      if numericValue != "" {
        var earning := DigitsValue(numericValue);
        patientPrice := NatToDigits(earning + PlatformFee);
      } else {
        patientPrice := "";
      }
      if notifiesParent {
        var report := PriceReport(DigitsValue(numericValue),
                                  if numericValue != "" then DigitsValue(numericValue) + PlatformFee else 0,
                                  PlatformFee);
        reports := reports + [report];
      }
    }

    /** `handlePatientPriceChange`. */
    method HandlePatientPriceChange(value: string)
      modifies this
      ensures Contents() == AfterPriceChange(value)
      ensures reports == old(reports) + (if notifiesParent then [PriceChangeReport(value)] else [])
      ensures editingField == old(editingField)
    {
      var numericValue := KeepDigits(value);
      patientPrice := numericValue;
      if numericValue != "" {
        var price := DigitsValue(numericValue);
        var calculated := if price >= PlatformFee then price - PlatformFee else 0;
        doctorEarning := NatToDigits(calculated);
      } else {
        doctorEarning := "";
      }
      if notifiesParent {
        var price := DigitsValue(numericValue);
        var report := PriceReport(if numericValue != "" then (if price >= PlatformFee then price - PlatformFee else 0) else 0,
                                  price, PlatformFee);
        reports := reports + [report];
      }
    }

    /** `onFocus` of either input. */
    method Focus(field: Field)
      modifies this
      ensures editingField == Some(field)
      ensures Contents() == old(Contents()) && reports == old(reports)
    {
      editingField := Some(field);
    }
  }
}
