/**
 * The percentage-fee pricing widget of the service-details step. Each consultation
 * channel (home visit, video) has an enable checkbox, a radio choosing whether the
 * doctor types the earnings ("I want to earn") or the patient price ("I want to set
 * patient price"), and the two amounts. Home visits carry a 20% platform fee, video
 * consultations 10%. Whenever any field changes, the widget hands a `pricingData`
 * record to its parent.
 */
module ConsultationPricing {
  import opened Text
  import opened PricingEngine

  datatype Channel = Home | Video

  function Other(c: Channel): Channel {
    if c == Home then Video else Home
  }

  /** `homeOption` / `videoOption`: '' (nothing chosen yet), 'earn' or 'setPrice'. */
  datatype PricingOption = NoOption | Earn | SetPrice

  /** The fee of a channel: 20% for home visits, 10% for video. */
  function FeeOf(c: Channel): (m: FeeModel)
    ensures ValidModel(m) && m.Percent?
  {
    if c == Home then Percent(20) else Percent(10)
  }

  /** `calculateHomeFinalPrice` / `calculateVideoFinalPrice`: `Math.round(e + e * rate)`, with "" read as 0. */
  function FinalPrice(c: Channel, earnings: Digits): (r: nat)
    ensures r >= DigitsValue(earnings)
    ensures earnings == "" ==> r == 0
  {
    PriceCoversEarnings(DigitsValue(earnings), FeeOf(c));
    PriceFromEarnings(DigitsValue(earnings), FeeOf(c))
  }

  /** `calculateHomeEarnings` / `calculateVideoEarnings`: `Math.round(p - p * rate)`, with "" read as 0. */
  function Earnings(c: Channel, patientPrice: Digits): (r: nat)
    ensures r <= DigitsValue(patientPrice)
    ensures patientPrice == "" ==> r == 0
  {
    EarningsWithinPrice(DigitsValue(patientPrice), FeeOf(c));
    EarningsFromPrice(DigitsValue(patientPrice), FeeOf(c))
  }

  /**
   * The conversions in closed form on whole rupees: home price round(6e/5) and earnings
   * round(4p/5), video price round(11e/10) and earnings round(9p/10), halves rounded up.
   */
  lemma ClosedForms(e: nat, p: nat)
    ensures PriceFromEarnings(e, FeeOf(Home)) == (12 * e + 5) / 10
    ensures EarningsFromPrice(p, FeeOf(Home)) == (8 * p + 5) / 10
    ensures PriceFromEarnings(e, FeeOf(Video)) == (11 * e + 5) / 10
    ensures EarningsFromPrice(p, FeeOf(Video)) == (9 * p + 5) / 10
  {
    DivideByTen(12 * e + 5);
    DivideByTen(8 * p + 5);
    DivideByTen(11 * e + 5);
    DivideByTen(9 * p + 5);
  }

  lemma DivideByTen(n: nat)
    ensures (10 * n) / 100 == n / 10
  {
    var q := n / 10;
    assert 100 * q <= 10 * n < 100 * q + 100;
  }

  /**
   * One channel's slice of the widget's state. `earnings` and `patientPrice` are the raw
   * text of the two inputs; which one the doctor types into depends on `option`.
   */
  datatype ChannelState = ChannelState(enabled: bool, option: PricingOption, earnings: Digits, patientPrice: Digits)

  /** Every `useState` initial value: unchecked, nothing chosen, both inputs empty. */
  const Initial: ChannelState := ChannelState(false, NoOption, "", "")

  /**
   * The checkbox's `onPress`. It flips `enabled`; the reset that follows tests the value
   * captured before the flip, so checking a channel starts it afresh while unchecking
   * keeps the option and both amounts.
   */
  function Toggle(s: ChannelState): ChannelState {
    if !s.enabled then ChannelState(true, NoOption, "", "") else s.(enabled := false)
  }

  /** The "I want to earn" radio: chooses 'earn' and clears the price input. */
  function ChooseEarn(s: ChannelState): ChannelState {
    s.(option := Earn, patientPrice := "")
  }

  /** The "I want to set patient price" radio: chooses 'setPrice' and clears the earnings input. */
  function ChooseSetPrice(s: ChannelState): ChannelState {
    s.(option := SetPrice, earnings := "")
  }

  /** Switching the radio one way and back, with nothing typed between, leaves both inputs empty. */
  lemma SwitchingBackAndForthClears(s: ChannelState)
    ensures ChooseEarn(ChooseSetPrice(s)).earnings == "" && ChooseEarn(ChooseSetPrice(s)).patientPrice == ""
    ensures ChooseSetPrice(ChooseEarn(s)).earnings == "" && ChooseSetPrice(ChooseEarn(s)).patientPrice == ""
  {
  }

  /** Unchecking and checking a channel again gives a fresh configuration, whatever was entered. */
  lemma ReenableStartsAfresh(s: ChannelState)
    requires s.enabled
    ensures Toggle(Toggle(s)) == Initial.(enabled := true)
  {
  }

  /** A value in `pricingData`: the raw text of an input, or a number the widget computed. */
  datatype Amount = Raw(text: Digits) | Computed(value: nat)

  /** The number an amount stands for when the parent compares it with 0 (`"" > 0` is false). */
  function AmountValue(a: Amount): nat {
    match a
    case Raw(text) => DigitsValue(text)
    case Computed(v) => v
  }

  datatype ChannelReport = ChannelReport(enabled: bool, option: PricingOption, earnings: Amount, patientPrice: Amount)

  /** The record handed to `onPricingChange`. */
  datatype PricingData = PricingData(homeConsultation: ChannelReport, videoConsultation: ChannelReport)

  /**
   * A channel's part of `pricingData`. Under 'earn' the earnings are the typed text and the
   * price is derived from them; under any other option (including none) the price is the
   * typed text and the earnings are derived from it. Either way the price is at least the earnings.
   */
  function Report(c: Channel, s: ChannelState): (r: ChannelReport)
    ensures r.enabled == s.enabled && r.option == s.option
    ensures s.option == Earn ==> r.earnings == Raw(s.earnings) && r.patientPrice == Computed(FinalPrice(c, s.earnings))
    ensures s.option != Earn ==> r.patientPrice == Raw(s.patientPrice) && r.earnings == Computed(Earnings(c, s.patientPrice))
    ensures AmountValue(r.earnings) <= AmountValue(r.patientPrice)
  {
    if s.option == Earn then
      ChannelReport(s.enabled, s.option, Raw(s.earnings), Computed(FinalPrice(c, s.earnings)))
    else
      ChannelReport(s.enabled, s.option, Computed(Earnings(c, s.patientPrice)), Raw(s.patientPrice))
  }

  /** The input a channel's report is computed from. */
  function SourceText(s: ChannelState): Digits {
    if s.option == Earn then s.earnings else s.patientPrice
  }

  /**
   * A report shows a positive amount exactly when the input it is computed from holds a
   * positive number: a positive earning always yields a positive price, and a price of 0
   * yields earnings of 0.
   */
  lemma ReportPositiveIff(c: Channel, s: ChannelState)
    ensures var r := Report(c, s);
      (AmountValue(r.earnings) > 0 || AmountValue(r.patientPrice) > 0) <==> DigitsValue(SourceText(s)) > 0
  {
    if s.option == Earn {
      PercentPricePositive(DigitsValue(s.earnings), FeeOf(c).rate);
    }
  }

  /** The widget's state: one field per `useState` slot. */
  class Pricing {
    var homeConsultation: bool
    var videoConsultation: bool
    var homeOption: PricingOption
    var videoOption: PricingOption
    var homeEarnings: Digits
    var homePatientPrice: Digits
    var videoEarnings: Digits
    var videoPatientPrice: Digits

    constructor ()
      ensures State(Home) == Initial && State(Video) == Initial
    {
      homeConsultation, videoConsultation := false, false;
      homeOption, videoOption := NoOption, NoOption;
      homeEarnings, homePatientPrice := "", "";
      videoEarnings, videoPatientPrice := "", "";
    }

    /** The four slots of channel `c`. */
    function State(c: Channel): ChannelState
      reads this
    {
      if c == Home then ChannelState(homeConsultation, homeOption, homeEarnings, homePatientPrice)
      else ChannelState(videoConsultation, videoOption, videoEarnings, videoPatientPrice)
    }

    /** The `pricingData` the effect hands to the parent after every change. */
    function Data(): PricingData
      reads this
    {
      PricingData(Report(Home, State(Home)), Report(Video, State(Video)))
    }

    /** The checkbox of channel `c`. */
    method ToggleChannel(c: Channel)
      modifies this
      ensures State(c) == Toggle(old(State(c)))
      ensures State(Other(c)) == old(State(Other(c)))
    {
      if c == Home {
        var wasChecked := homeConsultation;
        homeConsultation := !wasChecked;
        if !wasChecked {
          homeOption := NoOption;
          homeEarnings := "";
          homePatientPrice := "";
        }
      } else {
        var wasChecked := videoConsultation;
        videoConsultation := !wasChecked;
        if !wasChecked {
          videoOption := NoOption;
          videoEarnings := "";
          videoPatientPrice := "";
        }
      }
    }

    /** The "I want to earn" radio of channel `c`. */
    method SelectEarn(c: Channel)
      modifies this
      ensures State(c) == ChooseEarn(old(State(c)))
      ensures State(Other(c)) == old(State(Other(c)))
    {
      if c == Home {
        homeOption := Earn;
        homePatientPrice := "";
      } else {
        videoOption := Earn;
        videoPatientPrice := "";
      }
    }

    /** The "I want to set patient price" radio of channel `c`. */
    method SelectSetPrice(c: Channel)
      modifies this
      ensures State(c) == ChooseSetPrice(old(State(c)))
      ensures State(Other(c)) == old(State(Other(c)))
    {
      if c == Home {
        homeOption := SetPrice;
        homeEarnings := "";
      } else {
        videoOption := SetPrice;
        videoEarnings := "";
      }
    }

    /** Typing into the earnings input of channel `c`: the text is stored as typed. */
    method EditEarnings(c: Channel, text: Digits)
      modifies this
      ensures State(c) == old(State(c)).(earnings := text)
      ensures State(Other(c)) == old(State(Other(c)))
    {
      if c == Home {
        homeEarnings := text;
      } else {
        videoEarnings := text;
      }
    }

    /** Typing into the patient-price input of channel `c`: the text is stored as typed. */
    method EditPatientPrice(c: Channel, text: Digits)
      modifies this
      ensures State(c) == old(State(c)).(patientPrice := text)
      ensures State(Other(c)) == old(State(Other(c)))
    {
      if c == Home {
        homePatientPrice := text;
      } else {
        videoPatientPrice := text;
      }
    }
  }
}
