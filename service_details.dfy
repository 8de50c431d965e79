/**
 * The service-details step: the doctor enters a service radius and prices at least one
 * consultation channel in the percentage-fee widget before moving on to banking details.
 */
module ServiceDetails {
  import opened Flow
  import opened Text
  import CP = ConsultationPricing

  datatype Error = RadiusMissing | RadiusInvalid | NoPricedChannel

  /**
   * `hasHomePricing` / `hasVideoPricing`: the channel is present, enabled, and shows a
   * positive earning or price. Before the widget has reported, `pricingData` is `{}` and no
   * channel is present.
   */
  predicate HasPricing(report: Option<CP.ChannelReport>) {
    report.Some? && report.value.enabled &&
    (CP.AmountValue(report.value.earnings) > 0 || CP.AmountValue(report.value.patientPrice) > 0)
  }

  function HomeReport(data: Option<CP.PricingData>): Option<CP.ChannelReport> {
    if data.Some? then Some(data.value.homeConsultation) else None
  }

  function VideoReport(data: Option<CP.PricingData>): Option<CP.ChannelReport> {
    if data.Some? then Some(data.value.videoConsultation) else None
  }

  /** The radius parses to a number greater than 0. */
  predicate RadiusPositive(serviceRadius: string) {
    var r := ParseDecimal(serviceRadius);
    r.Some? && IsPositive(r.value)
  }

  /**
   * `validateInputs`: a blank radius, then a radius that is not a positive number, then the
   * absence of any priced channel, each stops the step; the first failure is reported.
   */
  function ValidateInputs(serviceRadius: string, pricingData: Option<CP.PricingData>): (r: Outcome<Error>)
    ensures IsBlank(serviceRadius) ==> r == Fail(RadiusMissing)
    ensures !IsBlank(serviceRadius) && !RadiusPositive(serviceRadius) ==> r == Fail(RadiusInvalid)
    ensures r == Fail(NoPricedChannel) <==>
      RadiusPositive(serviceRadius) &&
      !HasPricing(HomeReport(pricingData)) && !HasPricing(VideoReport(pricingData))
    ensures r == Pass <==>
      RadiusPositive(serviceRadius) &&
      (HasPricing(HomeReport(pricingData)) || HasPricing(VideoReport(pricingData)))
  {
    if IsBlank(serviceRadius) then Fail(RadiusMissing)
    else
      var radius := ParseDecimal(serviceRadius);
      if radius.None? || !IsPositive(radius.value) then Fail(RadiusInvalid)
      else if !HasPricing(HomeReport(pricingData)) && !HasPricing(VideoReport(pricingData)) then Fail(NoPricedChannel)
      else Pass
  }

  /** The checks of `validateInputs`, in the order they run. */
  function Checks(serviceRadius: string, pricingData: Option<CP.PricingData>): seq<Guard<Error>> {
    [ Guard(!IsBlank(serviceRadius), RadiusMissing),
      Guard(RadiusPositive(serviceRadius), RadiusInvalid),
      Guard(HasPricing(HomeReport(pricingData)) || HasPricing(VideoReport(pricingData)), NoPricedChannel) ]
  }

  /** The alert raised is the one of the first check, in the listed order, that fails. */
  lemma FirstFailureWins(serviceRadius: string, pricingData: Option<CP.PricingData>)
    ensures ValidateInputs(serviceRadius, pricingData) == FirstFailure(Checks(serviceRadius, pricingData))
  {
    var g := Checks(serviceRadius, pricingData);
    if FirstFailure(g).Pass? {
      assert g[0].holds && g[1].holds && g[2].holds;
    } else {
      var i :| 0 <= i < |g| && !g[i].holds && FirstFailure(g).error == g[i].error && forall k :: 0 <= k < i ==> g[k].holds;
      if i == 1 {
        assert g[0].holds;
      } else if i == 2 {
        assert g[0].holds && g[1].holds;
      }
    }
  }

  /** A radius typed as a non-zero whole number passes the radius checks. */
  lemma WholeRadiusAccepted(serviceRadius: Digits)
    requires DigitsValue(serviceRadius) > 0
    ensures RadiusPositive(serviceRadius)
  {
    DecimalOfDigits(serviceRadius);
  }

  /**
   * The gate in terms of the pricing widget's own state: once the widget has reported, the
   * step passes exactly when the radius is positive and some enabled channel has a positive
   * number in the input its report is computed from.
   */
  lemma GateOnWidgetState(serviceRadius: string, home: CP.ChannelState, video: CP.ChannelState)
    ensures var data := CP.PricingData(CP.Report(CP.Home, home), CP.Report(CP.Video, video));
      ValidateInputs(serviceRadius, Some(data)) == Pass <==>
        RadiusPositive(serviceRadius) &&
        ((home.enabled && DigitsValue(CP.SourceText(home)) > 0) ||
         (video.enabled && DigitsValue(CP.SourceText(video)) > 0))
  {
    CP.ReportPositiveIff(CP.Home, home);
    CP.ReportPositiveIff(CP.Video, video);
  }

  /** A disabled channel never counts, whatever its amounts. */
  lemma DisabledChannelIgnored(c: CP.Channel, s: CP.ChannelState)
    requires !s.enabled
    ensures !HasPricing(Some(CP.Report(c, s)))
  {
  }

  /** The screen's state: the radius input, the last `pricingData` received, and where it navigated. */
  class Screen {
    var serviceRadius: string
    var pricingData: Option<CP.PricingData>
    var navigated: seq<Route>

    constructor ()
      ensures serviceRadius == "" && pricingData == None && navigated == []
    {
      serviceRadius := "";
      pricingData := None;
      navigated := [];
    }

    method SetServiceRadius(text: string)
      modifies this
      ensures serviceRadius == text && pricingData == old(pricingData) && navigated == old(navigated)
    {
      serviceRadius := text;
    }

    /** `handlePricingChange`: keeps the widget's latest record. */
    method HandlePricingChange(data: CP.PricingData)
      modifies this
      ensures pricingData == Some(data) && serviceRadius == old(serviceRadius) && navigated == old(navigated)
    {
      pricingData := Some(data);
    }

    /** `handleNext`: navigates to banking details only when the inputs validate. */
    method HandleNext() returns (r: Outcome<Error>)
      modifies this
      ensures r == ValidateInputs(serviceRadius, pricingData)
      ensures navigated == old(navigated) + (if r == Pass then [BankingDetails] else [])
      ensures serviceRadius == old(serviceRadius) && pricingData == old(pricingData)
    {
      r := ValidateInputs(serviceRadius, pricingData);
      if r == Pass {
        navigated := navigated + [BankingDetails];
      }
    }
  }
}
