/**
 * The professional-information step: at least one specialization, the years of experience,
 * an area of the (fixed) city and an address, checked in order before the flow moves on to
 * service details.
 */
module ProfessionalInfo {
  import opened Flow
  import opened Text

  datatype Error = SpecializationMissing | ExperienceMissing | AreaMissing | AddressMissing | ExperienceInvalid

  /** The city input is not editable and always shows this value. */
  const City: string := "Visakhapatnam"

  datatype Form = Form(specializations: seq<string>, experience: string, area: string, address: string)

  /** The experience parses to a number that is not negative. */
  predicate ExperienceValid(experience: string) {
    var years := ParseDecimal(experience);
    years.Some? && IsNonNegative(years.value)
  }

  /**
   * `validateAndNavigate`: no specialization, then a blank experience, area or address, then
   * an experience that is not a number or is negative; the first failure is reported.
   */
  function Validate(f: Form): (r: Outcome<Error>)
    ensures f.specializations == [] ==> r == Fail(SpecializationMissing)
    ensures r == Pass <==>
      f.specializations != [] && !IsBlank(f.area) && !IsBlank(f.address) && ExperienceValid(f.experience)
  {
    if |f.specializations| == 0 then Fail(SpecializationMissing)
    else if IsBlank(f.experience) then Fail(ExperienceMissing)
    else if IsBlank(f.area) then Fail(AreaMissing)
    else if IsBlank(f.address) then Fail(AddressMissing)
    else
      var years := ParseDecimal(f.experience);
      if years.None? || !IsNonNegative(years.value) then Fail(ExperienceInvalid)
      else Pass
  }

  /** The checks of `validateAndNavigate`, in the order they run. */
  function Checks(f: Form): seq<Guard<Error>> {
    [ Guard(|f.specializations| != 0, SpecializationMissing),
      Guard(!IsBlank(f.experience), ExperienceMissing),
      Guard(!IsBlank(f.area), AreaMissing),
      Guard(!IsBlank(f.address), AddressMissing),
      Guard(ExperienceValid(f.experience), ExperienceInvalid) ]
  }

  /** The alert raised is the one of the first check, in the listed order, that fails. */
  lemma FirstFailureWins(f: Form)
    ensures Validate(f) == FirstFailure(Checks(f))
  {
    var g := Checks(f);
    if FirstFailure(g).Pass? {
      assert g[0].holds && g[1].holds && g[2].holds && g[3].holds && g[4].holds;
    } else {
      var i :| 0 <= i < |g| && !g[i].holds && FirstFailure(g).error == g[i].error && forall k :: 0 <= k < i ==> g[k].holds;
      if i == 1 {
        assert g[0].holds;
      } else if i == 2 {
        assert g[0].holds && g[1].holds;
      } else if i == 3 {
        assert g[0].holds && g[1].holds && g[2].holds;
      } else if i == 4 {
        assert g[0].holds && g[1].holds && g[2].holds && g[3].holds;
      }
    }
  }

  /** Zero years of experience is accepted. */
  lemma ZeroExperienceAccepted(f: Form)
    requires f.specializations != [] && !IsBlank(f.area) && !IsBlank(f.address) && f.experience == "0"
    ensures Validate(f) == Pass
  {
    DecimalOfDigits("0");
  }

  /** Any whole number of years typed as digits is accepted. */
  lemma WholeYearsAccepted(f: Form, years: Digits)
    requires f.specializations != [] && !IsBlank(f.area) && !IsBlank(f.address)
    requires years != [] && f.experience == years
    ensures Validate(f) == Pass
  {
    DecimalOfDigits(years);
  }

  /** A negative number of years is rejected, even when everything else is filled in. */
  lemma NegativeExperienceRejected(f: Form, years: Digits)
    requires years != [] && DigitsValue(years) > 0 && f.experience == ['-'] + years
    ensures Validate(f) != Pass
  {
    DecimalOfNegatedDigits(years);
  }

  /** `handleNext`: the flow moves on to service details exactly when the form validates. */
  function HandleNext(f: Form): (r: Navigation<Error>)
    ensures r.Navigate? <==> Validate(f) == Pass
    ensures r.Navigate? ==> r.route == ServiceDetails
    ensures r.Alert? ==> Validate(f) == Fail(r.error)
  {
    match Validate(f)
    case Pass => Navigate(ServiceDetails)
    case Fail(e) => Alert(e)
  }
}
