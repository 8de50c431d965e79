/**
 * The user-information step: a specialization picked in a modal, years of experience, an
 * area, an address and three certificate files (MBBS degree, internship completion, NMC
 * registration). Only the address and the three files are required to move on.
 */
module UserInformation {
  import opened Flow
  import opened Text
  import SM = SpecializationModal

  datatype Error = AddressMissing | CertificatesMissing

  /** A picked file; only its presence matters here. */
  datatype Document = Document(name: string)

  datatype Form = Form(
    address: string,
    yearsOfExperience: string,
    selectedArea: string,
    mbbsFile: Option<Document>,
    internshipFile: Option<Document>,
    nmcFile: Option<Document>,
    selectedSpecialization: Option<SM.Choice>)

  predicate AllCertificates(f: Form) {
    f.mbbsFile.Some? && f.internshipFile.Some? && f.nmcFile.Some?
  }

  /**
   * `handleNext`: a blank address, then any missing certificate, raises an alert; otherwise
   * the flow moves to professional information.
   */
  function NextStep(f: Form): (r: Navigation<Error>)
    ensures IsBlank(f.address) ==> r == Alert(AddressMissing)
    ensures r.Navigate? <==> !IsBlank(f.address) && AllCertificates(f)
    ensures r.Navigate? ==> r.route == ProfessionalInfo
    ensures r.Alert? && !IsBlank(f.address) ==> r.error == CertificatesMissing
  {
    if IsBlank(f.address) then Alert(AddressMissing)
    else if f.mbbsFile.None? || f.internshipFile.None? || f.nmcFile.None? then Alert(CertificatesMissing)
    else Navigate(ProfessionalInfo)
  }

  /** The checks of `handleNext`, in the order they run. */
  function Checks(f: Form): seq<Guard<Error>> {
    [ Guard(!IsBlank(f.address), AddressMissing),
      Guard(AllCertificates(f), CertificatesMissing) ]
  }

  /** The alert raised is the one of the first check that fails. */
  lemma FirstFailureWins(f: Form)
    ensures match FirstFailure(Checks(f))
      case Pass => NextStep(f) == Navigate(ProfessionalInfo)
      case Fail(e) => NextStep(f) == Alert(e)
  {
    var g := Checks(f);
    assert g[1..] == [g[1]];
    assert g[1..][1..] == [];
  }

  /** The specialization, the experience and the area are not looked at. */
  lemma OptionalFieldsIgnored(f: Form, years: string, area: string, choice: Option<SM.Choice>)
    ensures NextStep(f) == NextStep(f.(yearsOfExperience := years, selectedArea := area, selectedSpecialization := choice))
  {
  }

  /** The text of the specialization field: the pair joined by " - ", or a prompt when none is picked. */
  function SpecializationLabel(choice: Option<SM.Choice>): (caption: string)
    ensures choice.None? ==> caption == "Add Specialization"
    ensures choice.Some? ==> caption == choice.value.category + " - " + choice.value.specialization
  {
    match choice
    case None => "Add Specialization"
    case Some(c) => c.category + " - " + c.specialization
  }

  /** The screen's state: one field per `useState` slot, and where it navigated. */
  class Screen {
    var address: string
    var yearsOfExperience: string
    var selectedArea: string
    var mbbsFile: Option<Document>
    var internshipFile: Option<Document>
    var nmcFile: Option<Document>
    var selectedSpecialization: Option<SM.Choice>
    var showModal: bool
    var navigated: seq<Route>

    constructor ()
      ensures Snapshot() == Form("", "", "", None, None, None, None)
      ensures !showModal && navigated == []
    {
      address, yearsOfExperience, selectedArea := "", "", "";
      mbbsFile, internshipFile, nmcFile := None, None, None;
      selectedSpecialization := None;
      showModal := false;
      navigated := [];
    }

    function Snapshot(): Form
      reads this
    {
      Form(address, yearsOfExperience, selectedArea, mbbsFile, internshipFile, nmcFile, selectedSpecialization)
    }

    method SetAddress(text: string)
      modifies this
      ensures Snapshot() == old(Snapshot()).(address := text)
      ensures showModal == old(showModal) && navigated == old(navigated)
    {
      address := text;
    }

    /** The three upload buttons, each storing the file it was handed. */
    method SetMbbsFile(file: Option<Document>)
      modifies this
      ensures Snapshot() == old(Snapshot()).(mbbsFile := file)
      ensures showModal == old(showModal) && navigated == old(navigated)
    {
      mbbsFile := file;
    }

    method SetInternshipFile(file: Option<Document>)
      modifies this
      ensures Snapshot() == old(Snapshot()).(internshipFile := file)
      ensures showModal == old(showModal) && navigated == old(navigated)
    {
      internshipFile := file;
    }

    method SetNmcFile(file: Option<Document>)
      modifies this
      ensures Snapshot() == old(Snapshot()).(nmcFile := file)
      ensures showModal == old(showModal) && navigated == old(navigated)
    {
      nmcFile := file;
    }

    /** The specialization field: opens the modal. */
    method OpenModal()
      modifies this
      ensures showModal && Snapshot() == old(Snapshot()) && navigated == old(navigated)
    {
      showModal := true;
    }

    /** The modal's `onClose`. */
    method CloseModal()
      modifies this
      ensures !showModal && Snapshot() == old(Snapshot()) && navigated == old(navigated)
    {
      showModal := false;
    }

    /** `handleSpecializationSubmit`: stores the pair and hides the modal. */
    method HandleSpecializationSubmit(choice: SM.Choice)
      modifies this
      ensures Snapshot() == old(Snapshot()).(selectedSpecialization := Some(choice))
      ensures !showModal && navigated == old(navigated)
    {
      selectedSpecialization := Some(choice);
      showModal := false;
    }

    /** `handleNext`: navigates only when the form passes. */
    method HandleNext() returns (r: Navigation<Error>)
      modifies this
      ensures r == NextStep(Snapshot()) && Snapshot() == old(Snapshot()) && showModal == old(showModal)
      ensures navigated == old(navigated) + (if r.Navigate? then [r.route] else [])
    {
      r := NextStep(Snapshot());
      if r.Navigate? {
        navigated := navigated + [r.route];
      }
    }
  }
}
