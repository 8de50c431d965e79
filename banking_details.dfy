/**
 * The banking-details step: the doctor accepts the terms and either gives bank account
 * details (holder name, account number, IFSC code) or a UPI ID that has been verified.
 */
module BankingDetails {
  import opened Flow
  import opened Text

  /** `paymentMethod`: 'banking' (the initial choice) or 'upi'. */
  datatype PaymentMethod = Banking | Upi

  datatype Error = TermsNotAccepted | BankingDetailsMissing | AccountNumberInvalid | IfscInvalid | UpiNotVerified | UpiIdMissing

  /** A snapshot of the form's state slots. */
  datatype Form = Form(
    paymentMethod: PaymentMethod,
    bankName: string,
    accountNumber: string,
    ifscNumber: string,
    upiId: string,
    isUpiVerified: bool,
    termsAccepted: bool)

  /** `/^\d+$/` together with `length >= 9`: nine or more ASCII digits and nothing else. */
  predicate ValidAccountNumber(s: string) {
    |s| >= 9 && AllDigits(s)
  }

  /** An IFSC code has exactly 11 characters. */
  predicate ValidIfsc(s: string) {
    |s| == 11
  }

  /** `bankName.trim() && accountNumber.trim() && ifscNumber.trim()`. */
  predicate BankingFieldsPresent(f: Form) {
    !IsBlank(f.bankName) && !IsBlank(f.accountNumber) && !IsBlank(f.ifscNumber)
  }

  /** What the banking branch asks for. */
  predicate BankingComplete(f: Form) {
    BankingFieldsPresent(f) && ValidAccountNumber(f.accountNumber) && ValidIfsc(f.ifscNumber)
  }

  /** What the UPI branch asks for. */
  predicate UpiComplete(f: Form) {
    !IsBlank(f.upiId) && f.isUpiVerified
  }

  /**
   * `validateInputs`: the terms first, whatever the method; then, for banking, the three
   * fields present, the account number, the IFSC code; for UPI, an ID that has been verified.
   */
  function ValidateInputs(f: Form): (r: Outcome<Error>)
    ensures !f.termsAccepted ==> r == Fail(TermsNotAccepted)
    ensures r == Pass <==> f.termsAccepted && (if f.paymentMethod == Banking then BankingComplete(f) else UpiComplete(f))
    ensures f.termsAccepted && f.paymentMethod == Upi && !UpiComplete(f) ==> r == Fail(UpiNotVerified)
    ensures f.termsAccepted && f.paymentMethod == Banking ==>
      (r == Fail(BankingDetailsMissing) <==> !BankingFieldsPresent(f))
    ensures f.termsAccepted && f.paymentMethod == Banking && BankingFieldsPresent(f) ==>
      (if !ValidAccountNumber(f.accountNumber) then r == Fail(AccountNumberInvalid)
       else if !ValidIfsc(f.ifscNumber) then r == Fail(IfscInvalid)
       else r == Pass)
  {
    if !f.termsAccepted then Fail(TermsNotAccepted)
    else if f.paymentMethod == Banking then
      if !BankingFieldsPresent(f) then Fail(BankingDetailsMissing)
      else if !ValidAccountNumber(f.accountNumber) then Fail(AccountNumberInvalid)
      else if !ValidIfsc(f.ifscNumber) then Fail(IfscInvalid)
      else Pass
    else if IsBlank(f.upiId) || !f.isUpiVerified then Fail(UpiNotVerified)
    else Pass
  }

  /** The checks of `validateInputs` for the chosen method, in the order they run. */
  function Checks(f: Form): seq<Guard<Error>> {
    [Guard(f.termsAccepted, TermsNotAccepted)] +
    if f.paymentMethod == Banking then
      [ Guard(BankingFieldsPresent(f), BankingDetailsMissing),
        Guard(ValidAccountNumber(f.accountNumber), AccountNumberInvalid),
        Guard(ValidIfsc(f.ifscNumber), IfscInvalid) ]
    else
      [Guard(UpiComplete(f), UpiNotVerified)]
  }

  /** The alert raised is the one of the first check, in the listed order, that fails. */
  lemma FirstFailureWins(f: Form)
    ensures ValidateInputs(f) == FirstFailure(Checks(f))
  {
    var g := Checks(f);
    if FirstFailure(g).Pass? {
      assert g[0].holds && g[1].holds;
      if f.paymentMethod == Banking {
        assert g[2].holds && g[3].holds;
      }
    } else {
      var i :| 0 <= i < |g| && !g[i].holds && FirstFailure(g).error == g[i].error && forall k :: 0 <= k < i ==> g[k].holds;
      if i == 1 {
        assert g[0].holds;
      } else if i == 2 {
        assert g[0].holds && g[1].holds;
      } else if i == 3 {
        assert g[0].holds && g[1].holds && g[2].holds;
      }
    }
  }

  /** Paying by UPI, the banking fields do not matter at all. */
  lemma UpiIgnoresBankingFields(f: Form, bankName: string, accountNumber: string, ifscNumber: string)
    requires f.paymentMethod == Upi
    ensures ValidateInputs(f) == ValidateInputs(f.(bankName := bankName, accountNumber := accountNumber, ifscNumber := ifscNumber))
  {
  }

  /** Paying by bank, the UPI ID and its verification do not matter at all. */
  lemma BankingIgnoresUpiFields(f: Form, upiId: string, isUpiVerified: bool)
    requires f.paymentMethod == Banking
    ensures ValidateInputs(f) == ValidateInputs(f.(upiId := upiId, isUpiVerified := isUpiVerified))
  {
  }

  /** A valid account number is never blank, so the presence check never hides the format check. */
  lemma ValidAccountNumberNotBlank(s: string)
    requires ValidAccountNumber(s)
    ensures !IsBlank(s)
  {
    BlankIffAllWhitespace(s);
    assert !IsWhitespace(s[0]);
  }

  /**
   * An account number typed after a space passes the presence check (`trim` drops the space)
   * and is then rejected by the format check, which does not trim.
   */
  lemma PaddedAccountNumberRejected(digits: Digits)
    requires |digits| >= 9
    ensures !IsBlank([' '] + digits) && !ValidAccountNumber([' '] + digits)
  {
    BlankIffAllWhitespace([' '] + digits);
    assert ([' '] + digits)[1] == digits[0];
  }

  /** The IFSC input's `onChangeText`: the text is stored upper-cased. */
  function StoredIfsc(text: string): (r: string)
    ensures |r| == |text|
    ensures forall i :: 0 <= i < |r| ==> r[i] == UpperChar(text[i])
    ensures forall i :: 0 <= i < |r| ==> !('a' <= r[i] <= 'z')
    ensures ToUpper(r) == r
  {
    ToUpper(text)
  }

  /** `handleVerifyUPI` on a UPI ID and the current flag: the outcome and the new flag. */
  function VerifyUpi(upiId: string, isUpiVerified: bool): (r: (Outcome<Error>, bool))
    ensures IsBlank(upiId) ==> r == (Fail(UpiIdMissing), isUpiVerified)
    ensures !IsBlank(upiId) ==> r == (Pass, true)
  {
    if IsBlank(upiId) then (Fail(UpiIdMissing), isUpiVerified) else (Pass, true)
  }

  /** The screen's state: one field per `useState` slot, and where it navigated. */
  class Screen {
    var paymentMethod: PaymentMethod
    var bankName: string
    var accountNumber: string
    var ifscNumber: string
    var upiId: string
    var isUpiVerified: bool
    var termsAccepted: bool
    var navigated: seq<Route>

    constructor ()
      ensures Snapshot() == Form(Banking, "", "", "", "", false, false) && navigated == []
    {
      paymentMethod := Banking;
      bankName, accountNumber, ifscNumber, upiId := "", "", "", "";
      isUpiVerified, termsAccepted := false, false;
      navigated := [];
    }

    function Snapshot(): Form
      reads this
    {
      Form(paymentMethod, bankName, accountNumber, ifscNumber, upiId, isUpiVerified, termsAccepted)
    }

    /** The two payment-method radios. */
    method SelectPaymentMethod(m: PaymentMethod)
      modifies this
      ensures Snapshot() == old(Snapshot()).(paymentMethod := m) && navigated == old(navigated)
    {
      paymentMethod := m;
    }

    method SetBankName(text: string)
      modifies this
      ensures Snapshot() == old(Snapshot()).(bankName := text) && navigated == old(navigated)
    {
      bankName := text;
    }

    method SetAccountNumber(text: string)
      modifies this
      ensures Snapshot() == old(Snapshot()).(accountNumber := text) && navigated == old(navigated)
    {
      accountNumber := text;
    }

    /** The IFSC input stores what is typed upper-cased. */
    method SetIfscNumber(text: string)
      modifies this
      ensures Snapshot() == old(Snapshot()).(ifscNumber := StoredIfsc(text)) && navigated == old(navigated)
    {
      ifscNumber := ToUpper(text);
    }

    /** Editing the UPI ID stores it and leaves an earlier verification standing. */
    method SetUpiId(text: string)
      modifies this
      ensures Snapshot() == old(Snapshot()).(upiId := text) && navigated == old(navigated)
    {
      upiId := text;
    }

    /** `handleVerifyUPI`: marks the ID verified unless it is blank. */
    method HandleVerifyUpi() returns (r: Outcome<Error>)
      modifies this
      ensures (r, isUpiVerified) == VerifyUpi(old(upiId), old(isUpiVerified))
      ensures Snapshot() == old(Snapshot()).(isUpiVerified := isUpiVerified) && navigated == old(navigated)
    {
      if IsBlank(upiId) {
        return Fail(UpiIdMissing);
      }
      isUpiVerified := true;
      r := Pass;
    }

    /** The terms checkbox. */
    method ToggleTerms()
      modifies this
      ensures Snapshot() == old(Snapshot()).(termsAccepted := !old(termsAccepted)) && navigated == old(navigated)
    {
      termsAccepted := !termsAccepted;
    }

    /** `handleCreateAccount`: navigates to the closing screen only when the inputs validate. */
    method HandleCreateAccount() returns (r: Outcome<Error>)
      modifies this
      ensures r == ValidateInputs(Snapshot()) && Snapshot() == old(Snapshot())
      ensures navigated == old(navigated) + (if r == Pass then [ThankYou] else [])
    {
      r := ValidateInputs(Snapshot());
      if r == Pass {
        navigated := navigated + [ThankYou];
      }
    }
  }
}
