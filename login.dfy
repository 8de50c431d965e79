/**
 * The login step: the user picks Doctor (the default) or Patient, types a mobile number and
 * asks for a one-time password. The number is checked, an OTP request goes out, and on
 * success the flow moves to the OTP screen carrying the number and the user type.
 */
module Login {
  import opened Flow
  import opened Text
  import CA = CreateAccount

  datatype Error = PhoneMissing | PhoneInvalid | SendFailed

  /** The phone field's `maxLength`: the input stops taking characters after ten. */
  const MaxLength := 10

  /**
   * `validatePhoneNumber`: with every whitespace character removed, exactly ten ASCII digits.
   * Within the field's ten-character limit that means exactly ten digits and nothing else.
   */
  predicate ValidPhoneNumber(phone: string)
    ensures |phone| <= MaxLength ==> (ValidPhoneNumber(phone) <==> |phone| == 10 && AllDigits(phone))
  {
    CompactWithinLimit(phone);
    var compact := RemoveWhitespace(phone);
    |compact| == 10 && AllDigits(compact)
  }

  /** Removing whitespace from a string of whitespace leaves nothing. */
  lemma {:induction false} RemoveWhitespaceOfBlank(s: string)
    requires AllWhitespace(s)
    ensures RemoveWhitespace(s) == []
  {
    if s != [] {
      RemoveWhitespaceOfBlank(s[1..]);
    }
  }

  /** Removing whitespace distributes over concatenation. */
  lemma {:induction false} RemoveWhitespaceAppend(a: string, b: string)
    ensures RemoveWhitespace(a + b) == RemoveWhitespace(a) + RemoveWhitespace(b)
  {
    if a == [] {
      assert a + b == b;
    } else {
      assert (a + b)[1..] == a[1..] + b;
      RemoveWhitespaceAppend(a[1..], b);
    }
  }

  /** A string of digits has no whitespace to remove. */
  lemma {:induction false} RemoveWhitespaceOfDigits(s: Digits)
    ensures RemoveWhitespace(s) == s
  {
    if s != [] {
      assert AllDigits(s[1..]);
      RemoveWhitespaceOfDigits(s[1..]);
    }
  }

  /** A number that passes the format check is never blank, so the two alerts never overlap. */
  lemma ValidPhoneNumberNotBlank(phone: string)
    requires ValidPhoneNumber(phone)
    ensures !IsBlank(phone)
  {
    BlankIffAllWhitespace(phone);
    if AllWhitespace(phone) {
      RemoveWhitespaceOfBlank(phone);
    }
  }

  /** The checks of `handleContinue`, in the order they run. */
  function Checks(phone: string): seq<Guard<Error>> {
    [ Guard(!IsBlank(phone), PhoneMissing),
      Guard(ValidPhoneNumber(phone), PhoneInvalid) ]
  }

  /**
   * The gate of `handleContinue`: a blank number is reported as missing before the format is
   * looked at; the request goes out exactly when the format check passes.
   */
  function ContinueGate(phone: string): (r: Outcome<Error>)
    ensures IsBlank(phone) ==> r == Fail(PhoneMissing)
    ensures r == Pass <==> ValidPhoneNumber(phone)
    ensures r.Fail? ==> r.error in {PhoneMissing, PhoneInvalid}
  {
    if IsBlank(phone) then
      assert !ValidPhoneNumber(phone) by {
        if ValidPhoneNumber(phone) { ValidPhoneNumberNotBlank(phone); }
      }
      Fail(PhoneMissing)
    else if !ValidPhoneNumber(phone) then Fail(PhoneInvalid)
    else Pass
  }

  /** The gate reports the first of its checks that fails. */
  lemma ContinueGateIsFirstFailure(phone: string)
    ensures ContinueGate(phone) == FirstFailure(Checks(phone))
  {
    var g := Checks(phone);
    assert g[1..] == [g[1]];
    assert g[1..][1..] == [];
  }

  /** Any ten digits are accepted, whatever the leading digit. */
  lemma TenDigitsAccepted(phone: Digits)
    requires |phone| == 10
    ensures ContinueGate(phone) == Pass
  {
    RemoveWhitespaceOfDigits(phone);
  }

  /** Spaces typed between groups of digits are ignored by the format check. */
  lemma SpacedGroupsAccepted(a: Digits, b: Digits)
    requires |a| + |b| == 10
    ensures ValidPhoneNumber(a + " " + b)
  {
    var front := a + " ";
    assert RemoveWhitespace(front) == a by {
      RemoveWhitespaceAppend(a, " ");
      RemoveWhitespaceOfDigits(a);
      assert RemoveWhitespace(" ") == [];
    }
    assert RemoveWhitespace(front + b) == a + b by {
      RemoveWhitespaceAppend(front, b);
      RemoveWhitespaceOfDigits(b);
    }
    assert AllDigits(a + b) by {
      forall i | 0 <= i < |a + b| ensures IsDigit((a + b)[i]) {
        if i >= |a| { assert (a + b)[i] == b[i - |a|]; }
      }
    }
  }

  /** Removing whitespace keeps the length only when there was none to remove. */
  lemma {:induction false} RemoveWhitespaceKeepsLength(s: string)
    requires |RemoveWhitespace(s)| == |s|
    ensures RemoveWhitespace(s) == s
  {
    if s != [] {
      if IsWhitespace(s[0]) {
        assert false;
      }
      RemoveWhitespaceKeepsLength(s[1..]);
    }
  }

  /** Within ten characters, removing whitespace leaves ten digits only if there was none. */
  lemma CompactWithinLimit(phone: string)
    ensures var compact := RemoveWhitespace(phone);
      |phone| <= MaxLength ==> (|compact| == 10 && AllDigits(compact) <==> |phone| == 10 && AllDigits(phone))
  {
    if |phone| <= MaxLength {
      if |RemoveWhitespace(phone)| == 10 {
        RemoveWhitespaceKeepsLength(phone);
      }
      if AllDigits(phone) {
        RemoveWhitespaceOfDigits(phone);
      }
    }
  }

  /** A number accepted at account creation is also accepted at login. */
  lemma AccountPhoneLogsIn(phone: string)
    requires CA.ValidPhone(phone)
    ensures ContinueGate(phone) == Pass
  {
    TenDigitsAccepted(phone);
  }

  /** The converse does not hold: login accepts a leading 0, which account creation rejects. */
  lemma LeadingZeroOnlyAtLogin()
    ensures ContinueGate("0123456789") == Pass
    ensures !CA.ValidPhone("0123456789")
  {
    TenDigitsAccepted("0123456789");
  }

  /** What an OTP request carries: the number as typed and the user type at the time of the press. */
  datatype OtpRequest = OtpRequest(phoneNumber: string, userType: UserType)

  /** The screen's state: one field per `useState` slot, and where it navigated. */
  class Screen {
    var phoneNumber: string
    var userType: UserType
    var loading: bool
    var navigated: seq<Route>

    constructor ()
      ensures phoneNumber == "" && userType == Doctor && !loading && navigated == []
    {
      phoneNumber := "";
      userType := Doctor;
      loading := false;
      navigated := [];
    }

    method SetPhoneNumber(text: string)
      modifies this
      ensures phoneNumber == text
      ensures userType == old(userType) && loading == old(loading) && navigated == old(navigated)
    {
      phoneNumber := text;
    }

    /** The Patient / Doctor toggle. */
    method SetUserType(t: UserType)
      modifies this
      ensures userType == t
      ensures phoneNumber == old(phoneNumber) && loading == old(loading) && navigated == old(navigated)
    {
      userType := t;
    }

    /**
     * `handleContinue` up to the `await`: when the gate passes, `loading` is set and a request
     * for the typed number goes out; otherwise nothing changes.
     */
    method BeginContinue() returns (r: Outcome<Error>, request: Option<OtpRequest>)
      modifies this
      ensures r == ContinueGate(phoneNumber)
      ensures r == Pass ==> loading && request == Some(OtpRequest(phoneNumber, userType))
      ensures r != Pass ==> loading == old(loading) && request == None
      ensures phoneNumber == old(phoneNumber) && userType == old(userType) && navigated == old(navigated)
    {
      r := ContinueGate(phoneNumber);
      if r != Pass {
        return r, None;
      }
      loading := true;
      request := Some(OtpRequest(phoneNumber, userType));
    }

    /**
     * `handleContinue` after the `await`: `sent` is whether `sendOTP` resolved. On success the
     * flow moves to the OTP screen with the request's number and user type; either way
     * `loading` ends false.
     */
    method CompleteContinue(request: OtpRequest, sent: bool) returns (r: Outcome<Error>)
      modifies this
      ensures r == (if sent then Pass else Fail(SendFailed))
      ensures !loading
      ensures navigated == old(navigated) + (if sent then [Otp(request.phoneNumber, request.userType)] else [])
      ensures phoneNumber == old(phoneNumber) && userType == old(userType)
    {
      if sent {
        navigated := navigated + [Otp(request.phoneNumber, request.userType)];
        r := Pass;
      } else {
        r := Fail(SendFailed);
      }
      loading := false;
    }

    /**
     * The whole of `handleContinue` when nothing happens during the `await`: the flow moves on
     * exactly when the number is valid and the request succeeds, and `loading` is false again
     * whenever it was before.
     */
    method HandleContinue(sent: bool) returns (r: Outcome<Error>)
      modifies this
      ensures ContinueGate(phoneNumber) != Pass ==> r == ContinueGate(phoneNumber)
      ensures ContinueGate(phoneNumber) == Pass ==> r == (if sent then Pass else Fail(SendFailed))
      ensures !old(loading) ==> !loading
      ensures navigated == old(navigated) + (if r == Pass then [Otp(phoneNumber, userType)] else [])
      ensures phoneNumber == old(phoneNumber) && userType == old(userType)
    {
      var request;
      r, request := BeginContinue();
      if request.Some? {
        r := CompleteContinue(request.value, sent);
      }
    }

    /** The "create account" link. */
    method GoToCreateAccount()
      modifies this
      ensures navigated == old(navigated) + [CreateAccount]
      ensures phoneNumber == old(phoneNumber) && userType == old(userType) && loading == old(loading)
    {
      navigated := navigated + [CreateAccount];
    }
  }
}
