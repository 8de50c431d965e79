/**
 * The OTP step: six one-character boxes, focus moving forward as digits are typed, and a
 * verify button that sends the joined code once all six characters are there.
 */
module OtpEntry {
  import opened Flow

  datatype Error = OtpIncomplete | VerifyFailed

  /** The number of OTP boxes. */
  const Slots: nat := 6

  /** `otp.join('')`. */
  function Join(parts: seq<string>): string {
    if parts == [] then "" else parts[0] + Join(parts[1..])
  }

  /** How many boxes hold something. */
  function FilledCount(parts: seq<string>): (n: nat)
    ensures n <= |parts|
  {
    if parts == [] then 0 else (if parts[0] != "" then 1 else 0) + FilledCount(parts[1..])
  }

  /** Every box holds at most one character, as `maxLength={1}` ensures. */
  predicate AtMostOneChar(parts: seq<string>) {
    forall i :: 0 <= i < |parts| ==> |parts[i]| <= 1
  }

  /** With single-character boxes, the joined code is as long as the number of filled boxes. */
  lemma {:induction false} JoinedLength(parts: seq<string>)
    requires AtMostOneChar(parts)
    ensures |Join(parts)| == FilledCount(parts)
  {
    if parts != [] {
      JoinedLength(parts[1..]);
    }
  }

  /** A count equal to the length means no box is empty, and conversely. */
  lemma {:induction false} FullCountIffAllFilled(parts: seq<string>)
    ensures FilledCount(parts) == |parts| <==> forall i :: 0 <= i < |parts| ==> parts[i] != ""
  {
    if parts != [] {
      FullCountIffAllFilled(parts[1..]);
      if forall i :: 0 <= i < |parts| ==> parts[i] != "" {
        assert forall i :: 0 <= i < |parts| - 1 ==> parts[1..][i] == parts[i + 1];
      }
      if FilledCount(parts) == |parts| {
        forall i | 0 <= i < |parts| ensures parts[i] != "" {
          if i > 0 { assert parts[i] == parts[1..][i - 1]; }
        }
      }
    }
  }

  /**
   * The verify gate in the boxes' own terms: with single-character boxes the joined code has
   * six characters exactly when every one of the six boxes is filled.
   */
  lemma CompleteIffAllFilled(otp: seq<string>)
    requires |otp| == Slots && AtMostOneChar(otp)
    ensures |Join(otp)| == Slots <==> forall i :: 0 <= i < Slots ==> otp[i] != ""
  {
    JoinedLength(otp);
    FullCountIffAllFilled(otp);
  }

  /** Writing at most one character into one box keeps every box at most one character. */
  lemma UpdateKeepsOneChar(otp: seq<string>, index: nat, value: string)
    requires AtMostOneChar(otp) && index < |otp| && |value| <= 1
    ensures AtMostOneChar(otp[index := value])
  {
  }

  /** Whether `handleOtpChange` moves the focus to the next box. */
  predicate Advances(value: string, index: nat) {
    value != "" && index < Slots - 1
  }

  /** The screen's state: the `otp` and `loading` slots, the number it was opened with, and where it navigated. */
  class Screen {
    var otp: seq<string>
    var loading: bool
    /** `route?.params?.phoneNumber || ''`. */
    const phoneNumber: string
    var navigated: seq<Route>

    predicate Valid()
      reads this
    {
      |otp| == Slots
    }

    constructor (phoneParam: Option<string>)
      ensures Valid() && otp == ["", "", "", "", "", ""] && !loading && navigated == []
      ensures phoneNumber == (if phoneParam.Some? then phoneParam.value else "")
    {
      otp := ["", "", "", "", "", ""];
      loading := false;
      phoneNumber := if phoneParam.Some? then phoneParam.value else "";
      navigated := [];
    }

    /**
     * `handleOtpChange`: box `index` takes `value`, every other box keeps its content, and
     * the result says whether the focus moves on.
     */
    method HandleOtpChange(value: string, index: nat) returns (advance: bool)
      requires Valid() && index < Slots
      modifies this
      ensures Valid()
      ensures otp[index] == value && forall i :: 0 <= i < Slots && i != index ==> otp[i] == old(otp[i])
      ensures advance == Advances(value, index)
      ensures loading == old(loading) && navigated == old(navigated)
    {
      otp := otp[index := value];
      advance := value != "" && index < 5;
    }

    /**
     * `handleVerify` up to the `await`: a code of other than six characters is rejected and
     * nothing changes; otherwise `loading` is set and the joined code goes out.
     */
    method BeginVerify() returns (r: Outcome<Error>, code: Option<string>)
      requires Valid()
      modifies this
      ensures Valid() && otp == old(otp) && navigated == old(navigated)
      ensures r == Pass <==> |Join(otp)| == Slots
      ensures r != Pass ==> r == Fail(OtpIncomplete) && code == None && loading == old(loading)
      ensures r == Pass ==> code == Some(Join(otp)) && |code.value| == Slots && loading
    {
      var otpCode := Join(otp);
      if |otpCode| != 6 {
        return Fail(OtpIncomplete), None;
      }
      loading := true;
      r, code := Pass, Some(otpCode);
    }

    /**
     * `handleVerify` after the `await`: `verified` is whether `verifyOTP` resolved. Success
     * moves to the closing screen; either way `loading` ends false.
     */
    method CompleteVerify(verified: bool) returns (r: Outcome<Error>)
      requires Valid()
      modifies this
      ensures Valid() && otp == old(otp) && !loading
      ensures r == (if verified then Pass else Fail(VerifyFailed))
      ensures navigated == old(navigated) + (if verified then [ThankYou] else [])
    {
      if verified {
        navigated := navigated + [ThankYou];
        r := Pass;
      } else {
        r := Fail(VerifyFailed);
      }
      loading := false;
    }
  }
}
