/**
 * Shared vocabulary of the onboarding flow: the outcome of a guard chain
 * (an `Alert` becomes a `Fail` carrying an error tag), the routes a screen
 * can navigate to, and the two kinds of user the login screen offers.
 */
module Flow {

  /** A value that may be absent (`null`, a missing key, a string that does not parse). */
  datatype Option<+T> = None | Some(value: T)

  /** Result of an early-return guard chain: `Pass`, or the tag of the first guard that failed. */
  datatype Outcome<+E> = Pass | Fail(error: E)

  /** One check of a guard chain: whether it holds, and the tag reported when it does not. */
  datatype Guard<+E> = Guard(holds: bool, error: E)

  /**
   * A guard chain read as a list: the checks run in order and the first that fails is the
   * outcome; the chain passes only when every check holds.
   */
  function FirstFailure<E>(guards: seq<Guard<E>>): (r: Outcome<E>)
    ensures r == Pass <==> forall i :: 0 <= i < |guards| ==> guards[i].holds
    ensures r.Fail? ==> exists i :: 0 <= i < |guards| && !guards[i].holds && r.error == guards[i].error &&
                                    forall k :: 0 <= k < i ==> guards[k].holds
  {
    if guards == [] then Pass
    else if !guards[0].holds then Fail(guards[0].error)
    else
      var r := FirstFailure(guards[1..]);
      assert r.Fail? ==> exists i :: 0 < i < |guards| && !guards[i].holds && r.error == guards[i].error &&
                                     forall k :: 0 <= k < i ==> guards[k].holds by {
        if r.Fail? {
          var j :| 0 <= j < |guards| - 1 && !guards[1..][j].holds && r.error == guards[1..][j].error &&
                   forall k :: 0 <= k < j ==> guards[1..][k].holds;
          assert forall k :: 0 <= k < j + 1 ==> guards[k].holds by {
            forall k | 0 <= k < j + 1 ensures guards[k].holds {
              if k > 0 { assert guards[k] == guards[1..][k - 1]; }
            }
          }
        }
      }
      r
  }

  /** What a screen handler does in the end: alert with an error tag, or navigate. */
  datatype Navigation<+E> = Alert(error: E) | Navigate(route: Route)

  /** Which kind of account the login screen is for. */
  datatype UserType = Doctor | Patient

  /** The screens `navigation.navigate` is called with; `Otp` carries its route parameters. */
  datatype Route =
    | CreateAccount
    | Otp(phoneNumber: string, userType: UserType)
    | ProfessionalInfo
    | ServiceDetails
    | BankingDetails
    | ThankYou
}
