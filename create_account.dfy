/**
 * The account-creation step: name, e-mail, mobile number, password twice and a preferred
 * language, checked in a fixed order before the flow moves on to professional information.
 */
module CreateAccount {
  import opened Flow
  import opened Text

  datatype Error =
    | NameMissing | EmailMissing | EmailInvalid | PhoneMissing | PhoneInvalid
    | PasswordMissing | PasswordMismatch | LanguageMissing

  datatype Form = Form(name: string, email: string, phone: string, password: string, confirmPassword: string, language: string)

  // ---------------------------------------------------------------- e-mail

  /** `[^\s@]`: anything but whitespace and '@'. */
  predicate EmailChar(c: char) {
    !IsWhitespace(c) && c != '@'
  }

  /** `[^\s@]+`. */
  predicate EmailRun(s: string) {
    |s| > 0 && forall i :: 0 <= i < |s| ==> EmailChar(s[i])
  }

  /** `s` reads as run '@' run '.' run with the '@' at `at` and the '.' at `dot`. */
  predicate EmailSplit(s: string, at: int, dot: int) {
    0 <= at < dot < |s| && s[at] == '@' && s[dot] == '.' &&
    EmailRun(s[..at]) && EmailRun(s[at + 1..dot]) && EmailRun(s[dot + 1..])
  }

  /** The pattern `/^[^\s@]+@[^\s@]+\.[^\s@]+$/` read literally: some way of splitting `s` matches. */
  ghost predicate MatchesEmailPattern(s: string) {
    exists at, dot :: EmailSplit(s, at, dot)
  }

  /** Index of the first `c` in `s`, or `|s|` when there is none. */
  function IndexOf(s: string, c: char): (k: nat)
    ensures k <= |s|
    ensures k < |s| ==> s[k] == c
    ensures forall j :: 0 <= j < k ==> s[j] != c
  {
    if s == [] then 0 else if s[0] == c then 0 else 1 + IndexOf(s[1..], c)
  }

  /** The domain part has a '.' with something on either side of it. */
  predicate HasInnerDot(domain: string) {
    exists j :: 0 < j < |domain| - 1 && domain[j] == '.'
  }

  /**
   * `validateEmail`, computed: cut at the first '@', then check both sides. An accepted
   * address has at least five characters, no whitespace and exactly one '@'.
   */
  predicate ValidEmail(s: string)
    ensures ValidEmail(s) ==> |s| >= 5 && forall i :: 0 <= i < |s| ==> !IsWhitespace(s[i])
    ensures ValidEmail(s) ==> forall i :: 0 <= i < |s| && s[i] == '@' ==> i == IndexOf(s, '@')
  {
    EmailShape(s);
    var at := IndexOf(s, '@');
    at < |s| && EmailRun(s[..at]) && EmailRun(s[at + 1..]) && HasInnerDot(s[at + 1..])
  }

  /** What the conditions of the computed check imply about the whole address. */
  lemma EmailShape(s: string)
    ensures var at := IndexOf(s, '@');
      at < |s| && EmailRun(s[..at]) && EmailRun(s[at + 1..]) && HasInnerDot(s[at + 1..]) ==>
      |s| >= 5 && forall i :: 0 <= i < |s| ==> !IsWhitespace(s[i]) && (s[i] == '@' ==> i == at)
  {
    var at := IndexOf(s, '@');
    if at < |s| && EmailRun(s[..at]) && EmailRun(s[at + 1..]) && HasInnerDot(s[at + 1..]) {
      var domain := s[at + 1..];
      var j :| 0 < j < |domain| - 1 && domain[j] == '.';
      forall i | 0 <= i < |s| ensures !IsWhitespace(s[i]) && (s[i] == '@' ==> i == at) {
        if i < at {
          assert s[i] == s[..at][i];
        } else if i > at {
          assert s[i] == domain[i - at - 1];
        }
      }
    }
  }

  /** The computed check accepts exactly the strings the pattern matches. */
  lemma ValidEmailIff(s: string)
    ensures ValidEmail(s) <==> MatchesEmailPattern(s)
  {
    if ValidEmail(s) {
      ValidEmailMatches(s);
    }
    if MatchesEmailPattern(s) {
      var a, d :| EmailSplit(s, a, d);
      SplitIsValid(s, a, d);
    }
  }

  /** A string the computed check accepts splits as the pattern demands. */
  lemma ValidEmailMatches(s: string)
    requires ValidEmail(s)
    ensures MatchesEmailPattern(s)
  {
    var at := IndexOf(s, '@');
    var domain := s[at + 1..];
    var j :| 0 < j < |domain| - 1 && domain[j] == '.';
    var dot := at + 1 + j;
    assert s[at + 1..dot] == domain[..j];
    assert s[dot + 1..] == domain[j + 1..];
    assert EmailSplit(s, at, dot);
  }

  /** Any split the pattern accepts has its '@' first, so the computed check accepts it too. */
  lemma SplitIsValid(s: string, a: int, d: int)
    requires EmailSplit(s, a, d)
    ensures ValidEmail(s)
  {
    assert forall k :: 0 <= k < a ==> s[k] == s[..a][k];
    assert IndexOf(s, '@') == a;
    var domain := s[a + 1..];
    assert forall k :: 0 <= k < |domain| ==> EmailChar(domain[k]) by {
      forall k | 0 <= k < |domain| ensures EmailChar(domain[k]) {
        if k < d - a - 1 {
          assert domain[k] == s[a + 1..d][k];
        } else if k > d - a - 1 {
          assert domain[k] == s[d + 1..][k - (d - a)];
        }
      }
    }
    assert domain[d - a - 1] == '.';
  }

  /** A single '@' is needed: a string with two of them never passes. */
  lemma TwoAtSignsRejected(s: string, i: int, j: int)
    requires 0 <= i < j < |s| && s[i] == '@' && s[j] == '@'
    ensures !ValidEmail(s)
  {
  }

  // ---------------------------------------------------------------- phone

  /**
   * `validatePhone`: `/^[6-9]\d{9}$/`, ten digits of which the first is 6 to 9; that is,
   * exactly the ten-digit strings that denote at least 6000000000.
   */
  predicate ValidPhone(s: string)
    ensures ValidPhone(s) <==> |s| == 10 && AllDigits(s) && DigitsValue(s) >= 6_000_000_000
  {
    LeadingDigit(s);
    |s| == 10 && AllDigits(s) && '6' <= s[0] <= '9'
  }

  /** In ten digits the first one is worth a thousand million times its digit. */
  lemma LeadingDigit(s: string)
    ensures |s| == 10 && AllDigits(s) ==>
      DigitsValue(s) == DigitValue(s[0]) * 1_000_000_000 + DigitsValue(s[1..]) &&
      DigitsValue(s[1..]) < 1_000_000_000
  {
    if |s| == 10 && AllDigits(s) {
      var head, tail := s[..1], s[1..];
      assert AllDigits(tail);
      assert s == head + tail;
      DigitsValueAppend(head, tail);
      assert head[..0] == [];
      assert Pow10(|tail|) == 1_000_000_000;
    }
  }

  // ---------------------------------------------------------------- the chain

  /** `handleCreateAccount`: the first failing check raises its alert; when none fails, go on. */
  function HandleCreateAccount(f: Form): (r: Navigation<Error>)
    ensures r.Navigate? ==> r.route == ProfessionalInfo
  {
    if IsBlank(f.name) then Alert(NameMissing)
    else if IsBlank(f.email) then Alert(EmailMissing)
    else if !ValidEmail(f.email) then Alert(EmailInvalid)
    else if IsBlank(f.phone) then Alert(PhoneMissing)
    else if !ValidPhone(f.phone) then Alert(PhoneInvalid)
    else if IsBlank(f.password) then Alert(PasswordMissing)
    else if f.password != f.confirmPassword then Alert(PasswordMismatch)
    else if f.language == "" then Alert(LanguageMissing)
    else Navigate(ProfessionalInfo)
  }

  /** A well-formed e-mail address is never blank. */
  lemma ValidEmailNotBlank(s: string)
    requires ValidEmail(s)
    ensures !IsBlank(s)
  {
    BlankIffAllWhitespace(s);
    assert EmailChar(s[..IndexOf(s, '@')][0]);
  }

  /** A well-formed phone number is never blank. */
  lemma ValidPhoneNotBlank(s: string)
    requires ValidPhone(s)
    ensures !IsBlank(s)
  {
    BlankIffAllWhitespace(s);
    assert !IsWhitespace(s[0]);
  }

  /**
   * The flow moves on exactly when the name and password are present, the e-mail and phone
   * are well formed, the confirmation repeats the password, and a language is chosen.
   */
  lemma NavigatesIff(f: Form)
    ensures HandleCreateAccount(f).Navigate? <==>
      !IsBlank(f.name) && ValidEmail(f.email) && ValidPhone(f.phone) &&
      !IsBlank(f.password) && f.password == f.confirmPassword && f.language != ""
  {
    if ValidEmail(f.email) { ValidEmailNotBlank(f.email); }
    if ValidPhone(f.phone) { ValidPhoneNotBlank(f.phone); }
  }

  /** The checks of `handleCreateAccount`, in the order they run. */
  function Checks(f: Form): seq<Guard<Error>> {
    [ Guard(!IsBlank(f.name), NameMissing),
      Guard(!IsBlank(f.email), EmailMissing),
      Guard(ValidEmail(f.email), EmailInvalid),
      Guard(!IsBlank(f.phone), PhoneMissing),
      Guard(ValidPhone(f.phone), PhoneInvalid),
      Guard(!IsBlank(f.password), PasswordMissing),
      Guard(f.password == f.confirmPassword, PasswordMismatch),
      Guard(f.language != "", LanguageMissing) ]
  }

  /** The alert raised is the one of the first check, in the listed order, that fails. */
  lemma FirstFailureWins(f: Form)
    ensures var r := HandleCreateAccount(f);
      match FirstFailure(Checks(f))
      case Pass => r == Navigate(ProfessionalInfo)
      case Fail(e) => r == Alert(e)
  {
    var g := Checks(f);
    if FirstFailure(g).Pass? {
      NavigatesIff(f);
      assert g[0].holds && g[2].holds && g[4].holds && g[5].holds && g[6].holds && g[7].holds;
    } else {
      FailureIsFirst(f);
    }
  }

  lemma FailureIsFirst(f: Form)
    requires FirstFailure(Checks(f)).Fail?
    ensures HandleCreateAccount(f) == Alert(FirstFailure(Checks(f)).error)
  {
    var g := Checks(f);
    var i :| 0 <= i < |g| && !g[i].holds && FirstFailure(g).error == g[i].error && forall k :: 0 <= k < i ==> g[k].holds;
    if i == 0 {
    } else if i == 1 {
      assert g[0].holds;
    } else if i == 2 {
      assert g[0].holds && g[1].holds;
    } else if i == 3 {
      assert g[0].holds && g[1].holds && g[2].holds;
    } else if i == 4 {
      assert g[0].holds && g[1].holds && g[2].holds && g[3].holds;
    } else if i == 5 {
      assert g[0].holds && g[1].holds && g[2].holds && g[3].holds && g[4].holds;
    } else if i == 6 {
      assert g[0].holds && g[1].holds && g[2].holds && g[3].holds && g[4].holds && g[5].holds;
    } else {
      assert g[0].holds && g[1].holds && g[2].holds && g[3].holds && g[4].holds && g[5].holds && g[6].holds;
    }
  }

  /** Passwords are compared as typed: a confirmation with a trailing space does not match. */
  lemma PaddedConfirmationRejected(f: Form)
    requires f.confirmPassword == f.password + " "
    ensures HandleCreateAccount(f).Alert?
  {
    assert |f.password| != |f.confirmPassword|;
  }
}
