# Doctor onboarding flow: a verified model

This project models the decision logic of a React Native onboarding app for doctors (MedGoPlus).
A doctor logs in with a phone number and a one-time password, or creates an account. The doctor
then fills in user and professional information, prices home and video consultations, and gives
banking details before reaching a thank-you screen.

What is modelled:

- **Two pricing engines.** `PricingEngine` holds the arithmetic both widgets share. It has a flat
  fee and a percentage fee, with JavaScript's `Math.round` written out on whole rupees.
  - `PricingCalculator` is the flat ₹200 widget. It strips each input to its digits, writes the
    other input, and reports to the parent.
  - `ConsultationPricing` is the per-channel percentage widget: 20% for home visits, 10% for video.
    Each channel has a checkbox, an earn / set-price radio, and the `pricingData` record it hands
    to the parent.
- **The step gates.** These are ordered chains of checks, each a total function over the form. The
  first failing check raises its alert:
  - `Login`: phone format, then the OTP request;
  - `CreateAccount`: e-mail and phone patterns, passwords;
  - `ProfessionalInfo`;
  - `ServiceDetails`: the radius, and at least one priced channel;
  - `BankingDetails`: the terms, then bank account or a verified UPI ID;
  - `UserInformation`: address and certificates.

  `Flow.FirstFailure` is the reference meaning of such a chain, and each gate is proved equal to it.
- **Small list and state operations:**
  - the OTP boxes (`OtpEntry`);
  - the specialization list with de-duplicated append and filter-removal (`SpecializationSelector`);
  - the category lookup and submit / cancel of `SpecializationModal`;
  - the case-insensitive area search (`AreaDropdown`);
  - the step predicates of `ProgressIndicator`.

How the model is built:

- A screen's `useState` slots become the fields of a class. Its setters become methods with
  `modifies` clauses that state the whole new state.
- `Alert.alert` becomes an error value: `Outcome.Fail` or `Navigation.Alert`.
- `navigation.navigate` becomes appending a `Route` to a `navigated` field, or returning
  `Navigate(route)` from a pure handler.
- An asynchronous handler is split at its `await` into a `Begin…` method and a `Complete…` method.
  The outcome of the network call is a parameter of the second.
- Text is `seq<char>`.
- JavaScript's `trim`, `\s`, `toLowerCase` / `toUpperCase`, `includes` and `parseFloat` are
  written out in `Text`.

The two percentage conversions in `src/components/ConsultationPricing.jsx:20-32` are not exact
inverses. One adds `rate` percent of the earnings and rounds. The other subtracts `rate` percent of
the price and rounds on its own. For example, ₹1000 at 20% becomes a price of ₹1200, and ₹1200
becomes earnings of ₹960. `PricingEngine.WorkedValues` records that example.
`PricingEngine.PercentRoundTripNeverGains` proves that the round trip never returns more than the
doctor asked for.

## Model

| member | source | states |
|---|---|---|
| Flow.FirstFailure | src/screens/CreateAccountScreen.js:48-81 | an ordered chain of checks passes iff every check holds; otherwise it reports the error of the first failing check, all earlier checks holding |
| Text.BlankIffAllWhitespace | src/screens/CreateAccountScreen.js:49 | `!s.trim()` holds exactly when every character of `s` is JavaScript whitespace |
| Text.KeepDigits | src/components/PricingCalculator.js:20 | `replace(/[^0-9]/g, '')` keeps exactly the digits of the input and never lengthens it |
| Text.KeepDigitsAppend | src/components/PricingCalculator.js:20 | stripping non-digits distributes over concatenation, so the digits keep their order |
| Text.KeepDigitsOfDigits | src/components/PricingCalculator.js:44 | an input that is already all digits is stored unchanged |
| Text.DigitsValueOfNatToDigits | src/components/PricingCalculator.js:27 | `toString` of a whole number, read back with `parseFloat`, gives the number |
| Text.SixDigitsBound | src/components/PricingCalculator.js:91 | a digit string of at most six characters denotes at most 999999 |
| Text.IncludesIff | src/components/AreaDropdown.js:23 | `includes` holds exactly when the needle occurs at some position of the haystack |
| Text.ParseDecimal | src/screens/ServiceDetailsScreen.js:46 | a number read from a numeric field is never read from a blank string; it is an exact decimal (sign, digits, places after the point) |
| Text.DecimalOfDigits | src/screens/ServiceDetailsScreen.js:46-47 | a non-empty digit string parses to the whole number it denotes, with no places after the point |
| Text.DecimalOfNegatedDigits | src/screens/ProfessionalInfoScreen.js:39-40 | a minus sign before digits parses to the negated number |
| Text.DecimalOfFraction | src/screens/ServiceDetailsScreen.js:46-47 | `w.f` (digits on at least one side of the point) parses to all its digits read as one number, with `|f|` places after the point |
| Text.DigitsValueAppend | src/screens/ServiceDetailsScreen.js:46 | the digits before the point are worth 10^`|f|` times their own value, so `w.f` denotes w + f / 10^`|f|` |
| Text.ForeignCharRejected | src/screens/ServiceDetailsScreen.js:46-47 | text holding any character other than whitespace, a sign, a digit or '.' is not a number, so it fails the check that follows |
| PricingEngine.RoundCents | src/components/ConsultationPricing.jsx:22 | `Math.round` of a non-negative amount in hundredths is the nearest whole number, halves rounded up |
| PricingEngine.PriceCoversEarnings | src/components/ConsultationPricing.jsx:20-23 | a price derived from earnings is never below the earnings, under either fee model |
| PricingEngine.EarningsWithinPrice | src/components/ConsultationPricing.jsx:25-28 | earnings derived from a price never exceed the price |
| PricingEngine.PriceMonotone | src/components/ConsultationPricing.jsx:20-23 | higher earnings never give a lower price |
| PricingEngine.EarningsMonotone | src/components/ConsultationPricing.jsx:25-28 | a higher price never gives lower earnings |
| PricingEngine.FlatRoundTrip | src/components/PricingCalculator.js:26-50 | with a flat fee, earnings → price → earnings gives back the earnings exactly |
| PricingEngine.FlatPriceRoundTrip | src/components/PricingCalculator.js:26-50 | with a flat fee, price → earnings → price gives the price back, or the fee when the price was below it |
| PricingEngine.PercentRoundTripNeverGains | src/components/ConsultationPricing.jsx:20-38 | with a percentage fee below 100%, earnings → price → earnings never exceeds the earnings |
| PricingEngine.PercentPricePositive | src/components/ConsultationPricing.jsx:20-23 | a percentage price is positive exactly when the earnings are |
| PricingEngine.WorkedValues | src/components/ConsultationPricing.jsx:20-28 | 800 ↔ 1000 with the flat fee, 100 → 0, 1000 → 1200 → 960 at 20%, 900 → 990 → 891 at 10% |
| PricingCalculator.AfterEarningChange | src/components/PricingCalculator.js:19-30 | after an earning edit the earning is the digits typed; the price is empty with it, and otherwise the earning plus 200 |
| PricingCalculator.AfterPriceChange | src/components/PricingCalculator.js:43-54 | after a price edit the price is the digits typed; the earning is empty with it, and otherwise max(0, price − 200) |
| PricingCalculator.FormatCurrency | src/components/PricingCalculator.js:67-70 | the display is '₹' followed by digits that denote the amount |
| PricingCalculator.PatientWillPay | src/components/PricingCalculator.js:73 | the "patient will pay" display is 0 while the earning input is empty, and otherwise the flat-fee price of the earning, at least 200 |
| PricingCalculator.DoctorWillEarn | src/components/PricingCalculator.js:74 | the "you will earn" display is 0 while the price input is empty, never above the price, and the price less 200 once the price reaches 200 |
| PricingCalculator.EarningChangeReport | src/components/PricingCalculator.js:33-38 | the report after an earning edit carries fee 200, the earning typed, and the flat-fee price of it, both 0 when no digit was typed |
| PricingCalculator.PriceChangeReport | src/components/PricingCalculator.js:57-63 | the report after a price edit carries fee 200 and the price typed; its earning is never above the price, is the price less 200 from 200 up and 0 below |
| PricingCalculator.EarningReportConsistent | src/components/PricingCalculator.js:33-73 | the report after an earning edit carries fee 200 and the stored earning, and its price equals the "patient will pay" display and the stored price |
| PricingCalculator.PriceReportConsistent | src/components/PricingCalculator.js:57-74 | the report after a price edit carries fee 200 and the stored price, and its earning equals the "you will earn" display and the stored earning |
| PricingCalculator.EarningPriceRoundTrip | src/components/PricingCalculator.js:24-51 | typing an earning and then typing the computed price into the price input restores the earning text exactly |
| PricingCalculator.InputsBounded | src/components/PricingCalculator.js:91-117 | inputs limited to six characters never hold more than 999999 |
| PricingCalculator.Calculator.HandleDoctorEarningChange | src/components/PricingCalculator.js:19-40 | both inputs become `AfterEarningChange(value)`; one report is appended exactly when a callback was passed; the focus is untouched |
| PricingCalculator.Calculator.HandlePatientPriceChange | src/components/PricingCalculator.js:43-64 | both inputs become `AfterPriceChange(value)`; one report is appended exactly when a callback was passed; the focus is untouched |
| PricingCalculator.Calculator.Focus | src/components/PricingCalculator.js:92-118 | focusing an input records it and changes nothing else |
| ConsultationPricing.FeeOf | src/components/ConsultationPricing.jsx:22-32 | each channel's fee is a percentage below 100% |
| ConsultationPricing.FinalPrice | src/components/ConsultationPricing.jsx:20-33 | the final price is at least the earnings, and 0 for an empty input |
| ConsultationPricing.Earnings | src/components/ConsultationPricing.jsx:25-38 | the derived earnings are at most the price, and 0 for an empty input |
| ConsultationPricing.ClosedForms | src/components/ConsultationPricing.jsx:20-38 | home: price round(1.2e), earnings round(0.8p); video: price round(1.1e), earnings round(0.9p) |
| ConsultationPricing.SwitchingBackAndForthClears | src/components/ConsultationPricing.jsx:104-133 | switching the radio one way and back leaves both amounts empty |
| ConsultationPricing.ReenableStartsAfresh | src/components/ConsultationPricing.jsx:87-94 | unchecking and re-checking a channel resets its option and both amounts |
| ConsultationPricing.Report | src/components/ConsultationPricing.jsx:43-54 | a report copies the flag and option; under 'earn' the earnings are the typed text and the price is `FinalPrice` of it, under any other option the price is the typed text and the earnings are `Earnings` of it; the reported price is never below the reported earnings |
| ConsultationPricing.ReportPositiveIff | src/components/ConsultationPricing.jsx:46-47 | a report shows a positive amount exactly when the input it is computed from holds a positive number |
| ConsultationPricing.Pricing.ToggleChannel | src/components/ConsultationPricing.jsx:87-94 | checking resets the channel's option and amounts; unchecking keeps them; the other channel is untouched (the video checkbox, lines 159-166, is alike) |
| ConsultationPricing.Pricing.SelectEarn | src/components/ConsultationPricing.jsx:104-107 | 'earn' is chosen and the price input cleared; the other channel is untouched (video: lines 176-179) |
| ConsultationPricing.Pricing.SelectSetPrice | src/components/ConsultationPricing.jsx:130-133 | 'setPrice' is chosen and the earnings input cleared; the other channel is untouched (video: lines 202-205) |
| ConsultationPricing.Pricing.EditEarnings | src/components/ConsultationPricing.jsx:119 | only the channel's earnings text changes (video: line 191) |
| ConsultationPricing.Pricing.EditPatientPrice | src/components/ConsultationPricing.jsx:145 | only the channel's price text changes (video: line 217) |
| ServiceDetails.ValidateInputs | src/screens/ServiceDetailsScreen.js:40-64 | a blank radius is reported as missing; a radius that is not a positive number as invalid; "no priced channel" exactly when the radius is positive and neither channel is enabled with a positive amount; the gate passes iff the radius is positive and some channel is priced |
| ServiceDetails.FirstFailureWins | src/screens/ServiceDetailsScreen.js:40-64 | the gate reports the first failing check in the order radius present, radius positive, some channel priced |
| ServiceDetails.WholeRadiusAccepted | src/screens/ServiceDetailsScreen.js:46-50 | a non-zero whole-number radius passes the radius checks |
| ServiceDetails.GateOnWidgetState | src/screens/ServiceDetailsScreen.js:53-61 | on the widget's own state, the gate passes iff the radius is positive and some enabled channel's source input is positive |
| ServiceDetails.DisabledChannelIgnored | src/screens/ServiceDetailsScreen.js:53-56 | a disabled channel never counts as priced |
| ServiceDetails.Screen.HandlePricingChange | src/screens/ServiceDetailsScreen.js:36-38 | the latest record is stored; nothing else changes |
| ServiceDetails.Screen.HandleNext | src/screens/ServiceDetailsScreen.js:66-70 | navigates to banking details exactly when `ValidateInputs` passes |
| BankingDetails.ValidateInputs | src/screens/BankingDetailsScreen.js:45-71 | unaccepted terms fail first; by UPI, an unverified or blank ID fails; by bank, a missing field is reported first, then a malformed account number, then a malformed IFSC; the gate passes iff the chosen method's fields are complete |
| BankingDetails.FirstFailureWins | src/screens/BankingDetailsScreen.js:45-71 | the gate reports the first failing check: terms, then the chosen method's checks in source order |
| BankingDetails.UpiIgnoresBankingFields | src/screens/BankingDetailsScreen.js:64-69 | paying by UPI, the bank name, account number and IFSC do not affect the outcome |
| BankingDetails.BankingIgnoresUpiFields | src/screens/BankingDetailsScreen.js:51-63 | paying by bank, the UPI ID and its verification do not affect the outcome |
| BankingDetails.ValidAccountNumberNotBlank | src/screens/BankingDetailsScreen.js:52-56 | a well-formed account number is never blank |
| BankingDetails.PaddedAccountNumberRejected | src/screens/BankingDetailsScreen.js:56 | an account number starting with a space is rejected although it is not blank |
| BankingDetails.StoredIfsc | src/screens/BankingDetailsScreen.js:143 | the stored IFSC is the typed text with each character upper-cased in place: the same length, no lower-case letter, unchanged by upper-casing again |
| BankingDetails.VerifyUpi | src/screens/BankingDetailsScreen.js:36-43 | a blank UPI ID fails and leaves the flag; any other ID passes and sets it |
| BankingDetails.Screen.SetIfscNumber | src/screens/BankingDetailsScreen.js:143 | the IFSC field takes the upper-cased text; nothing else changes |
| BankingDetails.Screen.SetUpiId | src/screens/BankingDetailsScreen.js:155 | editing the UPI ID leaves an earlier verification standing |
| BankingDetails.Screen.HandleVerifyUpi | src/screens/BankingDetailsScreen.js:36-43 | outcome and flag are those of `VerifyUpi`; nothing else changes |
| BankingDetails.Screen.ToggleTerms | src/screens/BankingDetailsScreen.js:181 | only the terms flag flips |
| BankingDetails.Screen.HandleCreateAccount | src/screens/BankingDetailsScreen.js:73-77 | navigates to the thank-you screen exactly when the inputs validate |
| CreateAccount.ValidEmail | src/screens/CreateAccountScreen.js:38-41 | an accepted address has at least five characters, no whitespace and exactly one '@' |
| CreateAccount.ValidPhone | src/screens/CreateAccountScreen.js:43-46 | `/^[6-9]\d{9}$/` accepts exactly the ten-digit strings that denote at least 6000000000 |
| CreateAccount.ValidEmailIff | src/screens/CreateAccountScreen.js:38-41 | the computed e-mail check accepts exactly the strings `/^[^\s@]+@[^\s@]+\.[^\s@]+$/` matches |
| CreateAccount.TwoAtSignsRejected | src/screens/CreateAccountScreen.js:39 | an address with two '@' is never accepted |
| CreateAccount.HandleCreateAccount | src/screens/CreateAccountScreen.js:48-82 | the only navigation is to professional information |
| CreateAccount.ValidEmailNotBlank | src/screens/CreateAccountScreen.js:53-57 | a well-formed e-mail is never blank |
| CreateAccount.ValidPhoneNotBlank | src/screens/CreateAccountScreen.js:61-65 | a well-formed phone number is never blank |
| CreateAccount.NavigatesIff | src/screens/CreateAccountScreen.js:48-81 | the flow moves on iff the name and password are present, e-mail and phone are well formed, the passwords match and a language is chosen |
| CreateAccount.FirstFailureWins | src/screens/CreateAccountScreen.js:48-81 | the alert is that of the first failing check in the order name, e-mail, e-mail format, phone, phone format, password, match, language |
| CreateAccount.PaddedConfirmationRejected | src/screens/CreateAccountScreen.js:73-76 | the confirmation is compared untrimmed: a trailing space makes it differ |
| Login.ValidPhoneNumber | src/screens/LoginScreen.js:14-17 | within the field's ten-character limit (line 77), the format check accepts exactly ten digits and nothing else |
| Login.ValidPhoneNumberNotBlank | src/screens/LoginScreen.js:14-23 | a number that passes the format check is never blank |
| Login.ContinueGate | src/screens/LoginScreen.js:19-27 | a blank number is reported as missing; the gate passes iff whitespace-free it is ten digits |
| Login.ContinueGateIsFirstFailure | src/screens/LoginScreen.js:20-27 | the gate reports the first failing check, blank before format |
| Login.TenDigitsAccepted | src/screens/LoginScreen.js:15 | any ten digits pass, whatever the first one |
| Login.SpacedGroupsAccepted | src/screens/LoginScreen.js:16 | the check ignores spaces between groups of digits; such text has eleven characters, so the field's limit (line 77) keeps it from being typed |
| Login.AccountPhoneLogsIn | src/screens/LoginScreen.js:14-17 | every number account creation accepts is accepted at login |
| Login.LeadingZeroOnlyAtLogin | src/screens/LoginScreen.js:15 | a leading 0 passes at login but not at account creation |
| Login.Screen.constructor | src/screens/LoginScreen.js:10-12 | the number is empty, the user type Doctor, not loading |
| Login.Screen.BeginContinue | src/screens/LoginScreen.js:19-31 | when the gate passes, loading is set and a request for the typed number and user type goes out; otherwise nothing changes |
| Login.Screen.CompleteContinue | src/screens/LoginScreen.js:31-37 | loading ends false; on success the flow moves to the OTP screen with the request's number and user type |
| Login.Screen.HandleContinue | src/screens/LoginScreen.js:19-38 | the flow moves on iff the number is valid and the request succeeds; loading is false afterwards |
| Login.Screen.GoToCreateAccount | src/screens/LoginScreen.js:40-42 | navigates to account creation |
| ProfessionalInfo.Validate | src/screens/ProfessionalInfoScreen.js:21-45 | no specialization fails first; passes iff there is a specialization, area and address are present and the experience is a number ≥ 0 |
| ProfessionalInfo.FirstFailureWins | src/screens/ProfessionalInfoScreen.js:22-43 | the alert is that of the first failing check: specialization, experience, area, address, experience format |
| ProfessionalInfo.ZeroExperienceAccepted | src/screens/ProfessionalInfoScreen.js:39-43 | zero years of experience is accepted |
| ProfessionalInfo.WholeYearsAccepted | src/screens/ProfessionalInfoScreen.js:39-43 | any whole number of years typed as digits is accepted |
| ProfessionalInfo.NegativeExperienceRejected | src/screens/ProfessionalInfoScreen.js:40 | a negative number of years is rejected |
| ProfessionalInfo.HandleNext | src/screens/ProfessionalInfoScreen.js:51-55 | navigates to service details exactly when the form validates, else raises the validation's alert |
| SpecializationSelector.CategoryListMatchesTable | src/components/SpecializationSelector.js:10-19 | the category list offers the table's eight categories, each once |
| SpecializationSelector.Entry | src/components/SpecializationSelector.js:23 | an entry is the category, then " - ", then the specialization |
| SpecializationSelector.AppendIfAbsent | src/components/SpecializationSelector.js:24-26 | the entry ends up in the list, nothing else is added, the old list is a prefix, a list already holding the entry is returned unchanged, and a duplicate-free list stays duplicate-free |
| SpecializationSelector.RemoveAll | src/components/SpecializationSelector.js:39-42 | removal keeps exactly the elements different from the entry |
| SpecializationSelector.RemoveAllAppend | src/components/SpecializationSelector.js:40 | removal distributes over concatenation, so the kept elements stay in order |
| SpecializationSelector.RemoveAllCounts | src/components/SpecializationSelector.js:40 | removal takes out every occurrence and changes no other element's count |
| SpecializationSelector.RemoveAllKeepsNoDuplicates | src/components/SpecializationSelector.js:40 | a duplicate-free list stays duplicate-free |
| SpecializationSelector.AddThenRemove | src/components/SpecializationSelector.js:24-42 | adding a new entry and removing it gives back the list |
| SpecializationSelector.SubmitIdempotent | src/components/SpecializationSelector.js:21-31 | a second submit changes nothing |
| SpecializationSelector.SubmitAddsOnce | src/components/SpecializationSelector.js:21-31 | after a submit with both picks the entry is in the list exactly once, the old list is kept in order, picks are cleared and the modal hidden |
| SpecializationSelector.PickCategoryThenSubmitAddsNothing | src/components/SpecializationSelector.js:92-95 | choosing a category clears the specialization, so an immediate submit (line 22) adds nothing |
| SpecializationSelector.Selector.HandleSubmit | src/components/SpecializationSelector.js:21-31 | the new state is `Submit` of the old |
| SpecializationSelector.Selector.HandleCancel | src/components/SpecializationSelector.js:33-37 | both picks are cleared and the modal hidden; the list is untouched |
| SpecializationSelector.Selector.SelectCategory | src/components/SpecializationSelector.js:92-95 | the category is set and the specialization cleared |
| SpecializationSelector.Selector.RemoveSpecialization | src/components/SpecializationSelector.js:39-42 | the list becomes `RemoveAll` of the old list; nothing else changes |
| OtpEntry.JoinedLength | src/screens/OTPScreen.js:26 | with one-character boxes (line 76), the joined code is as long as the number of filled boxes |
| OtpEntry.CompleteIffAllFilled | src/screens/OTPScreen.js:26-30 | with one-character boxes (line 76), the code has six characters iff all six boxes are filled |
| OtpEntry.UpdateKeepsOneChar | src/screens/OTPScreen.js:15-18 | writing at most one character (the limit of line 76) into a box keeps every box at most one character |
| OtpEntry.Screen.constructor | src/screens/OTPScreen.js:10-13 | the OTP starts as six empty boxes, not loading; the number is the route's or empty |
| OtpEntry.Screen.HandleOtpChange | src/screens/OTPScreen.js:15-23 | only box `index` changes, the length stays six, and the focus advances iff the value is non-empty and the box is not the last |
| OtpEntry.Screen.BeginVerify | src/screens/OTPScreen.js:25-32 | a code of other than six characters is rejected with nothing changed; otherwise loading is set and the six-character code goes out |
| OtpEntry.Screen.CompleteVerify | src/screens/OTPScreen.js:33-41 | loading ends false; success navigates to the thank-you screen |
| AreaDropdown.Filter | src/components/AreaDropdown.js:22-24 | the filtered list holds exactly the areas whose lower-case form includes the lower-case search |
| AreaDropdown.FilterIsSubsequence | src/components/AreaDropdown.js:22-24 | filtering only deletes, keeping the order |
| AreaDropdown.FilteredAreasShape | src/components/AreaDropdown.js:11-24 | the shown areas are an order-preserving selection of the eight areas, exactly those matching |
| AreaDropdown.FilterEmptySearch | src/components/AreaDropdown.js:22-24 | an empty search keeps every element |
| AreaDropdown.EmptySearchShowsAll | src/components/AreaDropdown.js:11-24 | an empty search shows all eight areas in order |
| AreaDropdown.SearchIgnoresCase | src/components/AreaDropdown.js:23 | a search typed in capitals shows the same areas |
| AreaDropdown.Dropdown.HandleAreaSelect | src/components/AreaDropdown.js:26-43 | the area is reported once, the list closes and the search is cleared |
| AreaDropdown.Dropdown.CloseDropdown | src/components/AreaDropdown.js:45-61 | the list closes and the search is cleared, reporting nothing |
| SpecializationModal.AvailableSpecializations | src/components/SpecializationModal.js:20-22 | the category's list, or empty for a category the table lacks |
| SpecializationModal.AvailableSpecializationsShape | src/components/SpecializationModal.js:5-22 | nothing is offered before a category is chosen; each category offers three |
| SpecializationModal.Submit | src/components/SpecializationModal.js:24-32 | with either field empty nothing is reported and nothing changes; otherwise the pair is reported and both fields reset |
| SpecializationModal.NoDoubleSubmit | src/components/SpecializationModal.js:24-32 | a successful submit cannot be repeated without picking again |
| SpecializationModal.NewCategoryBlocksSubmit | src/components/SpecializationModal.js:69-73 | after choosing a category, submit (line 25) fails until a specialization is picked |
| SpecializationModal.PickBothThenSubmit | src/components/SpecializationModal.js:69-104 | picking a category then a specialization submits exactly that pair |
| SpecializationModal.Modal.HandleSubmit | src/components/SpecializationModal.js:24-32 | outcome, new state and reported events are those of `Submit` |
| SpecializationModal.Modal.HandleCancel | src/components/SpecializationModal.js:34-38 | both fields reset and `onClose` is reported |
| SpecializationModal.Modal.SelectCategory | src/components/SpecializationModal.js:69-73 | the category is set, the specialization reset and the category list closed |
| UserInformation.NextStep | src/screens/UserInformationScreen.js:39-53 | a blank address fails first; the flow moves on to professional information iff the address is present and all three certificates are picked |
| UserInformation.FirstFailureWins | src/screens/UserInformationScreen.js:40-47 | the alert is that of the first failing check, address before certificates |
| UserInformation.OptionalFieldsIgnored | src/screens/UserInformationScreen.js:39-53 | specialization, experience and area do not affect the outcome |
| UserInformation.SpecializationLabel | src/screens/UserInformationScreen.js:82-84 | the field shows "category - specialization", or the prompt when none is picked |
| UserInformation.Screen.HandleSpecializationSubmit | src/screens/UserInformationScreen.js:57-60 | the pair is stored and the modal hidden |
| UserInformation.Screen.HandleNext | src/screens/UserInformationScreen.js:39-53 | navigates exactly when `NextStep` says so |
| ProgressIndicator.View | src/components/ProgressIndicator.js:17-34 | a step is active iff the current step is at least its number, completed iff past it, and shows a check mark iff completed |
| ProgressIndicator.StepsNumbered | src/components/ProgressIndicator.js:6-11 | there are four steps numbered 1 to 4 in order |
| ProgressIndicator.RenderShape | src/components/ProgressIndicator.js:15-36 | completed steps are active, the active steps form a prefix, and the one active step not completed is the current one |
| ProgressIndicator.DefaultShowsFirstStep | src/components/ProgressIndicator.js:5-26 | by default only step 1 is active and none is completed |

## Left out

- The network layer (`src/services/api.js` and its helpers) is not part of this model. `sendOTP` and
  `verifyOTP` are reduced to a boolean, succeeded or failed, passed to `Login.Screen.CompleteContinue`
  and `OtpEntry.Screen.CompleteVerify`. The error message shown on failure is not modelled.
- Nothing happens between the two halves of an asynchronous handler. The model does not capture a
  second press during the `await`, nor a screen that is left while a request is in flight.
- Floating point is not modelled. Money inputs are digit strings (the `Digits` subset type), as the
  numeric keyboards enforce, and the arithmetic is exact on whole rupees. IEEE-754 error in
  `num * 0.2` and `num * 0.1` is not modelled.
- `Text.ParseDecimal` accepts only an optional sign followed by `digits[.digits]`, and the whole
  trimmed string must match. `parseFloat` also reads a numeric prefix of arbitrary text (`"5km"`
  gives 5), and exponents and `Infinity`. Those inputs are rejected by the model and accepted by
  the source.
- `Text.ParseDecimal` returns an exact decimal: a sign, all the digits as one whole number, and the
  number of places after the point. `"-0"` is a negative zero, which counts as not below 0, as
  `-0 < 0` is false in JavaScript.
- The ten-character limit of the login phone field (`maxLength={10}` at
  `src/screens/LoginScreen.js:77`, forwarded by `src/components/CustomInput.js:55`) belongs to the
  text input, not the handler. It appears as the hypothesis of the contract of
  `Login.ValidPhoneNumber`. `Login.SpacedGroupsAccepted` states what the check alone does.
- Lengths are counted in characters (Unicode scalar values), while JavaScript's `.length` counts
  UTF-16 code units. Text holding characters outside the Basic Multilingual Plane is judged
  differently by the IFSC length check of `src/screens/BankingDetailsScreen.js:60` and the OTP
  length check of `src/screens/OTPScreen.js:26`. The account-number and phone checks admit only
  ASCII digits, so the two counts agree there. For example, `"ABCD0😀😀😀"` has length 11 in JavaScript, so the
  source accepts it as an IFSC, but the model counts 8 characters and rejects it.
- `Text.ToLower` and `Text.ToUpper` map only ASCII letters. JavaScript's full Unicode case mapping
  is not modelled.
- ConsultationPricing.Pricing.EditEarnings: accepts digit strings only. Text typed into the numeric
  fields is stored as typed in the source.
- The six-character limit of the flat-fee inputs and the one-character limit of the OTP boxes are
  enforced by the text inputs, not by the handlers. They appear as hypotheses of
  `PricingCalculator.InputsBounded` and `OtpEntry.CompleteIffAllFilled`.
- Animations and layout are not modelled. `AreaDropdown` selection and closing take effect in one
  step; the source applies them in the animation's completion callback.
- `UserInformation.Screen.HandleNext` does not model the `catch` around `navigation.navigate`,
  which can only fire inside the navigation library.
- The file pickers behind the certificate buttons (Android intents and picker libraries) are not
  modelled. A picked file is `Some(Document)`.
- `LanguageDropdown`, the profile picture upload, `ThankYouScreen`, the navigator setup and the
  display-only atoms (`CustomInput`, `CustomButton`, `Header`) are not part of this model.
- Disabled buttons are not modelled: the OTP verify button while loading, and the selector's
  submit with a field empty. The handlers are modelled as if they could be pressed anyway, and
  they reject such a press themselves.
- `ProgressIndicator`'s `totalSteps` prop is unused by the source, and is not modelled.
