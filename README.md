# eMandate registration wizard: a Dafny model

This project models the core of a debit-order ("eMandate") registration
front end for South African customers. It covers:

- **The three-phase wizard.** Plan, then Details, then Payment. It shares one
  form record and runs per-phase validation schemas.
- **South African ID checks.** The ID number check runs 13 digits, a month/day
  range and a Luhn-style check digit. Date-of-birth extraction uses a century
  pivot.
- **Input handlers.** The phone normaliser (`+27` prefix, 12-character cap),
  ID-type auto-detection and ID-number cleaning.
- **Payment phase.** The bank table auto-fills the branch code and locks the
  field behind an "Edit" control. The account number is cleaned to digits.
- **Confirmation dialog.** It masks the account number, summarises the record
  and holds its own consent gate, which is cleared every time the dialog opens.
- **Older five-step wizard.** Next/Previous navigation, a flat record updated
  one field at a time, and a "Complete Registration" gate.
- **Payment-provider integrations page.** Providers are toggled on and off,
  connected and enabled providers are counted, and the monthly fees of the
  enabled providers are totalled.

Modules follow the source files:

- `Text` and `Wrappers` hold string and option helpers.
- `FormData` holds the record and its store.
- `Schema` models `app/emandate/schema.ts`.
- `Content` models `app/emandate/content.ts`.
- `PhaseDetails` models `components/emandate/phase-details.tsx`.
- `PhasePayment` models `components/emandate/phase-payment.tsx`.
- `ConfirmationDialog` models `components/emandate/confirmation-dialog.tsx`.
- `Onboarding` models `app/emandate/page.tsx`.
- `Integrations` models `app/integrations/page.tsx`.

Validation schemas are modelled as the set of issues they report: a record is
accepted exactly when the set is empty. Components whose handlers write to
state are modelled as classes. Each method is proved to take the state to
what a pure transition function gives, and the properties are lemmas about
those functions.

Parameters and external effects:

- The email rule is a function parameter `isEmail`.
- The current two-digit year, which the source takes from the clock, is a
  parameter.
- The date of birth is returned as a (year, month, day) triple, not as a
  locale-formatted string.

## Model

| member | source | states |
|---|---|---|
| Text.DigitsOnly | components/emandate/phase-payment.tsx:50 | `replace(/\D/g, "")`: the result is all digits, no longer than the input, and the input itself when it is all digits; determined by the two lemmas below |
| Text.DigitsOnlyChar | components/emandate/phase-payment.tsx:50 | a single character is kept exactly when it is a digit |
| Text.DigitsOnlyAppend | components/emandate/phase-payment.tsx:50 | the digits of a concatenation are the digits of each part, in order |
| Text.Take | components/emandate/phase-payment.tsx:50 | `slice(0, n)`: a prefix of length min(|s|, n) |
| Text.TakeLast | components/emandate/confirmation-dialog.tsx:51 | `slice(-n)`: a suffix of length min(|s|, n) |
| Text.Repeat | components/emandate/confirmation-dialog.tsx:51 | `"•".repeat(n)`: n copies of the character |
| FormData.FormStore.constructor | components/emandate/phase-payment.tsx:29-33 | the shared form record every phase reads and writes, holding the given initial record |
| Schema.IsValidSaId | app/emandate/schema.ts:11-35 | returns true exactly for 13-digit strings whose month is 1..12, whose day is 1..31 and whose last digit equals the check digit of the Luhn-style sum over the first twelve digits |
| Schema.SaIdValid | app/emandate/schema.ts:11-35 | the specification of the check, which Schema.IsValidSaId is proved to compute: 13 digits, month and day in range, correct check digit |
| Schema.LuhnTerm | app/emandate/schema.ts:23-30 | each term of the checksum is a single digit |
| Schema.LuhnTermIsDigitSum | app/emandate/schema.ts:23-30 | an even index adds the digit itself; an odd index adds the digit sum of its double |
| Schema.LuhnSum | app/emandate/schema.ts:20-31 | the sum over the first n digits is at most 9·n |
| Schema.CheckDigit | app/emandate/schema.ts:33 | the check digit is below 10 and brings the sum to a multiple of 10 |
| Schema.LuhnSumDependsOnPrefix | app/emandate/schema.ts:20-31 | the sum depends only on the first n characters |
| Schema.LuhnSumUpdate | app/emandate/schema.ts:20-31 | replacing one digit changes the sum by exactly the difference of that position's terms |
| Schema.LuhnTermInjective | app/emandate/schema.ts:23-30 | at a given position, different digits give different terms |
| Schema.LuhnSumTwelve | app/emandate/schema.ts:20-31 | the sum over twelve digits is the sum of their twelve terms |
| Schema.CompleteSaId | app/emandate/schema.ts:33-34 | appending the computed check digit to 12 digits gives a 13-digit string with the same prefix and the same sum |
| Schema.CheckDigitUnique | app/emandate/schema.ts:11-35 | for a 12-digit prefix with an in-range month and day, the completed ID is valid, and a prefix plus any digit is valid iff that digit is the computed check digit |
| Schema.CheckDigitSeparates | app/emandate/schema.ts:33 | two sums that differ by less than 10 have different check digits |
| Schema.SingleDigitChangeDetected | app/emandate/schema.ts:11-35 | changing any one digit of a valid ID makes it invalid |
| Schema.KnownGoodSaId | app/emandate/schema.ts:11-35 | 8001015009087 passes the check |
| Schema.BadChecksumId | app/emandate/schema.ts:11-35 | 8001015009080, the fixture with its check digit changed to 0, fails the check |
| Schema.FebruaryThirtiethValid | app/emandate/schema.ts:11-35 | 8002300000005, dated 30 February, passes the check |
| Schema.FebruaryThirtiethWrongCheckDigit | app/emandate/schema.ts:11-35 | 8002300000000 fails the check |
| Schema.FebruaryThirtiethAccepted | app/emandate/schema.ts:11-60 | 8002300000005 passes the ID check, 8002300000000 does not, and no date of birth is extracted from the former because 30 February is not a date |
| Schema.DaysInMonth | app/emandate/schema.ts:53-60 | every month has 28 to 31 days, and 29 exactly for February of a leap year |
| Schema.RollForward | app/emandate/schema.ts:53 | an overlong day rolls into a later month and gives a real calendar date; a day in range is kept |
| Schema.RollBack | app/emandate/schema.ts:53 | a day below 1 rolls into an earlier month and gives a real calendar date; a day in range is kept |
| Schema.MakeDate | app/emandate/schema.ts:53 | `new Date(year, month, day)` always yields a real calendar date |
| Schema.MakeDateRoundTrip | app/emandate/schema.ts:53-60 | for a full year outside 0..99, the constructed date reads back as (year, month, day) iff that triple is a real date |
| Schema.PivotYear | app/emandate/schema.ts:48-51 | the year ends in the two given digits and lies in the hundred years ending at 2000 plus the current two-digit year |
| Schema.ExtractDob | app/emandate/schema.ts:41-60 | None unless 13 digits; a result is the pivoted year with the ID's month and day, and is a real date |
| Schema.DobFromDigits | app/emandate/schema.ts:44-60 | a result is the pivoted year with the given month and day, and is a real date |
| Schema.ExtractDobIffRealDate | app/emandate/schema.ts:41-60 | for a 13-digit ID, a date is extracted iff the pivoted year, month and day form a real date |
| Schema.DobIgnoresLaterDigits | app/emandate/schema.ts:41-60 | digits after the sixth do not affect the extracted date |
| Schema.CenturyPivotAtBoundary | app/emandate/schema.ts:48-51 | the current two-digit year maps to the 2000s and the next one to the 1900s |
| Schema.SixDigitBranchCodePasses | app/emandate/schema.ts:126-129 | the branch-code rule passes iff the code is exactly six digits |
| Schema.IsSaPhone | app/emandate/schema.ts:90-92 | `/^\+27\d{9}$/`: "+27" followed by nine digits; used by Schema.PhaseDetailsAccepts and PhaseDetails.NormalizePhone |
| Schema.PlanIssues | app/emandate/schema.ts:72-75 | the phase 1 issues; characterised by Schema.PhasePlanAccepts |
| Schema.DetailsIssues | app/emandate/schema.ts:80-95 | the phase 2 issues; characterised by Schema.PhaseDetailsAccepts |
| Schema.DetailsRefinedIssues | app/emandate/schema.ts:101-113 | the refined phase 2 issues; characterised by Schema.PhaseDetailsRefinedAccepts |
| Schema.PaymentIssues | app/emandate/schema.ts:118-138 | the phase 3 issues; characterised by Schema.PhasePaymentAccepts |
| Schema.FullFormIssues | app/emandate/schema.ts:143-145 | the merged schema's issues; characterised by Schema.FullFormAccepts and Schema.FullFormSkipsSaIdCheck |
| Schema.PhasePlanAccepts | app/emandate/schema.ts:72-75 | phase 1 accepts iff mandate type and product type are non-empty |
| Schema.PhaseDetailsAccepts | app/emandate/schema.ts:80-95 | phase 2 accepts iff names are 2..50 characters (Unicode scalar values), the email passes, the phone is +27 and nine digits, the ID has six or more characters (scalar values) and the ID type is non-empty |
| Schema.PhaseDetailsRefinedAccepts | app/emandate/schema.ts:101-113 | the refined schema adds at most the ID issue, and accepts iff the base schema accepts and, for an SA ID, the ID check passes |
| Schema.PhasePaymentAccepts | app/emandate/schema.ts:118-138 | phase 3 accepts iff bank and type are chosen, the account number is 6..16 digits, the branch code is six digits and both consents are true |
| Schema.FullFormAccepts | app/emandate/schema.ts:143-145 | the merged schema accepts iff all three base phase schemas accept |
| Schema.FullFormSkipsSaIdCheck | app/emandate/schema.ts:101-113 | a record with a failing SA ID check digit is accepted by the full schema while the refined phase 2 schema reports only the ID issue |
| Content.FromEntries | app/emandate/content.ts:70-87 | the map's keys are exactly the entries' keys |
| Content.FromEntriesLookup | app/emandate/content.ts:70-87 | with distinct keys, each entry's key maps to that entry's value |
| Content.BankMapsAgree | app/emandate/content.ts:61-77 | bank values are distinct, and each table bank maps to its own branch code and label |
| Content.BankValuesDistinct | app/emandate/content.ts:61-67 | no two banks of the table share a value |
| Content.BankMapKeys | app/emandate/content.ts:70-72 | the branch-code map's keys are exactly the table's bank values |
| Content.BankTableCodesSixDigits | app/emandate/content.ts:61-67 | every branch code in the table is six digits |
| Content.BankBranchCodesPassSchema | app/emandate/content.ts:70-72 | every code in the branch-code map is non-empty and passes the phase 3 branch-code rule |
| Content.PlanLabelsCarryPrice | app/emandate/content.ts:85-87 | each plan maps to its label, an en dash separator and its price |
| Content.PhasesInOrder | app/emandate/content.ts:14-30 | there are three phases numbered 1, 2, 3 in order |
| Content.DefaultFailsEveryPhase | app/emandate/content.ts:98-113 | the default record fails phase 1 (both selections), phase 2 (names, phone) and phase 3 (both consents) |
| PhaseDetails.KeepPhoneChars | components/emandate/phase-details.tsx:71 | the result holds only digits and '+', is no longer than the input, and equals it when it already did; its character-by-character behaviour is stated by the two lemmas below |
| PhaseDetails.KeepPhoneCharsChar | components/emandate/phase-details.tsx:71 | a single character is kept exactly when it is a digit or '+' |
| PhaseDetails.KeepPhoneCharsAppend | components/emandate/phase-details.tsx:71 | the filter of a concatenation is the concatenation of the filters, so every digit and '+' survives in order, an interior '+' included |
| PhaseDetails.StripCountryCode | components/emandate/phase-details.tsx:74 | the leading match of `^\+?27?` is removed: three characters after "+27", two after "+2" or "27", one after a lone "2", none when the value starts with neither "2" nor "+2" |
| PhaseDetails.NormalizePhone | components/emandate/phase-details.tsx:68-81 | the stored phone is the first twelve characters of the filtered input with its country code put right; it always starts with +27, has 3 to 12 characters of digits and '+', and a valid SA phone is kept as it is |
| PhaseDetails.WithCountryCode | components/emandate/phase-details.tsx:73-75 | a value starting with "+27" is kept; any other loses its leading `^\+?27?` match and gets "+27" in front |
| PhaseDetails.Cap | components/emandate/phase-details.tsx:76-79 | the result is the first min(n, 12) characters of the value, so it keeps the +27 prefix and the phone characters |
| PhaseDetails.StripKeepsPhoneChars | components/emandate/phase-details.tsx:73-75 | re-prefixing after dropping a partly typed country code yields only digits and '+' |
| PhaseDetails.SaPhoneChars | components/emandate/phase-details.tsx:70-71 | a valid SA phone survives the strip of characters other than digits and '+' |
| PhaseDetails.NormalizePhoneIdempotent | components/emandate/phase-details.tsx:68-81 | normalising a normalised phone changes nothing |
| PhaseDetails.NormalizePartialPrefix | components/emandate/phase-details.tsx:73-75 | "+2" becomes "+27" |
| PhaseDetails.NormalizePartialCode | components/emandate/phase-details.tsx:73-75 | "+2" followed by digits not starting with 7 keeps those digits after a new "+27" (so "+251234" becomes "+2751234") |
| PhaseDetails.NormalizeNationalNumber | components/emandate/phase-details.tsx:68-81 | a leading 0 and nine digits becomes +27, the 0 and eight digits, cut at 12 characters |
| PhaseDetails.NormalizeMissingPlus | components/emandate/phase-details.tsx:73-75 | 27 followed by nine digits gains the missing '+' |
| PhaseDetails.NormalizeKeepsInteriorPlus | components/emandate/phase-details.tsx:71-79 | a '+' after the prefix is kept |
| PhaseDetails.DetectIdType | components/emandate/phase-details.tsx:41-58 | values under three characters keep the type; 13 digits give sa-id; letters turn sa-id into passport; in every other case the type is kept |
| PhaseDetails.DetectIdTypeSettles | components/emandate/phase-details.tsx:60-62 | running detection again on its own result changes nothing |
| PhaseDetails.IdNumberInput | components/emandate/phase-details.tsx:84-93 | for sa-id the digits only, at most 13; otherwise the first 20 characters |
| PhaseDetails.SaIdTypingKeepsSaId | components/emandate/phase-details.tsx:41-93 | typing under sa-id never makes detection change the type |
| PhaseDetails.DisplayedDob | components/emandate/phase-details.tsx:64-65 | a date of birth is shown only alongside the valid tick, and then it is the extracted date |
| PhaseDetails.ShowsValidTick | components/emandate/phase-details.tsx:64 | the tick condition: the type is sa-id and the ID check passes; tied to the refined schema by PhaseDetails.TickAgreesWithRefinement |
| PhaseDetails.TickAgreesWithRefinement | components/emandate/phase-details.tsx:64 | for sa-id, the tick is shown iff the refined schema reports no ID issue |
| PhaseDetails.TickWithoutDob | components/emandate/phase-details.tsx:64-65 | the ID 8002300000005 shows the tick but no date of birth |
| PhaseDetails.HandlePhoneChange | components/emandate/phase-details.tsx:68-81 | stores the normalised phone, which starts with +27, and changes no other field |
| PhaseDetails.HandleIdNumberChange | components/emandate/phase-details.tsx:84-93 | stores the cleaned ID number for the current type and changes no other field |
| PhaseDetails.RunIdTypeDetection | components/emandate/phase-details.tsx:41-62 | sets the type to what detection gives and changes no other field |
| PhaseDetails.SelectIdType | components/emandate/phase-details.tsx:258-263 | stores the chosen type and changes no other field |
| PhasePayment.InitialState | components/emandate/phase-payment.tsx:40 | the branch-code field starts locked |
| PhasePayment.MountedState | components/emandate/phase-payment.tsx:40-47 | the effect also runs on mount: a record holding a table bank gets that bank's code back, locked; any other record is kept, locked |
| PhasePayment.AccountNumberInput | components/emandate/phase-payment.tsx:49-52 | the stored value is the first min(n, 16) of the input's n digits: all digits, a prefix of the input's digits, of exactly that length |
| PhasePayment.BranchCodeInput | components/emandate/phase-payment.tsx:180-184 | the stored value is the first min(n, 6) of the input's n digits: all digits, a prefix of the input's digits, of exactly that length |
| PhasePayment.AccountNumberInputIssues | components/emandate/phase-payment.tsx:49-52 | a typed account number is never too long and never non-digit except when empty; non-empty, it can only be too short; six or more digits pass |
| PhasePayment.DigitInputsIdempotent | components/emandate/phase-payment.tsx:49-52 | re-typing a stored account number or branch code stores the same value |
| PhasePayment.AutoFillsIffKnownBank | components/emandate/phase-payment.tsx:43 | the effect's guard holds iff the bank is a key of the map, iff it is a bank of the table |
| PhasePayment.AutoFills | components/emandate/phase-payment.tsx:43 | the effect's guard; characterised by PhasePayment.AutoFillsIffKnownBank |
| PhasePayment.UnlockOffered | components/emandate/phase-payment.tsx:160-169 | "Edit" is rendered iff a bank is chosen and the field is locked; used by PhasePayment.UnlockThenEditTakesInput |
| PhasePayment.AfterBankEffect | components/emandate/phase-payment.tsx:42-47 | a table bank overwrites only the branch code with its own and locks the field; any other value changes nothing |
| PhasePayment.AutoFilledCodePassesSchema | components/emandate/phase-payment.tsx:42-47 | an auto-filled branch code is six digits and passes the branch-code rule |
| PhasePayment.BankEffectIdempotent | components/emandate/phase-payment.tsx:42-47 | running the effect twice is the same as once |
| PhasePayment.AfterSelectBank | components/emandate/phase-payment.tsx:64 | choosing a bank writes only the bank value |
| PhasePayment.AfterChooseBank | components/emandate/phase-payment.tsx:42-65 | the `[bankName]` effect runs only after a change: re-choosing the current bank leaves the state as it is, any other choice is the selection followed by the effect |
| PhasePayment.ChoosingTableBankFillsItsCode | components/emandate/phase-payment.tsx:42-65 | choosing a table bank other than the current one leaves that bank and its own branch code, locked and valid, whatever was typed or unlocked before; re-choosing the current bank changes nothing |
| PhasePayment.AfterBranchCodeEdit | components/emandate/phase-payment.tsx:178-184 | a locked field ignores input; an unlocked one stores the first six (or fewer) of the input's digits and changes nothing else |
| PhasePayment.EditedCodeOfSixDigitsPasses | components/emandate/phase-payment.tsx:180-184 | an unlocked edit with six or more digits leaves a code that passes the rule |
| PhasePayment.AfterUnlock | components/emandate/phase-payment.tsx:160-169 | "Edit" unlocks the field and writes no field of the record |
| PhasePayment.UnlockThenEditTakesInput | components/emandate/phase-payment.tsx:160-184 | once unlocked, "Edit" is no longer offered and the edit is stored |
| PhasePayment.AfterAccountNumberChange | components/emandate/phase-payment.tsx:49-52 | only the account number changes, and it becomes the cleaned input (digits only, at most 16) |
| PhasePayment.AfterAccountTypePill | components/emandate/phase-payment.tsx:95-99 | writes only the pill's account type, after which phase 3 reports no missing account type |
| PhasePayment.PhasePaymentView.constructor | components/emandate/phase-payment.tsx:40-47 | mounting the view gives the mounted state over the shared record, after the effect's first run |
| PhasePayment.PhasePaymentView.RunBankEffect | components/emandate/phase-payment.tsx:42-47 | the new state is the bank effect applied to the old one |
| PhasePayment.PhasePaymentView.SelectBank | components/emandate/phase-payment.tsx:62-65 | the new state is the bank selection applied to the old one |
| PhasePayment.PhasePaymentView.ChooseBank | components/emandate/phase-payment.tsx:42-65 | the new state is the bank choice applied to the old one, the effect running only when the bank changed |
| PhasePayment.PhasePaymentView.HandleAccountNumberChange | components/emandate/phase-payment.tsx:49-52 | the new state is the account-number transition of the old one |
| PhasePayment.PhasePaymentView.HandleBranchCodeChange | components/emandate/phase-payment.tsx:180-184 | the new state is the branch-code transition of the old one |
| PhasePayment.PhasePaymentView.Unlock | components/emandate/phase-payment.tsx:160-169 | callable only while "Edit" is shown (a bank chosen, the field locked); the new state is the unlocked old state |
| PhasePayment.PhasePaymentView.TapAccountTypePill | components/emandate/phase-payment.tsx:95-99 | the new state is the pill transition of the old one |
| ConfirmationDialog.FindLabel | components/emandate/confirmation-dialog.tsx:45 | None iff no option has the value; otherwise the label of the first option that does |
| ConfirmationDialog.IdTypeLabel | components/emandate/confirmation-dialog.tsx:44-46 | an unknown value is shown as it is |
| ConfirmationDialog.IdTypeLabels | components/emandate/confirmation-dialog.tsx:44-46 | sa-id, passport and drivers-license show their labels; an empty value shows empty |
| ConfirmationDialog.MaskAccount | components/emandate/confirmation-dialog.tsx:49-52 | four characters or fewer are kept; longer numbers keep length and last four, with every earlier character a bullet |
| ConfirmationDialog.MaskRevealsOnlyLastFour | components/emandate/confirmation-dialog.tsx:49-52 | two numbers of equal length over four agreeing on the last four are masked the same |
| ConfirmationDialog.MaskIdempotent | components/emandate/confirmation-dialog.tsx:49-52 | masking a masked number changes nothing |
| ConfirmationDialog.UpperAscii | components/emandate/confirmation-dialog.tsx:165 | a lower-case ASCII letter becomes its upper-case letter; anything else is unchanged |
| ConfirmationDialog.Capitalize | components/emandate/confirmation-dialog.tsx:165 | the first character is upper-cased and the rest kept |
| ConfirmationDialog.AccountSummary | components/emandate/confirmation-dialog.tsx:160-167 | the dash when there is no account number, otherwise a string ending in the masked number; the full shape is in ConfirmationDialog.AccountSummaryShape |
| ConfirmationDialog.AccountSummaryShape | components/emandate/confirmation-dialog.tsx:160-167 | a dash without an account number; otherwise the masked number, preceded by the capitalised type and " · " when a type is chosen |
| ConfirmationDialog.BankSummary | components/emandate/confirmation-dialog.tsx:158 | a bank not in the table is summarised by the dash |
| ConfirmationDialog.BankSummaryOfTableBank | components/emandate/confirmation-dialog.tsx:158 | a table bank is summarised by its own label |
| ConfirmationDialog.AfterOpenChange | components/emandate/confirmation-dialog.tsx:69-75 | opening a closed dialog clears both consents; any other change of the prop keeps them |
| ConfirmationDialog.Mounted | components/emandate/confirmation-dialog.tsx:65-67 | at mount neither consent is given, so Confirm is disabled |
| ConfirmationDialog.CanSubmit | components/emandate/confirmation-dialog.tsx:67 | `canSubmit`: both local consents given; stated by ConfirmationDialog.OpeningResetsGate and ConfirmationDialog.Dialog.ClickConfirm |
| ConfirmationDialog.Accepts | components/emandate/confirmation-dialog.tsx:195 | a checkbox change counts as consent iff it is a definite check |
| ConfirmationDialog.AfterTermsChange | components/emandate/confirmation-dialog.tsx:192-197 | only the terms consent changes, to whether the box is checked |
| ConfirmationDialog.AfterPrivacyChange | components/emandate/confirmation-dialog.tsx:207-214 | only the privacy consent changes, to whether the box is checked |
| ConfirmationDialog.OpeningResetsGate | components/emandate/confirmation-dialog.tsx:65-75 | right after opening, Confirm is disabled, and after both boxes change in either order it is enabled iff both were checked |
| ConfirmationDialog.ReopenLosesConsent | components/emandate/confirmation-dialog.tsx:69-75 | closing and reopening clears both consents |
| ConfirmationDialog.Dialog.constructor | components/emandate/confirmation-dialog.tsx:65-75 | the mounted dialog has no consent |
| ConfirmationDialog.Dialog.SetOpen | components/emandate/confirmation-dialog.tsx:69-75 | the new state is the open-change transition of the old one |
| ConfirmationDialog.Dialog.OnTermsCheckedChange | components/emandate/confirmation-dialog.tsx:192-197 | the new state is the terms transition of the old one |
| ConfirmationDialog.Dialog.OnPrivacyCheckedChange | components/emandate/confirmation-dialog.tsx:207-214 | the new state is the privacy transition of the old one |
| ConfirmationDialog.Dialog.ClickConfirm | components/emandate/confirmation-dialog.tsx:234-245 | confirms iff both consents are given |
| ConfirmationDialog.Dialog.ClickEditDetails | components/emandate/confirmation-dialog.tsx:226-233 | never confirms, and closes the dialog |
| Onboarding.NextStep | app/emandate/page.tsx:67-71 | moves forward one step below step 5, stays on step 5, and keeps the step in 1..5 |
| Onboarding.PreviousStep | app/emandate/page.tsx:73-77 | moves back one step above step 1, stays on step 1, and keeps the step in 1..5 |
| Onboarding.RunStaysInRange | app/emandate/page.tsx:32-77 | any sequence of Next/Previous clicks keeps the step in 1..5 |
| Onboarding.PreviousUndoesNext | app/emandate/page.tsx:67-77 | below step 5, Previous after Next returns to the same step |
| Onboarding.NextUndoesPrevious | app/emandate/page.tsx:67-77 | above step 1, Next after Previous returns to the same step |
| Onboarding.NextsSaturate | app/emandate/page.tsx:67-71 | k Next clicks from step s reach min(s + k, 5) |
| Onboarding.PreviousesSaturate | app/emandate/page.tsx:73-77 | k Previous clicks from step s reach max(s − k, 1) |
| Onboarding.Get | app/emandate/page.tsx:33-57 | text fields read as text and consent fields as flags |
| Onboarding.Set | app/emandate/page.tsx:79-81 | the written field takes the value and every other field keeps its own |
| Onboarding.GetDetermines | app/emandate/page.tsx:33-57 | two records agreeing on every field are equal |
| Onboarding.SetOwnValue | app/emandate/page.tsx:79-81 | writing a field its own value changes nothing |
| Onboarding.SetOverwrites | app/emandate/page.tsx:79-81 | a second write to a field replaces the first |
| Onboarding.SetsCommute | app/emandate/page.tsx:79-81 | writes to different fields commute |
| Onboarding.AccountSummary | app/emandate/page.tsx:509-512 | "***" followed by the last min(length, 4) characters of the account number |
| Onboarding.OnboardingPage.constructor | app/emandate/page.tsx:32-57 | starts on step 1 with the empty record |
| Onboarding.OnboardingPage.HandleNext | app/emandate/page.tsx:67-71 | the step becomes the next step, the record is unchanged, and the step stays in 1..5 |
| Onboarding.OnboardingPage.HandlePrevious | app/emandate/page.tsx:73-77 | the step becomes the previous step, the record is unchanged, and the step stays in 1..5 |
| Onboarding.OnboardingPage.HandleInputChange | app/emandate/page.tsx:79-81 | the record takes the one-field write and the step is unchanged |
| Onboarding.OnboardingPage.PreviousDisabled | app/emandate/page.tsx:562 | Previous is disabled iff on step 1; stated by Onboarding.OnboardingPage.PreviousGate |
| Onboarding.OnboardingPage.PreviousGate | app/emandate/page.tsx:73-77 | Previous is disabled exactly when going back would leave the step unchanged; otherwise it goes back one step |
| Onboarding.OnboardingPage.CompleteShown | app/emandate/page.tsx:569-590 | the Next button gives way to "Complete Registration" from step 5 on; stated by Onboarding.OnboardingPage.CompleteGate |
| Onboarding.OnboardingPage.CompleteEnabled | app/emandate/page.tsx:580-582 | "Complete Registration" is enabled unless a consent is missing; stated by Onboarding.OnboardingPage.CompleteGate |
| Onboarding.OnboardingPage.CompleteGate | app/emandate/page.tsx:560-582 | "Complete Registration" is shown iff on step 5, and is shown enabled iff on step 5 with both consents |
| Integrations.ToggleOne | app/integrations/page.tsx:137-145 | a toggle keeps the provider's id, status and fee |
| Integrations.Toggle | app/integrations/page.tsx:137-145 | the list keeps its length and each provider is toggled on its own |
| Integrations.ToggleFlipsExactlyMatching | app/integrations/page.tsx:137-145 | exactly the providers with the id have `enabled` flipped, and every other field and provider is unchanged |
| Integrations.ToggleUnknownId | app/integrations/page.tsx:137-145 | an id no provider has leaves the list unchanged |
| Integrations.ToggleInvolution | app/integrations/page.tsx:137-145 | toggling the same id twice restores the list |
| Integrations.TogglePreservesUniqueIds | app/integrations/page.tsx:137-145 | toggling keeps the ids distinct |
| Integrations.ConnectedCount | app/integrations/page.tsx:234 | at most the number of providers; determined by Integrations.ConnectedCountAppend |
| Integrations.ConnectedCountAppend | app/integrations/page.tsx:234 | the count of a concatenation is the sum of the counts, so the count adds one per connected provider wherever it stands |
| Integrations.ConnectedCountExtremes | app/integrations/page.tsx:234 | the count is zero iff no provider is connected, and equals the number of providers iff all are |
| Integrations.EnabledCount | app/integrations/page.tsx:251 | at most the number of providers; determined by Integrations.EnabledCountAppend |
| Integrations.EnabledCountAppend | app/integrations/page.tsx:251 | the count of a concatenation is the sum of the counts, so the count adds one per enabled provider wherever it stands |
| Integrations.EnabledCountExtremes | app/integrations/page.tsx:251 | the count is zero iff no provider is enabled, and equals the number of providers iff all are |
| Integrations.ToggleKeepsConnectedCount | app/integrations/page.tsx:137-145 | toggling never changes the connected count |
| Integrations.UniqueIdsTail | app/integrations/page.tsx:31-132 | the tail of a list with distinct ids has distinct ids, none equal to the head's |
| Integrations.ToggleEnabledCount | app/integrations/page.tsx:137-145 | with distinct ids, toggling a provider moves the enabled count by exactly one, down if it was enabled |
| Integrations.RemoveFirst | app/integrations/page.tsx:294 | a leading "R " is removed |
| Integrations.LeadingDigits | app/integrations/page.tsx:294 | the longest digit prefix of the string |
| Integrations.TrimStart | app/integrations/page.tsx:294 | a suffix of the input whose dropped prefix is all white space and which does not itself start with white space |
| Integrations.Unsigned | app/integrations/page.tsx:294 | the result is the input or the input minus its first character, and it differs from the input exactly when the input starts with '+' or '-' |
| Integrations.ParseInt | app/integrations/page.tsx:294 | `parseInt`: no value iff no digits follow the leading white space and an optional sign; otherwise the decimal value of those digits, negated exactly when the sign is '-' |
| Integrations.ParseIntOfNumeral | app/integrations/page.tsx:294 | a numeral followed by a non-digit parses to its value |
| Integrations.LeadingDigitsOfNumeral | app/integrations/page.tsx:294 | a numeral followed by a non-digit is its own leading digits |
| Integrations.TotalDefined | app/integrations/page.tsx:290-296 | when every fee reads as a number, the total is a number |
| Integrations.ToggleChangesFeeTotal | app/integrations/page.tsx:137-145 | for any reading of the fee strings under which every fee is a number, with distinct ids, toggling one provider moves the total by exactly its fee, down if it was enabled |
| Integrations.ToggleChangesTotalByFee | app/integrations/page.tsx:137-145 | with distinct ids and every `parseInt` fee a number, toggling one provider moves the monthly total by exactly its fee, down if it was enabled |
| Integrations.RandFee | app/integrations/page.tsx:294 | a fee "R " followed by a numeral has that numeral's value |
| Integrations.InitialFee | app/integrations/page.tsx:31-132 | the six providers' fees are 99, 79, 49, 199, 29 and 149 |
| Integrations.NumeralValues | app/integrations/page.tsx:31-132 | the fee numerals have their decimal values |
| Integrations.InitialIdsUnique | app/integrations/page.tsx:31-132 | the initial providers have distinct ids |
| Integrations.InitialCounts | app/integrations/page.tsx:31-132 | initially five providers are connected and four enabled |
| Integrations.TotalStep | app/integrations/page.tsx:290-296 | the total adds the first provider's fee to the total of the rest exactly when that provider is enabled |
| Integrations.ParseFee | app/integrations/page.tsx:294 | `parseInt(fee.replace("R ", ""))`; its values for "R " and a numeral are stated by Integrations.RandFee |
| Integrations.MonthlyFee | app/integrations/page.tsx:294 | a provider's fee as the total reads it; stated for the six providers by Integrations.InitialFee |
| Integrations.FeeTotal | app/integrations/page.tsx:290-296 | the fees of the enabled providers added in list order, undefined when one does not read; stated by Integrations.TotalDefined, Integrations.TotalStep and Integrations.ToggleChangesFeeTotal |
| Integrations.MonthlyFeeTotal | app/integrations/page.tsx:290-296 | the card's total with the `parseInt` reading; stated by Integrations.ToggleChangesTotalByFee |
| Integrations.SwitchChange | app/integrations/page.tsx:410-414 | a disabled switch (provider not connected) changes nothing |
| Integrations.SwitchEnabled | app/integrations/page.tsx:413 | a switch is enabled iff its provider is connected; used by Integrations.SwitchChange and Integrations.SwitchSparesUnconnected |
| Integrations.SwitchSparesUnconnected | app/integrations/page.tsx:410-414 | a switch change never alters an unconnected provider or any other provider |
| Integrations.IntegrationsPage.constructor | app/integrations/page.tsx:135 | starts with the six providers, ids distinct |
| Integrations.IntegrationsPage.ToggleProvider | app/integrations/page.tsx:137-145 | the list becomes the toggled list and ids stay distinct |
| Integrations.IntegrationsPage.OnSwitchChange | app/integrations/page.tsx:410-414 | the list becomes the switch transition of the old list and ids stay distinct |

## Left out

- Schema.DetailsIssues, Schema.PhaseDetailsAccepts, PhaseDetails.IdNumberInput, PhaseDetails.DetectIdType: lengths count Unicode scalar values, not UTF-16 code units. JavaScript's `.length` and `.slice` and zod's `.min`/`.max` count code units, so a character above U+FFFF counts once here and twice in the source. The name bounds 2..50, the ID's minimum of 6, `slice(0, 20)` and detection's `length < 3` therefore disagree with the source on such characters, and a slice that splits a surrogate pair has no counterpart, because a Dafny string cannot hold a lone surrogate. Schema.NameIssues has the same gap.
- Schema.PhaseDetailsAccepts: the 2..50 and six-or-more bounds are stated in scalar values, as the line above explains; for text within the Basic Multilingual Plane the two counts agree.
- The draft persistence, its 500 ms debounce, the restore notice, the start-over flow, the unsaved-changes prompt and the validated three-phase `next()` / `submit()` controller are not modelled; their source files are not part of this model.
- The plan phase and the phase progress bar only render, so `components/emandate/phase-plan.tsx` and `components/shared/phase-progress.tsx` are not part of this model.
- The email rule of `z.string().email()` is a parameter `isEmail`, because its regular expression is not modelled.
- The clock: the current two-digit year is a parameter. The date of birth is a (year, month, day) triple, not the `en-ZA` locale string.
- react-hook-form and zod internals are not modelled, such as validation timing (`shouldValidate`) and error messages. Each schema is the set of (field, rule) issues it reports.
- Mandate-type options and labels are not modelled because `app/emandate/content.ts` defines none.
- The other confirmation-dialog summary items (name, product, plan, contact, ID) are not modelled, nor is the trim of the full name. Only the bank, account and ID-type renderings are.
- The older wizard's submit handler only logs, so it is not modelled. Neither is its page markup besides the navigation buttons, the account summary and the complete button.
- Object prototype keys (such as `"constructor"`) are not modelled: a `Record` lookup of such a key yields a non-string in JavaScript, while the model treats it as a missing key.
- ConfirmationDialog.UpperAscii: only ASCII letters are upper-cased; Unicode case mapping is not modelled.
- Integrations.ParseInt: the `0x` hexadecimal prefix and non-ASCII white space of `parseInt` are not modelled. The model computes exact integers, where `Number.parseInt` gives a double that rounds numerals beyond 2^53.
- The default record `Content.DefaultFormValues`: content.ts names the first two default keys `productType` and `subscriptionPlan`, while the record of schema.ts has `mandateType` and `productType`. The model maps them by position (both defaults are the empty string), so what react-hook-form does with the unknown `subscriptionPlan` key is not modelled.
- Integrations.RemoveFirst: only the case where the string starts with the pattern is characterised; removal of a later first occurrence is computed but not stated.
- Integrations: provider ids are assumed distinct where counts and totals are proved (distinct ids are proved for the initial list and preserved by every change). With a repeated id, a switch of a connected provider would also toggle an unconnected one sharing its id.
- The integrations page's average analytics, charts and floating-point figures are not modelled.
- Onboarding.OnboardingPage.HandleInputChange: the source writes any value into any field (`value: string | boolean`, and a checkbox's `checked as boolean` can be `"indeterminate"`). The model requires a text value for a text field and a flag for a consent field, so cross-typed and indeterminate writes are excluded.
- ConfirmationDialog.AccountSummaryShape: that the summary differs from the dash is stated only for all-digit account numbers, because the literal account number "—" would render as the dash.
- PhasePayment.AccountNumberInputIssues: an empty account number reports both "too short" and "only digits", because zod's `^\d+$` rejects the empty string; "only too short" is stated for non-empty values.
- Schema.IsValidSaId: the check accepts impossible dates such as 30 February, because only the ranges 1..12 and 1..31 are checked. The tick is then shown with no date of birth (Schema.FebruaryThirtiethAccepted, PhaseDetails.TickWithoutDob).
- PhaseDetails.RunIdTypeDetection: detection also re-runs when the ID type changes, as its dependency list includes the type. A manual change away from sa-id on a 13-digit number is therefore switched back.
