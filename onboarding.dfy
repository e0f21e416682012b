/**
 * The older single-page onboarding wizard: five steps (product, contact,
 * banking, identity, confirmation) walked with Next and Previous buttons,
 * one flat record updated one field at a time, and a "Complete
 * Registration" button enabled on the last step once both consents are
 * ticked. No validation is consulted when moving between steps.
 */
module Onboarding {
  import opened Text

  // ---------------------------------------------------------------------------
  // The step counter
  // ---------------------------------------------------------------------------

  const FirstStep: int := 1
  const LastStep: int := 5

  predicate IsStep(step: int) {
    FirstStep <= step <= LastStep
  }

  /** Next: one step forward, except on the last step. */
  function NextStep(step: int): (r: int)
    ensures step < LastStep ==> r == step + 1
    ensures step >= LastStep ==> r == step
    ensures IsStep(step) ==> IsStep(r)
  {
    if step < LastStep then step + 1 else step
  }

  /** Previous: one step back, except on the first step. */
  function PreviousStep(step: int): (r: int)
    ensures step > FirstStep ==> r == step - 1
    ensures step <= FirstStep ==> r == step
    ensures IsStep(step) ==> IsStep(r)
  {
    if step > FirstStep then step - 1 else step
  }

  /** A click on one of the two navigation buttons. */
  datatype Nav = Next | Previous

  function Apply(step: int, c: Nav): int {
    match c
    case Next => NextStep(step)
    case Previous => PreviousStep(step)
  }

  /** The step reached after a sequence of clicks. */
  function Run(step: int, clicks: seq<Nav>): int
    decreases clicks
  {
    if clicks == [] then step else Run(Apply(step, clicks[0]), clicks[1..])
  }

  /** Whatever is clicked, the step stays within 1..5. */
  lemma {:induction false} RunStaysInRange(step: int, clicks: seq<Nav>)
    requires IsStep(step)
    ensures IsStep(Run(step, clicks))
    decreases |clicks|
  {
    if clicks != [] {
      RunStaysInRange(Apply(step, clicks[0]), clicks[1..]);
    }
  }

  /** Previous right after a Next that moved returns to the same step. */
  lemma PreviousUndoesNext(step: int)
    requires FirstStep <= step < LastStep
    ensures PreviousStep(NextStep(step)) == step
  {
  }

  /** Next right after a Previous that moved returns to the same step. */
  lemma NextUndoesPrevious(step: int)
    requires FirstStep < step <= LastStep
    ensures NextStep(PreviousStep(step)) == step
  {
  }

  function Repeated(c: Nav, k: nat): (r: seq<Nav>)
    ensures |r| == k && forall i :: 0 <= i < k ==> r[i] == c
  {
    if k == 0 then [] else [c] + Repeated(c, k - 1)
  }

  function Min(a: int, b: int): int {
    if a <= b then a else b
  }

  function Max(a: int, b: int): int {
    if a >= b then a else b
  }

  /** k clicks on Next from a step s reach step min(s + k, 5). */
  lemma {:induction false} NextsSaturate(step: int, k: nat)
    requires IsStep(step)
    ensures Run(step, Repeated(Next, k)) == Min(step + k, LastStep)
    decreases k
  {
    if k > 0 {
      assert Repeated(Next, k)[1..] == Repeated(Next, k - 1);
      NextsSaturate(NextStep(step), k - 1);
    }
  }

  /** k clicks on Previous from a step s reach step max(s - k, 1). */
  lemma {:induction false} PreviousesSaturate(step: int, k: nat)
    requires IsStep(step)
    ensures Run(step, Repeated(Previous, k)) == Max(step - k, FirstStep)
    decreases k
  {
    if k > 0 {
      assert Repeated(Previous, k)[1..] == Repeated(Previous, k - 1);
      PreviousesSaturate(PreviousStep(step), k - 1);
    }
  }

  // ---------------------------------------------------------------------------
  // The flat record
  // ---------------------------------------------------------------------------

  datatype OnboardingData = OnboardingData(
    // Step 1: product selection
    productType: string,
    subscriptionPlan: string,
    // Step 2: contact details
    firstName: string,
    lastName: string,
    email: string,
    phone: string,
    // Step 3: banking details
    bankName: string,
    accountType: string,
    accountNumber: string,
    branchCode: string,
    // Step 4: identity verification
    idNumber: string,
    idType: string,
    // Step 5: confirmation
    termsAccepted: bool,
    privacyAccepted: bool)

  /** The record the page starts with: every string empty, both consents false. */
  const InitialData: OnboardingData :=
    OnboardingData("", "", "", "", "", "", "", "", "", "", "", "", false, false)

  datatype OnboardingField =
    | ProductType | SubscriptionPlan
    | FirstName | LastName | Email | Phone
    | BankName | AccountType | AccountNumber | BranchCode
    | IdNumber | IdType
    | TermsAccepted | PrivacyAccepted

  /** A value passed to the change handler: an input's text or a checkbox's state. */
  datatype Value = Text(text: string) | Flag(flag: bool)

  predicate IsFlagField(f: OnboardingField) {
    f == TermsAccepted || f == PrivacyAccepted
  }

  /** Text inputs write text and the two checkboxes write flags. */
  predicate Fits(f: OnboardingField, v: Value) {
    if IsFlagField(f) then v.Flag? else v.Text?
  }

  function Get(d: OnboardingData, f: OnboardingField): (v: Value)
    ensures Fits(f, v)
  {
    match f
    case ProductType => Text(d.productType)
    case SubscriptionPlan => Text(d.subscriptionPlan)
    case FirstName => Text(d.firstName)
    case LastName => Text(d.lastName)
    case Email => Text(d.email)
    case Phone => Text(d.phone)
    case BankName => Text(d.bankName)
    case AccountType => Text(d.accountType)
    case AccountNumber => Text(d.accountNumber)
    case BranchCode => Text(d.branchCode)
    case IdNumber => Text(d.idNumber)
    case IdType => Text(d.idType)
    case TermsAccepted => Flag(d.termsAccepted)
    case PrivacyAccepted => Flag(d.privacyAccepted)
  }

  /** `{ ...prev, [field]: value }`: that field takes the value and every other field keeps its own. */
  function Set(d: OnboardingData, f: OnboardingField, v: Value): (r: OnboardingData)
    requires Fits(f, v)
    ensures Get(r, f) == v
    ensures forall g :: g != f ==> Get(r, g) == Get(d, g)
  {
    match f
    case ProductType => d.(productType := v.text)
    case SubscriptionPlan => d.(subscriptionPlan := v.text)
    case FirstName => d.(firstName := v.text)
    case LastName => d.(lastName := v.text)
    case Email => d.(email := v.text)
    case Phone => d.(phone := v.text)
    case BankName => d.(bankName := v.text)
    case AccountType => d.(accountType := v.text)
    case AccountNumber => d.(accountNumber := v.text)
    case BranchCode => d.(branchCode := v.text)
    case IdNumber => d.(idNumber := v.text)
    case IdType => d.(idType := v.text)
    case TermsAccepted => d.(termsAccepted := v.flag)
    case PrivacyAccepted => d.(privacyAccepted := v.flag)
  }

  /** Two records that agree on every field are the same record. */
  lemma GetDetermines(d: OnboardingData, e: OnboardingData)
    requires forall f :: Get(d, f) == Get(e, f)
    ensures d == e
  {
    assert Get(d, ProductType) == Get(e, ProductType);
    assert Get(d, SubscriptionPlan) == Get(e, SubscriptionPlan);
    assert Get(d, FirstName) == Get(e, FirstName);
    assert Get(d, LastName) == Get(e, LastName);
    assert Get(d, Email) == Get(e, Email);
    assert Get(d, Phone) == Get(e, Phone);
    assert Get(d, BankName) == Get(e, BankName);
    assert Get(d, AccountType) == Get(e, AccountType);
    assert Get(d, AccountNumber) == Get(e, AccountNumber);
    assert Get(d, BranchCode) == Get(e, BranchCode);
    assert Get(d, IdNumber) == Get(e, IdNumber);
    assert Get(d, IdType) == Get(e, IdType);
    assert Get(d, TermsAccepted) == Get(e, TermsAccepted);
    assert Get(d, PrivacyAccepted) == Get(e, PrivacyAccepted);
  }

  /** Writing a field its own value changes nothing. */
  lemma SetOwnValue(d: OnboardingData, f: OnboardingField)
    ensures Set(d, f, Get(d, f)) == d
  {
    GetDetermines(Set(d, f, Get(d, f)), d);
  }

  /** A second write to the same field replaces the first. */
  lemma SetOverwrites(d: OnboardingData, f: OnboardingField, v: Value, w: Value)
    requires Fits(f, v) && Fits(f, w)
    ensures Set(Set(d, f, v), f, w) == Set(d, f, w)
  {
    GetDetermines(Set(Set(d, f, v), f, w), Set(d, f, w));
  }

  /** Writes to different fields commute. */
  lemma SetsCommute(d: OnboardingData, f: OnboardingField, g: OnboardingField, v: Value, w: Value)
    requires f != g && Fits(f, v) && Fits(g, w)
    ensures Set(Set(d, f, v), g, w) == Set(Set(d, g, w), f, v)
  {
    GetDetermines(Set(Set(d, f, v), g, w), Set(Set(d, g, w), f, v));
  }

  /** The step 5 summary of the account: "***" and the last (up to) four characters. */
  function AccountSummary(accountNumber: string): (r: string)
    ensures StartsWith(r, "***")
    ensures |r| == 3 + Min(|accountNumber|, 4)
    ensures r[3..] == accountNumber[|accountNumber| - (|r| - 3)..]
  {
    var tail := TakeLast(accountNumber, 4);
    assert ("***" + tail)[3..] == tail;
    "***" + tail
  }

  // ---------------------------------------------------------------------------
  // The page
  // ---------------------------------------------------------------------------

  class OnboardingPage {
    var currentStep: int
    var formData: OnboardingData

    /** The page's state invariant: the step counter is one of the five steps. */
    predicate Valid()
      reads this
    {
      IsStep(currentStep)
    }

    constructor ()
      ensures Valid()
      ensures currentStep == FirstStep && formData == InitialData
    {
      currentStep := FirstStep;
      formData := InitialData;
    }

    method HandleNext()
      requires Valid()
      modifies this
      ensures Valid()
      ensures currentStep == NextStep(old(currentStep)) && formData == old(formData)
    {
      if currentStep < LastStep {
        currentStep := currentStep + 1;
      }
    }

    method HandlePrevious()
      requires Valid()
      modifies this
      ensures Valid()
      ensures currentStep == PreviousStep(old(currentStep)) && formData == old(formData)
    {
      if currentStep > FirstStep {
        currentStep := currentStep - 1;
      }
    }

    method HandleInputChange(f: OnboardingField, v: Value)
      requires Valid() && Fits(f, v)
      modifies this
      ensures Valid()
      ensures formData == Set(old(formData), f, v) && currentStep == old(currentStep)
    {
      formData := Set(formData, f, v);
    }

    /** Previous is disabled on the first step. */
    predicate PreviousDisabled()
      reads this
    {
      currentStep == FirstStep
    }

    /** From the last step on, the Next button is replaced by "Complete Registration". */
    predicate CompleteShown()
      reads this
    {
      !(currentStep < LastStep)
    }

    /** "Complete Registration" is enabled unless a consent is missing. */
    predicate CompleteEnabled()
      reads this
    {
      !(!formData.termsAccepted || !formData.privacyAccepted)
    }

    /** The last step offers an enabled "Complete Registration" exactly when both consents are given. */
    /** Previous is disabled exactly on the step where going back would not move. */
    lemma PreviousGate()
      requires Valid()
      ensures PreviousDisabled() <==> PreviousStep(currentStep) == currentStep
      ensures !PreviousDisabled() ==> PreviousStep(currentStep) == currentStep - 1
    {
    }

    lemma CompleteGate()
      requires Valid()
      ensures CompleteShown() <==> currentStep == LastStep
      ensures CompleteShown() && CompleteEnabled() <==>
                currentStep == LastStep && formData.termsAccepted && formData.privacyAccepted
    {
    }
  }
}
