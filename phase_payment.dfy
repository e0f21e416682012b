/**
 * Phase 3 of the wizard, "Set Up Payment": the bank select, the account-type
 * pills, the account-number input and the branch-code input with its lock.
 *
 * Choosing a bank auto-fills the branch code from the bank table and locks
 * the field; an "Edit" control unlocks it, and only an unlocked field takes
 * typed input. The component's state is the shared form record plus its own
 * `branchEditable` flag; `PaymentState` is that pair as a value, and the
 * transition functions below are what the view's methods are proved against.
 */
module PhasePayment {
  import opened Text
  import opened FormData
  import Schema
  import Content

  /** The phase component's state: the shared record and the lock flag. */
  datatype PaymentState = PaymentState(data: EMandateFormData, branchEditable: bool)

  /** The state when the phase is first shown: the field starts locked. */
  function InitialState(data: EMandateFormData): (s: PaymentState)
    ensures s.data == data && !s.branchEditable
  {
    PaymentState(data, false)
  }

  // ---------------------------------------------------------------------------
  // Pure input transforms
  // ---------------------------------------------------------------------------

  /** The stored account number: the input's digits, at most 16 of them. */
  function AccountNumberInput(input: string): (r: string)
    ensures AllDigits(r) && |r| <= 16
    ensures StartsWith(DigitsOnly(input), r)
    ensures |r| == if |DigitsOnly(input)| <= 16 then |DigitsOnly(input)| else 16
    ensures |DigitsOnly(input)| <= 16 ==> r == DigitsOnly(input)
  {
    Take(DigitsOnly(input), 16)
  }

  /** The stored branch code after a manual edit: the input's digits, at most 6 of them. */
  function BranchCodeInput(input: string): (r: string)
    ensures AllDigits(r) && |r| <= 6
    ensures StartsWith(DigitsOnly(input), r)
    ensures |r| == if |DigitsOnly(input)| <= 6 then |DigitsOnly(input)| else 6
    ensures |DigitsOnly(input)| <= 6 ==> r == DigitsOnly(input)
  {
    Take(DigitsOnly(input), 6)
  }

  /**
   * Whatever is typed into the account-number field, the stored value can
   * only be too short or (when nothing is left) empty: it is never too long
   * and never holds a non-digit. A non-empty value can only be too short,
   * and six or more digits pass outright.
   */
  lemma AccountNumberInputIssues(input: string)
    ensures Schema.AccountNumberIssues(AccountNumberInput(input))
            <= {Schema.Issue(AccountNumber, Schema.TooShort), Schema.Issue(AccountNumber, Schema.NotDigits)}
    ensures Schema.Issue(AccountNumber, Schema.NotDigits) in Schema.AccountNumberIssues(AccountNumberInput(input))
            <==> AccountNumberInput(input) == ""
    ensures AccountNumberInput(input) != "" ==>
              Schema.AccountNumberIssues(AccountNumberInput(input)) <= {Schema.Issue(AccountNumber, Schema.TooShort)}
    ensures |AccountNumberInput(input)| >= 6 ==> Schema.AccountNumberIssues(AccountNumberInput(input)) == {}
  {
    var r := AccountNumberInput(input);
    if r == "" {
      assert Schema.Issue(AccountNumber, Schema.NotDigits) in Schema.AccountNumberIssues(r);
    }
  }

  /** Re-typing a stored account number or branch code stores it again unchanged. */
  lemma DigitInputsIdempotent(input: string)
    ensures AccountNumberInput(AccountNumberInput(input)) == AccountNumberInput(input)
    ensures BranchCodeInput(BranchCodeInput(input)) == BranchCodeInput(input)
  {
  }

  // ---------------------------------------------------------------------------
  // State transitions
  // ---------------------------------------------------------------------------

  /**
   * The effect's guard `bankName && bankBranchCodeMap[bankName]`: a non-empty
   * bank value whose map entry exists and is non-empty.
   */
  predicate AutoFills(bankName: string) {
    bankName != "" && bankName in Content.BankBranchCodeMap && Content.BankBranchCodeMap[bankName] != ""
  }

  /** The effect guard holds exactly for the banks of the table. */
  lemma AutoFillsIffKnownBank(bankName: string)
    ensures AutoFills(bankName) <==> bankName in Content.BankBranchCodeMap
    ensures AutoFills(bankName) <==>
              exists i :: 0 <= i < |Content.BankOptions| && Content.BankOptions[i].value == bankName
  {
    Content.BankMapKeys();
    Content.BankBranchCodesPassSchema();
    assert forall i :: 0 <= i < |Content.BankOptions| ==> Content.BankOptions[i].value != "";
  }

  /**
   * The effect that runs after the bank changes: a bank with a table entry
   * overwrites the branch code with its own and locks the field; any other
   * value leaves the state as it is.
   */
  function AfterBankEffect(s: PaymentState): (r: PaymentState)
    ensures r.data == s.data.(branchCode := r.data.branchCode)
    ensures AutoFills(s.data.bankName) ==>
              && r.data.branchCode == Content.BankBranchCodeMap[s.data.bankName]
              && !r.branchEditable
    ensures !AutoFills(s.data.bankName) ==> r == s
  {
    if AutoFills(s.data.bankName) then
      PaymentState(s.data.(branchCode := Content.BankBranchCodeMap[s.data.bankName]), false)
    else
      s
  }

  /** A branch code filled in by the effect passes the phase 3 branch-code rule. */
  lemma AutoFilledCodePassesSchema(s: PaymentState)
    requires AutoFills(s.data.bankName)
    ensures Schema.BranchCodeIssues(AfterBankEffect(s).data.branchCode) == {}
    ensures |AfterBankEffect(s).data.branchCode| == 6 && AllDigits(AfterBankEffect(s).data.branchCode)
  {
    Content.BankBranchCodesPassSchema();
    Schema.SixDigitBranchCodePasses(AfterBankEffect(s).data.branchCode);
  }

  /** Running the effect a second time changes nothing. */
  lemma BankEffectIdempotent(s: PaymentState)
    ensures AfterBankEffect(AfterBankEffect(s)) == AfterBankEffect(s)
  {
  }

  /** Choosing a bank in the select writes the bank value and nothing else. */
  function AfterSelectBank(s: PaymentState, value: string): (r: PaymentState)
    ensures r.data.bankName == value
    ensures r.data == s.data.(bankName := value) && r.branchEditable == s.branchEditable
  {
    s.(data := s.data.(bankName := value))
  }

  /**
   * A choice in the bank select. The effect depends on `bankName`, so it runs
   * only when the choice differs from the bank already held; choosing the
   * same bank again writes nothing and leaves the lock as it is.
   */
  function AfterChooseBank(s: PaymentState, value: string): (r: PaymentState)
    ensures value == s.data.bankName ==> r == s
    ensures value != s.data.bankName ==> r == AfterBankEffect(AfterSelectBank(s, value))
  {
    if value == s.data.bankName then s else AfterBankEffect(AfterSelectBank(s, value))
  }

  /**
   * Choosing the i-th bank of the table in place of a different one leaves
   * that bank's own branch code in the field, locked, and valid under the
   * branch-code rule, whatever was typed or unlocked before; no field apart
   * from the bank and the branch code changes. Choosing the bank already
   * held changes nothing, so a hand-typed code stays.
   */
  lemma ChoosingTableBankFillsItsCode(s: PaymentState, i: nat)
    requires i < |Content.BankOptions|
    ensures var r := AfterChooseBank(s, Content.BankOptions[i].value);
            s.data.bankName != Content.BankOptions[i].value ==>
            && r.data == s.data.(bankName := Content.BankOptions[i].value,
                                 branchCode := Content.BankOptions[i].branchCode)
            && !r.branchEditable
            && Schema.BranchCodeIssues(r.data.branchCode) == {}
    ensures s.data.bankName == Content.BankOptions[i].value ==>
              AfterChooseBank(s, Content.BankOptions[i].value) == s
  {
    var t := AfterSelectBank(s, Content.BankOptions[i].value);
    Content.BankMapsAgree();
    AutoFillsIffKnownBank(t.data.bankName);
    AutoFilledCodePassesSchema(t);
  }

  /**
   * The state once the phase has mounted: the effect also runs on mount, so
   * a record that already holds a table bank gets that bank's code back,
   * locked, whatever code it held before.
   */
  function MountedState(data: EMandateFormData): (s: PaymentState)
    ensures AutoFills(data.bankName) ==>
              s == PaymentState(data.(branchCode := Content.BankBranchCodeMap[data.bankName]), false)
    ensures !AutoFills(data.bankName) ==> s == InitialState(data)
    ensures !s.branchEditable
  {
    AfterBankEffect(InitialState(data))
  }

  /** A manual branch-code edit: ignored while locked, the input's first six digits otherwise. */
  function AfterBranchCodeEdit(s: PaymentState, input: string): (r: PaymentState)
    ensures !s.branchEditable ==> r == s
    ensures s.branchEditable ==>
              && r.data == s.data.(branchCode := r.data.branchCode)
              && r.branchEditable
              && AllDigits(r.data.branchCode) && |r.data.branchCode| <= 6
              && StartsWith(DigitsOnly(input), r.data.branchCode)
              && r.data.branchCode == BranchCodeInput(input)
  {
    if s.branchEditable then s.(data := s.data.(branchCode := BranchCodeInput(input))) else s
  }

  /** An unlocked edit of six or more digits leaves a branch code that passes the rule. */
  lemma EditedCodeOfSixDigitsPasses(s: PaymentState, input: string)
    requires s.branchEditable && |DigitsOnly(input)| >= 6
    ensures Schema.BranchCodeIssues(AfterBranchCodeEdit(s, input).data.branchCode) == {}
  {
    Schema.SixDigitBranchCodePasses(AfterBranchCodeEdit(s, input).data.branchCode);
  }

  /** The "Edit" control is shown only while a bank is chosen and the field is locked. */
  predicate UnlockOffered(s: PaymentState) {
    s.data.bankName != "" && !s.branchEditable
  }

  /** Pressing "Edit" unlocks the field and writes no field of the record. */
  function AfterUnlock(s: PaymentState): (r: PaymentState)
    ensures r.data == s.data && r.branchEditable
  {
    s.(branchEditable := true)
  }

  /** After unlocking, the "Edit" control is no longer offered and an edit is taken. */
  lemma UnlockThenEditTakesInput(s: PaymentState, input: string)
    ensures !UnlockOffered(AfterUnlock(s))
    ensures AfterBranchCodeEdit(AfterUnlock(s), input).data.branchCode == BranchCodeInput(input)
  {
  }

  /** Typing into the account-number field writes only the account number. */
  function AfterAccountNumberChange(s: PaymentState, input: string): (r: PaymentState)
    ensures r.data == s.data.(accountNumber := r.data.accountNumber) && r.branchEditable == s.branchEditable
    ensures AllDigits(r.data.accountNumber) && |r.data.accountNumber| <= 16
    ensures r.data.accountNumber == AccountNumberInput(input)
  {
    s.(data := s.data.(accountNumber := AccountNumberInput(input)))
  }

  /** Tapping the i-th account-type pill writes that option's value and nothing else. */
  function AfterAccountTypePill(s: PaymentState, i: nat): (r: PaymentState)
    requires i < |Content.AccountTypeOptions|
    ensures r.data == s.data.(accountType := Content.AccountTypeOptions[i].value)
    ensures r.branchEditable == s.branchEditable
    ensures Schema.Issue(AccountType, Schema.Required) !in Schema.PaymentIssues(r.data)
  {
    s.(data := s.data.(accountType := Content.AccountTypeOptions[i].value))
  }

  // ---------------------------------------------------------------------------
  // The phase component
  // ---------------------------------------------------------------------------

  /** The mounted phase component: the shared form store and the local lock flag. */
  class PhasePaymentView {
    const form: FormStore
    var branchEditable: bool

    function State(): PaymentState
      reads this, form
    {
      PaymentState(form.data, branchEditable)
    }

    /** Mounting the phase, which runs the bank effect once. */
    constructor (form: FormStore)
      modifies form
      ensures this.form == form
      ensures State() == MountedState(old(form.data))
    {
      this.form := form;
      branchEditable := false;
      new;
      RunBankEffect();
    }

    /** The bank-change effect. */
    method RunBankEffect()
      modifies this, form
      ensures State() == AfterBankEffect(old(State()))
    {
      var bankName := form.data.bankName;
      if bankName != "" && bankName in Content.BankBranchCodeMap && Content.BankBranchCodeMap[bankName] != "" {
        form.data := form.data.(branchCode := Content.BankBranchCodeMap[bankName]);
        branchEditable := false;
      }
    }

    /** The bank select's change handler. */
    method SelectBank(value: string)
      modifies form
      ensures State() == AfterSelectBank(old(State()), value)
    {
      form.data := form.data.(bankName := value);
    }

    /** A choice in the bank select, followed by the effect when the bank changed. */
    method ChooseBank(value: string)
      modifies this, form
      ensures State() == AfterChooseBank(old(State()), value)
    {
      var changed := value != form.data.bankName;
      SelectBank(value);
      if changed {
        RunBankEffect();
      }
    }

    /** The account-number input's change handler. */
    method HandleAccountNumberChange(input: string)
      modifies form
      ensures State() == AfterAccountNumberChange(old(State()), input)
    {
      var value := Take(DigitsOnly(input), 16);
      form.data := form.data.(accountNumber := value);
    }

    /** The branch-code input's change handler. */
    method HandleBranchCodeChange(input: string)
      modifies form
      ensures State() == AfterBranchCodeEdit(old(State()), input)
    {
      if branchEditable {
        form.data := form.data.(branchCode := Take(DigitsOnly(input), 6));
      }
    }

    /** The "Edit" control's click handler. */
    method Unlock()
      requires UnlockOffered(State())
      modifies this
      ensures State() == AfterUnlock(old(State()))
    {
      branchEditable := true;
    }

    /** An account-type pill's click handler. */
    method TapAccountTypePill(i: nat)
      requires i < |Content.AccountTypeOptions|
      modifies form
      ensures State() == AfterAccountTypePill(old(State()), i)
    {
      form.data := form.data.(accountType := Content.AccountTypeOptions[i].value);
    }
  }
}
