/**
 * The review dialog shown before submission: the summary of the record, with
 * the account number masked, and a second consent gate. The dialog's own
 * terms and privacy checkboxes are cleared every time it opens, and
 * "Confirm & Submit" is enabled only while both are ticked.
 */
module ConfirmationDialog {
  import opened Wrappers
  import opened Text
  import opened FormData
  import Content

  // ---------------------------------------------------------------------------
  // Summary strings
  // ---------------------------------------------------------------------------

  /** The bullet that hides a masked digit. */
  const MaskChar: char := '\U{2022}'

  /** The placeholder of an empty summary item. */
  const EmptyValue: string := "\U{2014}"

  /** The separator of the account type and the masked number. */
  const TypeSeparator: string := " \U{00B7} "

  /**
   * The label of the first option whose value matches, if any; the search
   * runs front to back like `Array.prototype.find`.
   */
  function FindLabel(options: seq<Content.SelectOption>, value: string): (r: Option<string>)
    ensures r.None? <==> forall i :: 0 <= i < |options| ==> options[i].value != value
    ensures r.Some? ==> exists i :: && 0 <= i < |options| && options[i].value == value
                                    && options[i].caption == r.value
                                    && forall j :: 0 <= j < i ==> options[j].value != value
  {
    if options == [] then None
    else if options[0].value == value then Some(options[0].caption)
    else
      var rest := FindLabel(options[1..], value);
      assert forall i :: 1 <= i < |options| ==> options[i] == options[1..][i - 1];
      rest
  }

  /** The human-readable ID type: the option's label, or the raw value when no option has it. */
  function IdTypeLabel(value: string): (r: string)
    ensures (forall i :: 0 <= i < |Content.IdTypeOptions| ==> Content.IdTypeOptions[i].value != value) ==> r == value
  {
    match FindLabel(Content.IdTypeOptions, value)
    case Some(caption) => caption
    case None => value
  }

  /** Each ID type of the select is shown by its own label; an unknown type by its value. */
  lemma IdTypeLabels()
    ensures IdTypeLabel("sa-id") == "South African ID"
    ensures IdTypeLabel("passport") == "Passport"
    ensures IdTypeLabel("drivers-license") == "Driver's License"
    ensures IdTypeLabel("") == ""
  {
    assert Content.IdTypeOptions[0].value == "sa-id";
    assert Content.IdTypeOptions[1].value == "passport";
    assert Content.IdTypeOptions[2].value == "drivers-license";
  }

  /**
   * The account number with all but its last four characters replaced by
   * bullets; four characters or fewer are shown as they are.
   */
  function MaskAccount(acc: string): (r: string)
    ensures |acc| <= 4 ==> r == acc
    ensures |acc| > 4 ==>
              && |r| == |acc|
              && r[|acc| - 4..] == acc[|acc| - 4..]
              && forall i :: 0 <= i < |acc| - 4 ==> r[i] == MaskChar
  {
    if |acc| <= 4 then acc else Repeat(MaskChar, |acc| - 4) + TakeLast(acc, 4)
  }

  /**
   * The mask reveals only the length and the last four characters: two
   * account numbers that agree on those are shown the same.
   */
  lemma MaskRevealsOnlyLastFour(a: string, b: string)
    requires |a| == |b| > 4 && a[|a| - 4..] == b[|b| - 4..]
    ensures MaskAccount(a) == MaskAccount(b)
  {
    var ma, mb := MaskAccount(a), MaskAccount(b);
    forall i | 0 <= i < |a| ensures ma[i] == mb[i] {
      if i >= |a| - 4 {
        assert ma[i] == ma[|a| - 4..][i - (|a| - 4)];
        assert mb[i] == mb[|b| - 4..][i - (|b| - 4)];
      }
    }
  }

  /** Masking a masked number changes nothing. */
  lemma MaskIdempotent(acc: string)
    ensures MaskAccount(MaskAccount(acc)) == MaskAccount(acc)
  {
    if |acc| > 4 {
      var m := MaskAccount(acc);
      var mm := MaskAccount(m);
      forall i | 0 <= i < |m| ensures mm[i] == m[i] {
        if i >= |m| - 4 {
          assert mm[i] == mm[|m| - 4..][i - (|m| - 4)];
          assert m[i] == m[|m| - 4..][i - (|m| - 4)];
        }
      }
    }
  }

  /** `c.toUpperCase()` for an ASCII letter; every other character is kept. */
  function UpperAscii(c: char): (u: char)
    ensures 'a' <= c <= 'z' ==> 'A' <= u <= 'Z' && (u as int) - ('A' as int) == (c as int) - ('a' as int)
    ensures !('a' <= c <= 'z') ==> u == c
  {
    if 'a' <= c <= 'z' then ((c as int) - 32) as char else c
  }

  /** `s.charAt(0).toUpperCase() + s.slice(1)`. */
  function Capitalize(s: string): (r: string)
    ensures |r| == |s|
    ensures s != [] ==> r[0] == UpperAscii(s[0]) && r[1..] == s[1..]
  {
    if s == [] then [] else [UpperAscii(s[0])] + s[1..]
  }

  /**
   * The "Account" summary item: a dash when there is no account number,
   * otherwise the capitalised account type and a middle dot (when a type is
   * chosen) followed by the masked number.
   */
  function AccountSummary(d: EMandateFormData): (r: string)
    ensures d.accountNumber == [] ==> r == EmptyValue
    ensures d.accountNumber != [] ==>
              var m := MaskAccount(d.accountNumber);
              |m| <= |r| && r[|r| - |m|..] == m
  {
    if d.accountNumber == [] then EmptyValue
    else
      var prefix := if d.accountType != [] then Capitalize(d.accountType) + TypeSeparator else [];
      var m := MaskAccount(d.accountNumber);
      assert (prefix + m)[|prefix|..] == m;
      prefix + m
  }

  /**
   * The account summary is the dash exactly when there is no account number;
   * otherwise it ends with the masked number, preceded by the capitalised
   * type and separator when a type is chosen and by nothing when not.
   */
  lemma AccountSummaryShape(d: EMandateFormData)
    ensures d.accountNumber == [] ==> AccountSummary(d) == EmptyValue
    ensures d.accountNumber != [] && d.accountType == [] ==> AccountSummary(d) == MaskAccount(d.accountNumber)
    ensures d.accountNumber != [] && d.accountType != [] ==>
              AccountSummary(d) == Capitalize(d.accountType) + TypeSeparator + MaskAccount(d.accountNumber)
    ensures d.accountNumber != [] && AllDigits(d.accountNumber) ==> AccountSummary(d) != EmptyValue
  {
    if d.accountNumber != [] && AllDigits(d.accountNumber) {
      var r := AccountSummary(d);
      var m := MaskAccount(d.accountNumber);
      if d.accountType == [] {
        assert r == m;
        assert m[0] == MaskChar || m[0] == d.accountNumber[0];
        assert r[0] != EmptyValue[0];
      } else {
        assert |r| >= 3;
      }
    }
  }

  /** The summary of a record's bank: its label, or the dash when the bank is not in the table. */
  function BankSummary(bankName: string): (r: string)
    ensures bankName !in Content.BankLabelMap ==> r == EmptyValue
  {
    if bankName in Content.BankLabelMap && Content.BankLabelMap[bankName] != [] then Content.BankLabelMap[bankName]
    else EmptyValue
  }

  /** A bank chosen from the table is summarised by its own label. */
  lemma BankSummaryOfTableBank(i: nat)
    requires i < |Content.BankOptions|
    ensures BankSummary(Content.BankOptions[i].value) == Content.BankOptions[i].caption
  {
    var b := Content.BankOptions[i];
    assert b.caption != [];
    Content.BankMapsAgree();
    assert b.value in Content.BankLabelMap && Content.BankLabelMap[b.value] == b.caption;
  }

  // ---------------------------------------------------------------------------
  // The consent gate
  // ---------------------------------------------------------------------------

  /** What a checkbox reports when it changes. */
  datatype CheckedState = Checked | Unchecked | Indeterminate

  /** The dialog's state: whether it is open and its two local consents. */
  datatype DialogState = DialogState(open: bool, termsAccepted: bool, privacyAccepted: bool)

  /** Confirm is enabled iff both local consents are given. */
  predicate CanSubmit(s: DialogState) {
    s.termsAccepted && s.privacyAccepted
  }

  /**
   * The parent sets the `open` prop; the reset effect runs on mount and when
   * the prop changes, and clears both consents whenever the prop is then true.
   */
  function AfterOpenChange(s: DialogState, open: bool): (r: DialogState)
    ensures r.open == open
    ensures open && !s.open ==> !r.termsAccepted && !r.privacyAccepted
    ensures !open || s.open ==> r.termsAccepted == s.termsAccepted && r.privacyAccepted == s.privacyAccepted
  {
    if open && !s.open then DialogState(true, false, false) else s.(open := open)
  }

  /** The state at mount: both consents false, whatever the `open` prop is. */
  function Mounted(open: bool): (r: DialogState)
    ensures r.open == open && !CanSubmit(r)
  {
    DialogState(open, false, false)
  }

  /** A checkbox stores `checked === true`. */
  function Accepts(checked: CheckedState): (b: bool)
    ensures b <==> checked == Checked
  {
    checked == Checked
  }

  function AfterTermsChange(s: DialogState, checked: CheckedState): (r: DialogState)
    ensures r == s.(termsAccepted := checked == Checked)
  {
    s.(termsAccepted := Accepts(checked))
  }

  function AfterPrivacyChange(s: DialogState, checked: CheckedState): (r: DialogState)
    ensures r == s.(privacyAccepted := checked == Checked)
  {
    s.(privacyAccepted := Accepts(checked))
  }

  /**
   * Opening a closed dialog always disables Confirm, whatever was ticked the
   * last time it was open; it is enabled again only once both boxes are
   * ticked, each with a definite check.
   */
  lemma OpeningResetsGate(s: DialogState, terms: CheckedState, privacy: CheckedState)
    requires !s.open
    ensures !CanSubmit(AfterOpenChange(s, true))
    ensures CanSubmit(AfterPrivacyChange(AfterTermsChange(AfterOpenChange(s, true), terms), privacy))
            <==> terms == Checked && privacy == Checked
    ensures CanSubmit(AfterTermsChange(AfterPrivacyChange(AfterOpenChange(s, true), privacy), terms))
            <==> terms == Checked && privacy == Checked
  {
  }

  /** Closing and reopening the dialog loses both consents. */
  lemma ReopenLosesConsent(s: DialogState)
    requires s.open
    ensures var r := AfterOpenChange(AfterOpenChange(s, false), true);
            r.open && !r.termsAccepted && !r.privacyAccepted
  {
  }

  /** The mounted dialog. */
  class Dialog {
    var open: bool
    var termsAccepted: bool
    var privacyAccepted: bool

    function State(): DialogState
      reads this
    {
      DialogState(open, termsAccepted, privacyAccepted)
    }

    constructor (open: bool)
      ensures State() == Mounted(open)
    {
      this.open := open;
      termsAccepted := false;
      privacyAccepted := false;
    }

    /** The parent changes the `open` prop, and the reset effect runs. */
    method SetOpen(value: bool)
      modifies this
      ensures State() == AfterOpenChange(old(State()), value)
    {
      var changed := value != open;
      open := value;
      if changed && open {
        termsAccepted := false;
        privacyAccepted := false;
      }
    }

    method OnTermsCheckedChange(checked: CheckedState)
      modifies this
      ensures State() == AfterTermsChange(old(State()), checked)
    {
      termsAccepted := checked == Checked;
    }

    method OnPrivacyCheckedChange(checked: CheckedState)
      modifies this
      ensures State() == AfterPrivacyChange(old(State()), checked)
    {
      privacyAccepted := checked == Checked;
    }

    /** "Confirm & Submit": calls `onConfirm` only while the button is enabled. */
    method ClickConfirm() returns (confirmed: bool)
      ensures confirmed <==> termsAccepted && privacyAccepted
    {
      confirmed := termsAccepted && privacyAccepted;
    }

    /** "Edit Details": asks the parent to close the dialog and never confirms. */
    method ClickEditDetails() returns (confirmed: bool)
      modifies this
      ensures !confirmed
      ensures State() == AfterOpenChange(old(State()), false)
    {
      confirmed := false;
      SetOpen(false);
    }
  }
}
