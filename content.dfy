/**
 * The wizard's static reference tables: the phase list, the option lists of
 * every select, the bank table with its branch codes, the lookup maps built
 * from those tables, and the record a new registration starts from.
 */
module Content {
  import opened Text
  import opened FormData
  import Schema

  datatype PhaseConfig = PhaseConfig(id: int, caption: string, description: string)

  /** A value and its display label (`label` in the source, a keyword here), as the product, ID-type and account-type lists hold. */
  datatype SelectOption = SelectOption(value: string, caption: string)

  datatype PlanOption = PlanOption(value: string, caption: string, price: string)

  /** A bank and the universal branch code that is filled in for it. */
  datatype BankEntry = BankEntry(value: string, caption: string, branchCode: string)

  const Phases: seq<PhaseConfig> := [
    PhaseConfig(1, "Plan", "Select your product and subscription plan"),
    PhaseConfig(2, "Details", "Tell us about yourself"),
    PhaseConfig(3, "Payment", "Set up your debit order")
  ]

  const ProductOptions: seq<SelectOption> := [
    SelectOption("client-service", "Client Service Testing"),
    SelectOption("training", "StratCol Training"),
    SelectOption("consulting", "Consulting Services")
  ]

  const PlanOptions: seq<PlanOption> := [
    PlanOption("basic", "Basic Plan", "R299/month"),
    PlanOption("professional", "Professional Plan", "R599/month"),
    PlanOption("enterprise", "Enterprise Plan", "R999/month")
  ]

  const IdTypeOptions: seq<SelectOption> := [
    SelectOption("sa-id", "South African ID"),
    SelectOption("passport", "Passport"),
    SelectOption("drivers-license", "Driver's License")
  ]

  const BankOptions: seq<BankEntry> := [
    BankEntry("absa", "ABSA Bank", "632005"),
    BankEntry("fnb", "First National Bank", "250655"),
    BankEntry("standard", "Standard Bank", "051001"),
    BankEntry("nedbank", "Nedbank", "198765"),
    BankEntry("capitec", "Capitec Bank", "470010")
  ]

  const AccountTypeOptions: seq<SelectOption> := [
    SelectOption("current", "Current"),
    SelectOption("savings", "Savings"),
    SelectOption("cheque", "Cheque")
  ]

  /** The separator of a plan label and its price, an en dash between spaces. */
  const PlanLabelSeparator: string := " \U{2013} "

  /**
   * `Object.fromEntries`: the entries are stored in order, so a later entry
   * overwrites an earlier one with the same key.
   */
  function FromEntries(entries: seq<(string, string)>): (m: map<string, string>)
    ensures m.Keys == set i | 0 <= i < |entries| :: entries[i].0
  {
    if entries == [] then map[]
    else
      assert forall i :: 0 <= i < |entries| - 1 ==> entries[..|entries| - 1][i] == entries[i];
      FromEntries(entries[..|entries| - 1])[entries[|entries| - 1].0 := entries[|entries| - 1].1]
  }

  predicate DistinctKeys(entries: seq<(string, string)>) {
    forall i, j :: 0 <= i < j < |entries| ==> entries[i].0 != entries[j].0
  }

  /** With distinct keys, every entry is found under its own key. */
  lemma {:induction false} FromEntriesLookup(entries: seq<(string, string)>, i: nat)
    requires DistinctKeys(entries) && i < |entries|
    ensures entries[i].0 in FromEntries(entries)
    ensures FromEntries(entries)[entries[i].0] == entries[i].1
  {
    var n := |entries| - 1;
    if i < n {
      var prefix := entries[..n];
      assert prefix[i] == entries[i];
      assert DistinctKeys(prefix) by {
        forall a, b | 0 <= a < b < |prefix| ensures prefix[a].0 != prefix[b].0 {
          assert prefix[a] == entries[a] && prefix[b] == entries[b];
        }
      }
      FromEntriesLookup(prefix, i);
    }
  }

  function BranchCodeEntries(): seq<(string, string)> {
    seq(|BankOptions|, i requires 0 <= i < |BankOptions| => (BankOptions[i].value, BankOptions[i].branchCode))
  }

  function BankLabelEntries(): seq<(string, string)> {
    seq(|BankOptions|, i requires 0 <= i < |BankOptions| => (BankOptions[i].value, BankOptions[i].caption))
  }

  function ProductLabelEntries(): seq<(string, string)> {
    seq(|ProductOptions|, i requires 0 <= i < |ProductOptions| => (ProductOptions[i].value, ProductOptions[i].caption))
  }

  function PlanLabelEntries(): seq<(string, string)> {
    seq(|PlanOptions|, i requires 0 <= i < |PlanOptions|
      => (PlanOptions[i].value, PlanOptions[i].caption + PlanLabelSeparator + PlanOptions[i].price))
  }

  /** Bank value to branch code, for the branch-code auto-fill. */
  const BankBranchCodeMap: map<string, string> := FromEntries(BranchCodeEntries())

  /** Bank value to its display label. */
  const BankLabelMap: map<string, string> := FromEntries(BankLabelEntries())

  /** Product value to its display label. */
  const ProductLabelMap: map<string, string> := FromEntries(ProductLabelEntries())

  /** Plan value to its label followed by its price. */
  const PlanLabelMap: map<string, string> := FromEntries(PlanLabelEntries())

  /**
   * The bank values are pairwise distinct, so each lookup map sends a bank's
   * value to that bank's own branch code and label, and has no other keys.
   */
  lemma BankMapsAgree()
    ensures forall i, j :: 0 <= i < j < |BankOptions| ==> BankOptions[i].value != BankOptions[j].value
    ensures forall i :: 0 <= i < |BankOptions| ==>
              && BankOptions[i].value in BankBranchCodeMap
              && BankBranchCodeMap[BankOptions[i].value] == BankOptions[i].branchCode
              && BankOptions[i].value in BankLabelMap
              && BankLabelMap[BankOptions[i].value] == BankOptions[i].caption
  {
    BankValuesDistinct();
    var codes, labels := BranchCodeEntries(), BankLabelEntries();
    assert DistinctKeys(codes) by {
      forall a, b | 0 <= a < b < |codes| ensures codes[a].0 != codes[b].0 {
        assert codes[a].0 == BankOptions[a].value && codes[b].0 == BankOptions[b].value;
      }
    }
    assert DistinctKeys(labels) by {
      forall a, b | 0 <= a < b < |labels| ensures labels[a].0 != labels[b].0 {
        assert labels[a].0 == BankOptions[a].value && labels[b].0 == BankOptions[b].value;
      }
    }
    forall i | 0 <= i < |BankOptions|
      ensures BankOptions[i].value in BankBranchCodeMap
      ensures BankBranchCodeMap[BankOptions[i].value] == BankOptions[i].branchCode
      ensures BankOptions[i].value in BankLabelMap
      ensures BankLabelMap[BankOptions[i].value] == BankOptions[i].caption
    {
      FromEntriesLookup(codes, i);
      FromEntriesLookup(labels, i);
    }
  }

  /** No two banks of the table share a value. */
  lemma BankValuesDistinct()
    ensures forall i, j :: 0 <= i < j < |BankOptions| ==> BankOptions[i].value != BankOptions[j].value
  {
  }

  /** The branch-code map has a key for every bank of the table and no other. */
  lemma BankMapKeys()
    ensures forall k :: k in BankBranchCodeMap <==> exists i :: 0 <= i < |BankOptions| && BankOptions[i].value == k
  {
    BankMapsAgree();
  }

  /** Every branch code in the bank table is exactly six digits. */
  lemma BankTableCodesSixDigits()
    ensures forall i :: 0 <= i < |BankOptions| ==>
              |BankOptions[i].branchCode| == 6 && AllDigits(BankOptions[i].branchCode)
  {
  }

  /**
   * Every value of the branch-code map is non-empty and passes the phase 3
   * branch-code rule.
   */
  lemma BankBranchCodesPassSchema()
    ensures forall k :: k in BankBranchCodeMap ==>
              BankBranchCodeMap[k] != "" && Schema.BranchCodeIssues(BankBranchCodeMap[k]) == {}
  {
    BankMapsAgree();
    BankMapKeys();
    BankTableCodesSixDigits();
    forall k | k in BankBranchCodeMap
      ensures BankBranchCodeMap[k] != "" && Schema.BranchCodeIssues(BankBranchCodeMap[k]) == {}
    {
      var i :| 0 <= i < |BankOptions| && BankOptions[i].value == k;
      Schema.SixDigitBranchCodePasses(BankOptions[i].branchCode);
    }
  }

  /** Each plan label is the plan's label, an en dash and its price. */
  lemma PlanLabelsCarryPrice()
    ensures forall i :: 0 <= i < |PlanOptions| ==>
              && PlanOptions[i].value in PlanLabelMap
              && PlanLabelMap[PlanOptions[i].value] == PlanOptions[i].caption + PlanLabelSeparator + PlanOptions[i].price
  {
    assert DistinctKeys(PlanLabelEntries());
    forall i | 0 <= i < |PlanOptions|
      ensures PlanOptions[i].value in PlanLabelMap
      ensures PlanLabelMap[PlanOptions[i].value] == PlanOptions[i].caption + PlanLabelSeparator + PlanOptions[i].price
    {
      FromEntriesLookup(PlanLabelEntries(), i);
    }
  }

  /** The phases are numbered 1, 2, 3 in order. */
  lemma PhasesInOrder()
    ensures |Phases| == 3
    ensures forall i :: 0 <= i < |Phases| ==> Phases[i].id == i + 1
  {
  }

  /**
   * The record a new registration starts from: phone "+27", ID type "sa-id",
   * both consents false and every other field empty.
   */
  const DefaultFormValues: EMandateFormData := EMandateFormData(
    "", "", "", "", "", "+27", "", "sa-id", "", "", "", "", false, false)

  /**
   * The default record fails every phase: the selections and names are
   * empty, "+27" lacks the nine subscriber digits, and neither consent is given.
   */
  lemma DefaultFailsEveryPhase(isEmail: string -> bool)
    ensures Schema.Issue(MandateType, Schema.Required) in Schema.PlanIssues(DefaultFormValues)
    ensures Schema.Issue(ProductType, Schema.Required) in Schema.PlanIssues(DefaultFormValues)
    ensures Schema.Issue(FirstName, Schema.TooShort) in Schema.DetailsIssues(DefaultFormValues, isEmail)
    ensures Schema.Issue(LastName, Schema.TooShort) in Schema.DetailsIssues(DefaultFormValues, isEmail)
    ensures Schema.Issue(Phone, Schema.InvalidPhone) in Schema.DetailsIssues(DefaultFormValues, isEmail)
    ensures Schema.Issue(TermsAccepted, Schema.NotAccepted) in Schema.PaymentIssues(DefaultFormValues)
    ensures Schema.Issue(PrivacyAccepted, Schema.NotAccepted) in Schema.PaymentIssues(DefaultFormValues)
  {
  }
}
