/**
 * The payment-provider list of the integrations screen: six providers, each
 * with an on/off switch. A switch is usable only on a connected provider,
 * and flipping it toggles `enabled` on the entries with that provider's id.
 * The header cards count the connected and the enabled providers and add up
 * the monthly fees of the enabled ones.
 */
module Integrations {
  import opened Wrappers
  import opened Text

  datatype Provider = Provider(
    id: string,
    name: string,
    description: string,
    status: string,
    enabled: bool,
    transactionFee: string,
    setupFee: string,
    monthlyFee: string)

  /** The providers the screen starts with. */
  const PspProviders: seq<Provider> := [
    Provider("absa", "ABSA Pay", "South African bank payment solution", "connected", true, "1.5%", "R 0", "R 99"),
    Provider("capitec", "Capitec Pay", "Digital banking payment platform", "connected", true, "1.2%", "R 0", "R 79"),
    Provider("payshap", "PayShap", "Instant payment network", "connected", true, "0.8%", "R 0", "R 49"),
    Provider("card", "Card Payments", "Visa, Mastercard, and local cards", "connected", true, "2.9%", "R 0", "R 199"),
    Provider("eft", "EFT Payments", "Electronic funds transfer", "connected", false, "0.5%", "R 0", "R 29"),
    Provider("instant-eft", "Instant EFT", "Real-time bank transfers", "pending", false, "1.8%", "R 0", "R 149")
  ]

  predicate UniqueIds(ps: seq<Provider>) {
    forall i, j :: 0 <= i < j < |ps| ==> ps[i].id != ps[j].id
  }

  // ---------------------------------------------------------------------------
  // Toggling
  // ---------------------------------------------------------------------------

  /** One entry of the `map`: flipped when its id matches, kept otherwise. */
  function ToggleOne(p: Provider, id: string): (q: Provider)
    ensures q.id == p.id && q.status == p.status && q.monthlyFee == p.monthlyFee
  {
    if p.id == id then p.(enabled := !p.enabled) else p
  }

  /** `toggleProvider(id)`: every entry passed through `ToggleOne`, in order. */
  function Toggle(ps: seq<Provider>, id: string): (r: seq<Provider>)
    ensures |r| == |ps|
    ensures forall i :: 0 <= i < |ps| ==> r[i] == ToggleOne(ps[i], id)
  {
    if ps == [] then []
    else [ToggleOne(ps[0], id)] + Toggle(ps[1..], id)
  }

  /**
   * Toggling keeps the length, the order and every field but `enabled`, and
   * flips `enabled` exactly on the entries with the given id.
   */
  lemma ToggleFlipsExactlyMatching(ps: seq<Provider>, id: string)
    ensures |Toggle(ps, id)| == |ps|
    ensures forall i :: 0 <= i < |ps| ==>
              && Toggle(ps, id)[i] == ps[i].(enabled := Toggle(ps, id)[i].enabled)
              && (Toggle(ps, id)[i].enabled != ps[i].enabled <==> ps[i].id == id)
  {
  }

  /** Toggling an id no entry has leaves the list as it is. */
  lemma ToggleUnknownId(ps: seq<Provider>, id: string)
    requires forall i :: 0 <= i < |ps| ==> ps[i].id != id
    ensures Toggle(ps, id) == ps
  {
  }

  /** Toggling the same id twice restores the list. */
  lemma ToggleInvolution(ps: seq<Provider>, id: string)
    ensures Toggle(Toggle(ps, id), id) == ps
  {
    var r := Toggle(Toggle(ps, id), id);
    assert forall i :: 0 <= i < |ps| ==> r[i] == ps[i];
  }

  /** Toggling keeps the ids, so unique ids stay unique. */
  lemma TogglePreservesUniqueIds(ps: seq<Provider>, id: string)
    requires UniqueIds(ps)
    ensures UniqueIds(Toggle(ps, id))
  {
  }

  // ---------------------------------------------------------------------------
  // Counts
  // ---------------------------------------------------------------------------

  /** `providers.filter((p) => p.status === "connected").length`. */
  function ConnectedCount(ps: seq<Provider>): (n: nat)
    ensures n <= |ps|
  {
    if ps == [] then 0 else (if ps[0].status == "connected" then 1 else 0) + ConnectedCount(ps[1..])
  }

  /** `providers.filter((p) => p.enabled).length`. */
  function EnabledCount(ps: seq<Provider>): (n: nat)
    ensures n <= |ps|
  {
    if ps == [] then 0 else (if ps[0].enabled then 1 else 0) + EnabledCount(ps[1..])
  }

  /** The connected count of a concatenation is the sum of the parts' counts. */
  lemma {:induction false} ConnectedCountAppend(a: seq<Provider>, b: seq<Provider>)
    ensures ConnectedCount(a + b) == ConnectedCount(a) + ConnectedCount(b)
    decreases |a|
  {
    if a == [] {
      assert a + b == b;
    } else {
      assert (a + b)[0] == a[0] && (a + b)[1..] == a[1..] + b;
      ConnectedCountAppend(a[1..], b);
    }
  }

  /** The connected count is zero iff no provider is connected, and full iff all are. */
  lemma {:induction false} ConnectedCountExtremes(ps: seq<Provider>)
    ensures ConnectedCount(ps) == 0 <==> forall i :: 0 <= i < |ps| ==> ps[i].status != "connected"
    ensures ConnectedCount(ps) == |ps| <==> forall i :: 0 <= i < |ps| ==> ps[i].status == "connected"
  {
    if ps != [] {
      ConnectedCountExtremes(ps[1..]);
      assert forall i :: 1 <= i < |ps| ==> ps[i] == ps[1..][i - 1];
    }
  }

  /** The enabled count of a concatenation is the sum of the parts' counts. */
  lemma {:induction false} EnabledCountAppend(a: seq<Provider>, b: seq<Provider>)
    ensures EnabledCount(a + b) == EnabledCount(a) + EnabledCount(b)
    decreases |a|
  {
    if a == [] {
      assert a + b == b;
    } else {
      assert (a + b)[0] == a[0] && (a + b)[1..] == a[1..] + b;
      EnabledCountAppend(a[1..], b);
    }
  }

  /** The enabled count is zero iff no provider is enabled, and full iff all are. */
  lemma {:induction false} EnabledCountExtremes(ps: seq<Provider>)
    ensures EnabledCount(ps) == 0 <==> forall i :: 0 <= i < |ps| ==> !ps[i].enabled
    ensures EnabledCount(ps) == |ps| <==> forall i :: 0 <= i < |ps| ==> ps[i].enabled
  {
    if ps != [] {
      EnabledCountExtremes(ps[1..]);
      assert forall i :: 1 <= i < |ps| ==> ps[i] == ps[1..][i - 1];
    }
  }

  /** Toggling never changes the connected count. */
  lemma {:induction false} ToggleKeepsConnectedCount(ps: seq<Provider>, id: string)
    ensures ConnectedCount(Toggle(ps, id)) == ConnectedCount(ps)
  {
    if ps != [] {
      assert Toggle(ps, id)[1..] == Toggle(ps[1..], id);
      ToggleKeepsConnectedCount(ps[1..], id);
    }
  }

  lemma UniqueIdsTail(ps: seq<Provider>)
    requires ps != [] && UniqueIds(ps)
    ensures UniqueIds(ps[1..])
    ensures forall i :: 0 <= i < |ps[1..]| ==> ps[1..][i].id != ps[0].id
  {
    assert forall i :: 0 <= i < |ps[1..]| ==> ps[1..][i] == ps[i + 1];
  }

  /**
   * With unique ids, toggling the provider at index k changes the enabled
   * count by exactly one: down if it was enabled, up if not.
   */
  lemma {:induction false} ToggleEnabledCount(ps: seq<Provider>, k: nat)
    requires UniqueIds(ps) && k < |ps|
    ensures EnabledCount(Toggle(ps, ps[k].id)) == EnabledCount(ps) + (if ps[k].enabled then -1 else 1)
  {
    var id := ps[k].id;
    assert Toggle(ps, id)[1..] == Toggle(ps[1..], id);
    UniqueIdsTail(ps);
    if k == 0 {
      ToggleUnknownId(ps[1..], id);
    } else {
      assert ps[1..][k - 1] == ps[k];
      ToggleEnabledCount(ps[1..], k - 1);
    }
  }

  // ---------------------------------------------------------------------------
  // The monthly-fee total
  // ---------------------------------------------------------------------------

  /** `s.replace(pattern, "")` with a string pattern: only the first occurrence is removed. */
  function RemoveFirst(s: string, pattern: string): (r: string)
    requires pattern != []
    ensures StartsWith(s, pattern) ==> r == s[|pattern|..]
    ensures |r| <= |s|
    decreases |s|
  {
    if StartsWith(s, pattern) then s[|pattern|..]
    else if s == [] then []
    else [s[0]] + RemoveFirst(s[1..], pattern)
  }

  /** The longest prefix of digits. */
  function LeadingDigits(s: string): (r: string)
    ensures AllDigits(r) && StartsWith(s, r)
    ensures |r| < |s| ==> !IsDigit(s[|r|])
  {
    if s == [] || !IsDigit(s[0]) then []
    else [s[0]] + LeadingDigits(s[1..])
  }

  /** The value of a decimal numeral. */
  function DecimalValue(ds: string): (n: nat)
    requires AllDigits(ds)
    decreases |ds|
  {
    if ds == [] then 0 else 10 * DecimalValue(ds[..|ds| - 1]) + DigitValue(ds[|ds| - 1])
  }

  /** JavaScript's white-space characters of the ASCII range. */
  predicate IsSpace(c: char) {
    c == ' ' || c == '\t' || c == '\n' || c == '\r' || c == '\U{000B}' || c == '\U{000C}'
  }

  /** The text after its leading white space: what is dropped is white space, and no more. */
  function TrimStart(s: string): (r: string)
    ensures |r| <= |s| && r == s[|s| - |r|..]
    ensures forall i :: 0 <= i < |s| - |r| ==> IsSpace(s[i])
    ensures r != [] ==> !IsSpace(r[0])
  {
    if s != [] && IsSpace(s[0]) then
      var r := TrimStart(s[1..]);
      assert forall i :: 1 <= i < |s| - |r| ==> s[i] == s[1..][i - 1];
      r
    else s
  }

  /**
   * `Number.parseInt(s)` in base ten: leading white space, an optional sign,
   * then the longest run of digits; `None` stands for NaN, when there is no
   * digit to read.
   */
  function ParseInt(s: string): (r: Option<int>)
    ensures r.None? <==> LeadingDigits(Unsigned(TrimStart(s))) == []
    ensures r.Some? && TrimStart(s)[0] == '-' ==> r.value == -(DecimalValue(LeadingDigits(Unsigned(TrimStart(s)))) as int)
    ensures r.Some? && TrimStart(s)[0] != '-' ==> r.value == DecimalValue(LeadingDigits(Unsigned(TrimStart(s))))
  {
    var t := TrimStart(s);
    var ds := LeadingDigits(Unsigned(t));
    if ds == [] then None
    else
      var v: int := DecimalValue(ds);
      Some(if t != [] && t[0] == '-' then -v else v)
  }

  /** The text after an optional leading sign. */
  function Unsigned(t: string): (u: string)
    ensures |t| - 1 <= |u| <= |t| && u == t[|t| - |u|..]
    ensures u != t <==> (t != [] && (t[0] == '+' || t[0] == '-'))
    ensures t != [] && (t[0] == '+' || t[0] == '-') ==> u == t[1..]
    ensures t == [] || !(t[0] == '+' || t[0] == '-') ==> u == t
  {
    if t != [] && (t[0] == '+' || t[0] == '-') then t[1..] else t
  }

  /** A numeral followed by anything that is not a digit parses to its value. */
  lemma ParseIntOfNumeral(ds: string, rest: string)
    requires ds != [] && AllDigits(ds)
    requires rest != [] ==> !IsDigit(rest[0])
    ensures ParseInt(ds + rest) == Some(DecimalValue(ds))
  {
    var s := ds + rest;
    assert s[0] == ds[0] && IsDigit(s[0]);
    assert TrimStart(s) == s;
    LeadingDigitsOfNumeral(ds, rest);
  }

  lemma {:induction false} LeadingDigitsOfNumeral(ds: string, rest: string)
    requires AllDigits(ds)
    requires rest != [] ==> !IsDigit(rest[0])
    ensures LeadingDigits(ds + rest) == ds
    decreases |ds|
  {
    if ds != [] {
      assert (ds + rest)[1..] == ds[1..] + rest;
      LeadingDigitsOfNumeral(ds[1..], rest);
    } else {
      assert ds + rest == rest;
    }
  }

  /** A provider's monthly fee as the total adds it: `parseInt(monthlyFee.replace("R ", ""))`. */
  function MonthlyFee(p: Provider): Option<int> {
    ParseFee(p.monthlyFee)
  }

  /** `parseInt(fee.replace("R ", ""))`. */
  function ParseFee(fee: string): Option<int> {
    ParseInt(RemoveFirst(fee, "R "))
  }

  /**
   * The `filter(enabled).reduce(+)` of the "total monthly cost" card, for a
   * given reading of each provider's fee: the fees of the enabled providers,
   * added in list order; one fee that does not parse makes the whole sum NaN.
   */
  function FeeTotal(ps: seq<Provider>, fee: string -> Option<int>): (r: Option<int>)
  {
    if ps == [] then Some(0)
    else
      var rest := FeeTotal(ps[1..], fee);
      if !ps[0].enabled then rest
      else if fee(ps[0].monthlyFee).Some? && rest.Some? then Some(fee(ps[0].monthlyFee).value + rest.value)
      else None
  }

  /** The card's total, with each fee read by `parseInt` after dropping "R ". */
  function MonthlyFeeTotal(ps: seq<Provider>): Option<int> {
    FeeTotal(ps, ParseFee)
  }

  predicate FeesParse(ps: seq<Provider>, fee: string -> Option<int>) {
    forall i :: 0 <= i < |ps| ==> fee(ps[i].monthlyFee).Some?
  }

  /** When every fee parses, the total is defined. */
  lemma {:induction false} TotalDefined(ps: seq<Provider>, fee: string -> Option<int>)
    requires FeesParse(ps, fee)
    ensures FeeTotal(ps, fee).Some?
  {
    if ps != [] {
      assert FeesParse(ps[1..], fee) by {
        forall i | 0 <= i < |ps[1..]| ensures fee(ps[1..][i].monthlyFee).Some? {
          assert ps[1..][i] == ps[i + 1];
        }
      }
      TotalDefined(ps[1..], fee);
    }
  }

  /** The total adds the first provider's fee to the rest exactly when it is enabled. */
  lemma TotalStep(ps: seq<Provider>, fee: string -> Option<int>, a: int, b: int)
    requires ps != [] && FeeTotal(ps[1..], fee).Some? && FeeTotal(ps[1..], fee).value == b
    requires ps[0].enabled ==> fee(ps[0].monthlyFee).Some? && fee(ps[0].monthlyFee).value == a
    ensures FeeTotal(ps, fee).Some?
    ensures FeeTotal(ps, fee).value == if ps[0].enabled then a + b else b
  {
  }

  /**
   * With unique ids and fees that parse, toggling the provider at index k
   * takes its fee off the total when it was enabled and adds it when not.
   */
  lemma {:induction false} ToggleChangesFeeTotal(ps: seq<Provider>, k: nat, fee: string -> Option<int>)
    requires UniqueIds(ps) && FeesParse(ps, fee) && k < |ps|
    ensures FeeTotal(Toggle(ps, ps[k].id), fee).Some? && FeeTotal(ps, fee).Some?
    ensures FeeTotal(Toggle(ps, ps[k].id), fee).value
            == FeeTotal(ps, fee).value + (if ps[k].enabled then -1 else 1) * fee(ps[k].monthlyFee).value
  {
    var id := ps[k].id;
    var t := Toggle(ps, id);
    assert t[1..] == Toggle(ps[1..], id);
    UniqueIdsTail(ps);
    assert FeesParse(ps[1..], fee) by {
      forall i | 0 <= i < |ps[1..]| ensures fee(ps[1..][i].monthlyFee).Some? {
        assert ps[1..][i] == ps[i + 1];
      }
    }
    TotalDefined(ps[1..], fee);
    if k == 0 {
      ToggleUnknownId(ps[1..], id);
    } else {
      assert ps[1..][k - 1] == ps[k];
      ToggleChangesFeeTotal(ps[1..], k - 1, fee);
    }
    var f := fee(ps[0].monthlyFee).value;
    assert fee(t[0].monthlyFee) == fee(ps[0].monthlyFee);
    TotalStep(ps, fee, f, FeeTotal(ps[1..], fee).value);
    TotalStep(t, fee, f, FeeTotal(t[1..], fee).value);
  }

  /**
   * With unique ids and parsable fees, toggling the provider at index k
   * moves the monthly total by exactly that provider's fee: down when it was
   * enabled, up when not.
   */
  lemma ToggleChangesTotalByFee(ps: seq<Provider>, k: nat)
    requires UniqueIds(ps) && FeesParse(ps, ParseFee) && k < |ps|
    ensures MonthlyFeeTotal(Toggle(ps, ps[k].id)).Some? && MonthlyFeeTotal(ps).Some?
    ensures MonthlyFeeTotal(Toggle(ps, ps[k].id)).value
            == MonthlyFeeTotal(ps).value + (if ps[k].enabled then -1 else 1) * MonthlyFee(ps[k]).value
  {
    ToggleChangesFeeTotal(ps, k, ParseFee);
  }

  /** A fee written "R " and a numeral adds the numeral's value. */
  lemma RandFee(p: Provider, ds: string)
    requires p.monthlyFee == "R " + ds && ds != [] && AllDigits(ds)
    ensures MonthlyFee(p) == Some(DecimalValue(ds))
  {
    assert StartsWith(p.monthlyFee, "R ");
    assert RemoveFirst(p.monthlyFee, "R ") == ds;
    ParseIntOfNumeral(ds, "");
    assert ds + "" == ds;
  }

  /** The rand amounts of the initial providers' monthly fees, in list order. */
  const InitialFeeAmounts: seq<int> := [99, 79, 49, 199, 29, 149]

  /** The fee strings of the initial list parse to their rand amounts. */
  lemma InitialFee(k: nat)
    requires k < |PspProviders|
    ensures MonthlyFee(PspProviders[k]).Some? && MonthlyFee(PspProviders[k]).value == InitialFeeAmounts[k]
  {
    var p := PspProviders[k];
    NumeralValues();
    if k == 0 {
      assert p.monthlyFee == "R " + "99";
      RandFee(p, "99");
    } else if k == 1 {
      assert p.monthlyFee == "R " + "79";
      RandFee(p, "79");
    } else if k == 2 {
      assert p.monthlyFee == "R " + "49";
      RandFee(p, "49");
    } else if k == 3 {
      assert p.monthlyFee == "R " + "199";
      RandFee(p, "199");
    } else if k == 4 {
      assert p.monthlyFee == "R " + "29";
      RandFee(p, "29");
    } else {
      assert p.monthlyFee == "R " + "149";
      RandFee(p, "149");
    }
  }

  lemma NumeralValues()
    ensures DecimalValue("99") == 99 && DecimalValue("79") == 79 && DecimalValue("49") == 49
    ensures DecimalValue("199") == 199 && DecimalValue("29") == 29 && DecimalValue("149") == 149
  {
    assert "199"[..2] == "19" && "149"[..2] == "14";
  }

  /** The initial ids are pairwise distinct. */
  lemma InitialIdsUnique()
    ensures UniqueIds(PspProviders)
  {
  }

  /** On the initial list, five providers are connected and four are enabled. */
  lemma InitialCounts()
    ensures ConnectedCount(PspProviders) == 5
    ensures EnabledCount(PspProviders) == 4
  {
    var ps := PspProviders;
    assert ConnectedCount(ps[5..]) == 0 && EnabledCount(ps[5..]) == 0;
    assert ConnectedCount(ps[4..]) == 1 && EnabledCount(ps[4..]) == 0;
    assert ConnectedCount(ps[3..]) == 2 && EnabledCount(ps[3..]) == 1;
    assert ConnectedCount(ps[2..]) == 3 && EnabledCount(ps[2..]) == 2;
    assert ConnectedCount(ps[1..]) == 4 && EnabledCount(ps[1..]) == 3;
  }

  // ---------------------------------------------------------------------------
  // The switch and the page
  // ---------------------------------------------------------------------------

  /** A provider's switch can be flipped only while the provider is connected. */
  predicate SwitchEnabled(p: Provider) {
    p.status == "connected"
  }

  /** The effect of flipping the switch on the card at index k. */
  function SwitchChange(ps: seq<Provider>, k: nat): (r: seq<Provider>)
    requires k < |ps|
    ensures !SwitchEnabled(ps[k]) ==> r == ps
  {
    if SwitchEnabled(ps[k]) then Toggle(ps, ps[k].id) else ps
  }

  /**
   * With unique ids, no switch ever changes a provider that is not
   * connected: only the card's own entry can flip, and only when connected.
   */
  lemma SwitchSparesUnconnected(ps: seq<Provider>, k: nat)
    requires UniqueIds(ps) && k < |ps|
    ensures forall j :: 0 <= j < |ps| && !SwitchEnabled(ps[j]) ==> SwitchChange(ps, k)[j] == ps[j]
    ensures forall j :: 0 <= j < |ps| && j != k ==> SwitchChange(ps, k)[j] == ps[j]
  {
  }

  class IntegrationsPage {
    var providers: seq<Provider>

    /** The page keeps its providers' ids unique. */
    predicate Valid()
      reads this
    {
      UniqueIds(providers)
    }

    constructor ()
      ensures Valid() && providers == PspProviders
    {
      providers := PspProviders;
      InitialIdsUnique();
    }

    method ToggleProvider(id: string)
      requires Valid()
      modifies this
      ensures Valid()
      ensures providers == Toggle(old(providers), id)
    {
      TogglePreservesUniqueIds(providers, id);
      providers := Toggle(providers, id);
    }

    /** The switch's change handler, which fires only when the switch is enabled. */
    method OnSwitchChange(k: nat)
      requires Valid() && k < |providers|
      modifies this
      ensures Valid()
      ensures providers == SwitchChange(old(providers), k)
    {
      if providers[k].status == "connected" {
        ToggleProvider(providers[k].id);
      }
    }
  }
}
