/**
 * The identity helpers and the per-phase validation rules of the
 * registration wizard: the South African ID number check (13 digits, a
 * month/day range check and a Luhn-style check digit), date-of-birth
 * extraction with a two-digit-year century pivot, and the three phase
 * schemas with their merged full-form schema.
 *
 * A schema is modelled as the set of issues it reports for a record: the
 * record is accepted exactly when that set is empty. Every rule of a field
 * is checked, so one field can report several issues at once.
 */
module Schema {
  import opened Wrappers
  import opened Text
  import opened FormData

  // ---------------------------------------------------------------------------
  // South African ID number
  // ---------------------------------------------------------------------------

  /** The shape `^\d{13}$`. */
  predicate IsThirteenDigits(id: string) {
    |id| == 13 && AllDigits(id)
  }

  /** `Number.parseInt` of the two digits at `i` and `i + 1`. */
  function TwoDigitNumber(id: string, i: nat): (n: nat)
    requires i + 2 <= |id| && IsDigit(id[i]) && IsDigit(id[i + 1])
    ensures n < 100
  {
    10 * DigitValue(id[i]) + DigitValue(id[i + 1])
  }

  /** The month digits YYMMDD[2..4] of an ID number. */
  function Month(id: string): nat
    requires IsThirteenDigits(id)
  {
    TwoDigitNumber(id, 2)
  }

  /** The day digits YYMMDD[4..6] of an ID number. */
  function Day(id: string): nat
    requires IsThirteenDigits(id)
  {
    TwoDigitNumber(id, 4)
  }

  /**
   * The range check on the date digits: month 1..12 and day 1..31. The day is
   * not checked against the month.
   */
  predicate DateDigitsInRange(id: string)
    requires IsThirteenDigits(id)
  {
    1 <= Month(id) <= 12 && 1 <= Day(id) <= 31
  }

  /**
   * The contribution of the digit `d` at index `i` to the checksum: the digit
   * itself at an even index, and the sum of the digits of its double at an
   * odd index.
   */
  function LuhnTerm(i: nat, d: nat): (t: nat)
    requires d < 10
    ensures t < 10
  {
    if i % 2 == 0 then d
    else
      var doubled := d * 2;
      if doubled > 9 then doubled - 9 else doubled
  }

  /**
   * The term is the digit at an even index and the digit sum of its double
   * at an odd index (`doubled - 9` for a two-digit double is that digit sum).
   */
  lemma LuhnTermIsDigitSum(i: nat, d: nat)
    requires d < 10
    ensures i % 2 == 0 ==> LuhnTerm(i, d) == d
    ensures i % 2 == 1 ==> LuhnTerm(i, d) == (2 * d) / 10 + (2 * d) % 10
  {
  }

  /** The checksum over the first `n` digits of `id`. */
  function LuhnSum(id: string, n: nat): (sum: nat)
    requires n <= |id| && AllDigits(id)
    ensures sum <= 9 * n
  {
    if n == 0 then 0 else LuhnSum(id, n - 1) + LuhnTerm(n - 1, DigitValue(id[n - 1]))
  }

  /** `(10 - (sum % 10)) % 10`: the digit that brings the checksum to a multiple of ten. */
  function CheckDigit(sum: nat): (c: nat)
    ensures c < 10
    ensures (sum + c) % 10 == 0
  {
    (10 - sum % 10) % 10
  }

  /** What `isValidSaId` accepts. */
  predicate SaIdValid(id: string) {
    && IsThirteenDigits(id)
    && DateDigitsInRange(id)
    && DigitValue(id[12]) == CheckDigit(LuhnSum(id, 12))
  }

  /** `isValidSaId`: the shape test, the date range test, then the checksum loop. */
  method IsValidSaId(id: string) returns (valid: bool)
    ensures !IsThirteenDigits(id) ==> !valid
    ensures IsThirteenDigits(id) && !DateDigitsInRange(id) ==> !valid
    ensures IsThirteenDigits(id) && DateDigitsInRange(id) ==>
              (valid <==> DigitValue(id[12]) == CheckDigit(LuhnSum(id, 12)))
  {
    if !IsThirteenDigits(id) {
      return false;
    }
    var month := TwoDigitNumber(id, 2);
    var day := TwoDigitNumber(id, 4);
    if month < 1 || month > 12 || day < 1 || day > 31 {
      return false;
    }
    var sum := 0;
    for i := 0 to 12
      invariant sum == LuhnSum(id, i)
    {
      var digit := DigitValue(id[i]);
      if i % 2 == 0 {
        sum := sum + digit;
      } else {
        var doubled := digit * 2;
        sum := sum + if doubled > 9 then doubled - 9 else doubled;
      }
    }
    var checkDigit := (10 - sum % 10) % 10;
    valid := checkDigit == DigitValue(id[12]);
  }

  /** The checksum reads only the digits it sums over. */
  lemma {:induction false} LuhnSumDependsOnPrefix(s: string, t: string, n: nat)
    requires AllDigits(s) && AllDigits(t) && n <= |s| && n <= |t|
    requires forall i :: 0 <= i < n ==> s[i] == t[i]
    ensures LuhnSum(s, n) == LuhnSum(t, n)
  {
    if n > 0 {
      LuhnSumDependsOnPrefix(s, t, n - 1);
    }
  }

  /** Replacing the digit at `k` swaps that digit's term in the checksum. */
  lemma {:induction false} LuhnSumUpdate(s: string, k: nat, c: char, n: nat)
    requires AllDigits(s) && IsDigit(c) && k < n <= |s|
    ensures AllDigits(s[k := c])
    ensures LuhnSum(s[k := c], n)
            == LuhnSum(s, n) - LuhnTerm(k, DigitValue(s[k])) + LuhnTerm(k, DigitValue(c))
  {
    var t := s[k := c];
    assert AllDigits(t) by {
      forall i | 0 <= i < |t| ensures IsDigit(t[i]) {
        if i != k { assert t[i] == s[i]; }
      }
    }
    if n - 1 == k {
      LuhnSumDependsOnPrefix(s, t, k);
    } else {
      LuhnSumUpdate(s, k, c, n - 1);
    }
  }

  /** At a fixed index, distinct digits make distinct checksum terms. */
  lemma LuhnTermInjective(i: nat, d: nat, e: nat)
    requires d < 10 && e < 10 && d != e
    ensures LuhnTerm(i, d) != LuhnTerm(i, e)
  {
  }

  /** The 13-digit ID that completes a 12-digit prefix with its check digit. */
  function CompleteSaId(prefix: string): (id: string)
    requires |prefix| == 12 && AllDigits(prefix)
    ensures IsThirteenDigits(id) && id[..12] == prefix
    ensures LuhnSum(id, 12) == LuhnSum(prefix, 12)
  {
    var id := prefix + [DigitChar(CheckDigit(LuhnSum(prefix, 12)))];
    LuhnSumDependsOnPrefix(prefix, id, 12);
    id
  }

  /**
   * For a 12-digit prefix whose date digits are in range exactly one final
   * digit makes a valid ID: the completed ID is valid, and any other final
   * digit gives an invalid one.
   */
  lemma CheckDigitUnique(prefix: string, c: char)
    requires |prefix| == 12 && AllDigits(prefix) && IsDigit(c)
    requires 1 <= TwoDigitNumber(prefix, 2) <= 12 && 1 <= TwoDigitNumber(prefix, 4) <= 31
    ensures SaIdValid(CompleteSaId(prefix))
    ensures SaIdValid(prefix + [c]) <==> prefix + [c] == CompleteSaId(prefix)
  {
    var id := prefix + [c];
    var full := CompleteSaId(prefix);
    assert IsThirteenDigits(id);
    LuhnSumDependsOnPrefix(prefix, id, 12);
    assert Month(id) == Month(full) == TwoDigitNumber(prefix, 2);
    assert Day(id) == Day(full) == TwoDigitNumber(prefix, 4);
    if SaIdValid(id) {
      assert DigitValue(c) == DigitValue(full[12]);
      assert c == full[12];
      assert id == full;
    }
  }

  /** Two checksums less than ten apart cannot both be completed by the same digit. */
  lemma CheckDigitSeparates(s: nat, t: nat)
    requires s != t && -10 < s - t < 10
    ensures CheckDigit(s) != CheckDigit(t)
  {
  }

  /** Changing any single digit of a valid ID makes it invalid. */
  lemma SingleDigitChangeDetected(id: string, k: nat, c: char)
    requires SaIdValid(id) && k < 13 && IsDigit(c) && c != id[k]
    ensures !SaIdValid(id[k := c])
  {
    var t := id[k := c];
    assert AllDigits(t) by {
      forall i | 0 <= i < |t| ensures IsDigit(t[i]) {
        if i != k { assert t[i] == id[i]; }
      }
    }
    if k == 12 {
      LuhnSumDependsOnPrefix(id, t, 12);
      assert DigitValue(t[12]) != DigitValue(id[12]);
    } else if DateDigitsInRange(t) {
      LuhnSumUpdate(id, k, c, 12);
      LuhnTermInjective(k, DigitValue(id[k]), DigitValue(c));
      CheckDigitSeparates(LuhnSum(t, 12), LuhnSum(id, 12));
      assert t[12] == id[12];
    }
  }

  /** The checksum over twelve digits, written out term by term. */
  lemma LuhnSumTwelve(id: string)
    requires |id| >= 12 && AllDigits(id)
    ensures LuhnSum(id, 12)
            == LuhnTerm(0, DigitValue(id[0])) + LuhnTerm(1, DigitValue(id[1])) + LuhnTerm(2, DigitValue(id[2]))
             + LuhnTerm(3, DigitValue(id[3])) + LuhnTerm(4, DigitValue(id[4])) + LuhnTerm(5, DigitValue(id[5]))
             + LuhnTerm(6, DigitValue(id[6])) + LuhnTerm(7, DigitValue(id[7])) + LuhnTerm(8, DigitValue(id[8]))
             + LuhnTerm(9, DigitValue(id[9])) + LuhnTerm(10, DigitValue(id[10])) + LuhnTerm(11, DigitValue(id[11]))
  {
    var t := seq(12, k requires 0 <= k < 12 => LuhnTerm(k, DigitValue(id[k])));
    assert LuhnSum(id, 2) == t[0] + t[1];
    assert LuhnSum(id, 4) == LuhnSum(id, 2) + t[2] + t[3];
    assert LuhnSum(id, 6) == LuhnSum(id, 4) + t[4] + t[5];
    assert LuhnSum(id, 8) == LuhnSum(id, 6) + t[6] + t[7];
    assert LuhnSum(id, 10) == LuhnSum(id, 8) + t[8] + t[9];
  }

  /** The fixture 8001015009087 is a valid ID. */
  lemma KnownGoodSaId()
    ensures SaIdValid("8001015009087")
  {
    var id := "8001015009087";
    assert IsThirteenDigits(id);
    LuhnSumTwelve(id);
    assert LuhnSum(id, 12) == 33;
  }

  /** 8002300000005 passes: its date digits are in range and its check digit is right. */
  lemma FebruaryThirtiethValid()
    ensures SaIdValid("8002300000005")
  {
    var id := "8002300000005";
    assert IsThirteenDigits(id);
    LuhnSumTwelve(id);
  }

  /** 8002300000000 fails on its check digit. */
  lemma FebruaryThirtiethWrongCheckDigit()
    ensures IsThirteenDigits("8002300000000") && !SaIdValid("8002300000000")
  {
    FebruaryThirtiethValid();
    SingleDigitChangeDetected("8002300000005", 12, '0');
    assert "8002300000005"[12 := '0'] == "8002300000000";
  }

  /**
   * 30 February passes the range check: 8002300000005 is a valid ID, although
   * 8002300000000 (check digit 0) is not, and no date of birth comes out of it.
   */
  lemma FebruaryThirtiethAccepted(currentTwoDigitYear: int)
    requires 0 <= currentTwoDigitYear < 100
    ensures SaIdValid("8002300000005")
    ensures !SaIdValid("8002300000000")
    ensures ExtractDob("8002300000005", currentTwoDigitYear) == None
  {
    FebruaryThirtiethValid();
    FebruaryThirtiethWrongCheckDigit();
    var good := "8002300000005";
    ExtractDobIffRealDate(good, currentTwoDigitYear);
    assert Month(good) == 2 && Day(good) == 30;
  }

  // ---------------------------------------------------------------------------
  // Date of birth
  // ---------------------------------------------------------------------------

  /** A calendar date with the month numbered 1..12. */
  datatype Date = Date(year: int, month: int, day: int)

  predicate IsLeapYear(y: int) {
    y % 4 == 0 && (y % 100 != 0 || y % 400 == 0)
  }

  /** The length of the month with index `m` (0 = January) in the Gregorian calendar. */
  function DaysInMonth(y: int, m: nat): (n: nat)
    requires m < 12
    ensures 28 <= n <= 31
    ensures n == 29 <==> m == 1 && IsLeapYear(y)
  {
    if m == 1 then (if IsLeapYear(y) then 29 else 28)
    else if m == 3 || m == 5 || m == 8 || m == 10 then 30
    else 31
  }

  predicate IsRealDate(year: int, month: int, day: int) {
    1 <= month <= 12 && 1 <= day <= DaysInMonth(year, month - 1)
  }

  /** What a JavaScript `Date` reports: full year, month index 0..11 and day of the month. */
  datatype JsDate = JsDate(fullYear: int, monthIndex: int, date: int)

  predicate IsCalendarDate(d: JsDate) {
    0 <= d.monthIndex < 12 && 1 <= d.date <= DaysInMonth(d.fullYear, d.monthIndex)
  }

  /** Months counted from year 0, to order (year, month) pairs. */
  function MonthOrdinal(year: int, monthIndex: int): int {
    12 * year + monthIndex
  }

  /** Carries a day past the end of its month into the following months. */
  function RollForward(y: int, m: nat, d: int): (r: JsDate)
    requires m < 12 && d >= 1
    ensures IsCalendarDate(r)
    ensures d <= DaysInMonth(y, m) ==> r == JsDate(y, m, d)
    ensures d > DaysInMonth(y, m) ==> MonthOrdinal(r.fullYear, r.monthIndex) > MonthOrdinal(y, m)
    decreases d
  {
    if d <= DaysInMonth(y, m) then JsDate(y, m, d)
    else if m == 11 then RollForward(y + 1, 0, d - 31)
    else RollForward(y, m + 1, d - DaysInMonth(y, m))
  }

  /** Carries a day before the first of its month back into the preceding months. */
  function RollBack(y: int, m: nat, d: int): (r: JsDate)
    requires m < 12 && d <= DaysInMonth(y, m)
    ensures IsCalendarDate(r)
    ensures d >= 1 ==> r == JsDate(y, m, d)
    ensures d < 1 ==> MonthOrdinal(r.fullYear, r.monthIndex) < MonthOrdinal(y, m)
    decreases if d < 1 then 1 - d else 0
  {
    if d >= 1 then JsDate(y, m, d)
    else if m == 0 then RollBack(y - 1, 11, d + 31)
    else RollBack(y, m - 1, d + DaysInMonth(y, m - 1))
  }

  /**
   * `new Date(year, monthIndex, day)` read back through `getFullYear`,
   * `getMonth` and `getDate`: a year argument 0..99 means 1900..1999, the
   * month index carries into the year, and the day rolls over month ends.
   */
  function MakeDate(year: int, monthIndex: int, day: int): (r: JsDate)
    ensures IsCalendarDate(r)
  {
    var fullYear := if 0 <= year <= 99 then 1900 + year else year;
    var y := fullYear + monthIndex / 12;
    var m := monthIndex % 12;
    if day < 1 then RollBack(y, m, day) else RollForward(y, m, day)
  }

  /** A constructed date reads back unchanged exactly when it names a real day. */
  lemma MakeDateRoundTrip(year: int, monthIndex: int, day: int)
    requires !(0 <= year <= 99)
    ensures MakeDate(year, monthIndex, day) == JsDate(year, monthIndex, day)
            <==> 0 <= monthIndex < 12 && 1 <= day <= DaysInMonth(year, monthIndex)
  {
    if 0 <= monthIndex < 12 {
      assert monthIndex / 12 == 0 && monthIndex % 12 == monthIndex;
    }
  }

  /**
   * The century pivot: a two-digit year up to the current two-digit year is
   * in the 2000s, a later one in the 1900s. The result is the latest year with
   * those last two digits that is not after the current year 2000 + current.
   */
  function PivotYear(yy: nat, currentTwoDigitYear: int): (year: int)
    requires yy < 100 && 0 <= currentTwoDigitYear < 100
    ensures year % 100 == yy
    ensures 1900 + currentTwoDigitYear < year <= 2000 + currentTwoDigitYear
  {
    var century := if yy <= currentTwoDigitYear then 2000 else 1900;
    century + yy
  }

  /**
   * `extractDobFromSaId`, with the current two-digit year as a parameter and
   * the date as a (year, month, day) value instead of a formatted string.
   */
  function ExtractDob(id: string, currentTwoDigitYear: int): (r: Option<Date>)
    requires 0 <= currentTwoDigitYear < 100
    ensures !IsThirteenDigits(id) ==> r == None
    ensures r.Some? ==> IsThirteenDigits(id)
    ensures r.Some? ==> r.value == Date(PivotYear(TwoDigitNumber(id, 0), currentTwoDigitYear), Month(id), Day(id))
    ensures r.Some? ==> IsRealDate(r.value.year, r.value.month, r.value.day)
  {
    if !IsThirteenDigits(id) then None
    else DobFromDigits(TwoDigitNumber(id, 0), Month(id), Day(id), currentTwoDigitYear)
  }

  /** The pivot and the calendar round trip on the three two-digit numbers of the ID. */
  function DobFromDigits(yy: nat, mm: nat, dd: nat, currentTwoDigitYear: int): (r: Option<Date>)
    requires yy < 100 && 0 <= currentTwoDigitYear < 100
    ensures r.Some? ==> r.value == Date(PivotYear(yy, currentTwoDigitYear), mm, dd)
    ensures r.Some? ==> IsRealDate(r.value.year, r.value.month, r.value.day)
  {
    var year := PivotYear(yy, currentTwoDigitYear);
    var date := MakeDate(year, mm - 1, dd);
    if date.fullYear != year || date.monthIndex != mm - 1 || date.date != dd then None
    else Some(Date(year, mm, dd))
  }

  lemma ExtractDobIffRealDate(id: string, currentTwoDigitYear: int)
    requires IsThirteenDigits(id) && 0 <= currentTwoDigitYear < 100
    ensures ExtractDob(id, currentTwoDigitYear).Some?
            <==> IsRealDate(PivotYear(TwoDigitNumber(id, 0), currentTwoDigitYear), Month(id), Day(id))
  {
    var year := PivotYear(TwoDigitNumber(id, 0), currentTwoDigitYear);
    MakeDateRoundTrip(year, Month(id) - 1, Day(id));
  }

  /** The date of birth reads only YYMMDD: the sequence, citizenship and check digits are ignored. */
  lemma DobIgnoresLaterDigits(id: string, k: nat, c: char, currentTwoDigitYear: int)
    requires IsThirteenDigits(id) && 6 <= k < 13 && IsDigit(c) && 0 <= currentTwoDigitYear < 100
    ensures ExtractDob(id[k := c], currentTwoDigitYear) == ExtractDob(id, currentTwoDigitYear)
  {
    var t := id[k := c];
    assert IsThirteenDigits(t) by {
      forall i | 0 <= i < 13 ensures IsDigit(t[i]) {
        if i != k { assert t[i] == id[i]; }
      }
    }
    assert t[0] == id[0] && t[1] == id[1] && t[2] == id[2];
    assert t[3] == id[3] && t[4] == id[4] && t[5] == id[5];
  }

  /** At the pivot itself the year is in the 2000s; one past it, in the 1900s. */
  lemma CenturyPivotAtBoundary(currentTwoDigitYear: int)
    requires 0 <= currentTwoDigitYear < 99
    ensures PivotYear(currentTwoDigitYear, currentTwoDigitYear) == 2000 + currentTwoDigitYear
    ensures PivotYear(currentTwoDigitYear + 1, currentTwoDigitYear) == 1900 + currentTwoDigitYear + 1
  {
  }

  // ---------------------------------------------------------------------------
  // Phase schemas
  // ---------------------------------------------------------------------------

  /** The failure a rule reports; each names one of the schema's messages. */
  datatype Code =
    | Required        // "Please select ...", "ID type is required"
    | TooShort        // a minimum length
    | TooLong         // a maximum length
    | InvalidEmail    // "Please enter a valid email address"
    | InvalidPhone    // "Enter a valid SA phone number"
    | NotDigits       // "... must contain only digits"
    | WrongLength     // "Branch code must be exactly 6 digits"
    | NotAccepted     // the terms or privacy consent is not `true`
    | InvalidSaId     // the ID number refinement

  /** One validation failure, on the field its path names. */
  datatype Issue = Issue(path: Field, code: Code)

  function When(failed: bool, path: Field, code: Code): set<Issue> {
    if failed then {Issue(path, code)} else {}
  }

  /** Phase 1: both selections are non-empty. */
  function PlanIssues(d: EMandateFormData): set<Issue> {
    When(|d.mandateType| < 1, MandateType, Required)
    + When(|d.productType| < 1, ProductType, Required)
  }

  /** The pattern `^\+27\d{9}$`. */
  predicate IsSaPhone(p: string) {
    |p| == 12 && StartsWith(p, "+27") && AllDigits(p[3..])
  }

  function NameIssues(path: Field, name: string): set<Issue> {
    When(|name| < 2, path, TooShort) + When(|name| > 50, path, TooLong)
  }

  /** Phase 2 without the ID refinement; `isEmail` stands for the library's e-mail check. */
  function DetailsIssues(d: EMandateFormData, isEmail: string -> bool): set<Issue> {
    NameIssues(FirstName, d.firstName)
    + NameIssues(LastName, d.lastName)
    + When(!isEmail(d.email), Email, InvalidEmail)
    + When(!IsSaPhone(d.phone), Phone, InvalidPhone)
    + When(|d.idNumber| < 6, IdNumber, TooShort)
    + When(|d.idType| < 1, IdType, Required)
  }

  /** Phase 2 with the refinement: an SA ID must also pass `isValidSaId`. */
  function DetailsRefinedIssues(d: EMandateFormData, isEmail: string -> bool): set<Issue> {
    DetailsIssues(d, isEmail)
    + When(d.idType == "sa-id" && !SaIdValid(d.idNumber), IdNumber, InvalidSaId)
  }

  /** The pattern `^\d+$`: one or more digits. */
  predicate IsDigitRun(s: string) {
    |s| >= 1 && AllDigits(s)
  }

  function AccountNumberIssues(s: string): set<Issue> {
    When(|s| < 6, AccountNumber, TooShort)
    + When(|s| > 16, AccountNumber, TooLong)
    + When(!IsDigitRun(s), AccountNumber, NotDigits)
  }

  function BranchCodeIssues(s: string): set<Issue> {
    When(|s| != 6, BranchCode, WrongLength) + When(!IsDigitRun(s), BranchCode, NotDigits)
  }

  /** Exactly six digits pass the branch-code rule. */
  lemma SixDigitBranchCodePasses(code: string)
    ensures BranchCodeIssues(code) == {} <==> |code| == 6 && AllDigits(code)
  {
    if |code| != 6 { assert Issue(BranchCode, WrongLength) in BranchCodeIssues(code); }
  }

  /** Phase 3: banking details and both consents. */
  function PaymentIssues(d: EMandateFormData): set<Issue> {
    When(|d.bankName| < 1, BankName, Required)
    + When(|d.accountType| < 1, AccountType, Required)
    + AccountNumberIssues(d.accountNumber)
    + BranchCodeIssues(d.branchCode)
    + When(!d.termsAccepted, TermsAccepted, NotAccepted)
    + When(!d.privacyAccepted, PrivacyAccepted, NotAccepted)
  }

  /** The merged schema: plan, unrefined details and payment. */
  function FullFormIssues(d: EMandateFormData, isEmail: string -> bool): set<Issue> {
    PlanIssues(d) + DetailsIssues(d, isEmail) + PaymentIssues(d)
  }

  lemma PhasePlanAccepts(d: EMandateFormData)
    ensures PlanIssues(d) == {} <==> d.mandateType != "" && d.productType != ""
  {
    if d.mandateType == "" { assert Issue(MandateType, Required) in PlanIssues(d); }
    if d.productType == "" { assert Issue(ProductType, Required) in PlanIssues(d); }
  }

  lemma PhaseDetailsAccepts(d: EMandateFormData, isEmail: string -> bool)
    ensures DetailsIssues(d, isEmail) == {}
            <==> && 2 <= |d.firstName| <= 50 && 2 <= |d.lastName| <= 50
                 && isEmail(d.email) && IsSaPhone(d.phone)
                 && |d.idNumber| >= 6 && d.idType != ""
  {
    var r := DetailsIssues(d, isEmail);
    if |d.firstName| < 2 { assert Issue(FirstName, TooShort) in r; }
    if |d.firstName| > 50 { assert Issue(FirstName, TooLong) in r; }
    if |d.lastName| < 2 { assert Issue(LastName, TooShort) in r; }
    if |d.lastName| > 50 { assert Issue(LastName, TooLong) in r; }
    if !isEmail(d.email) { assert Issue(Email, InvalidEmail) in r; }
    if !IsSaPhone(d.phone) { assert Issue(Phone, InvalidPhone) in r; }
    if |d.idNumber| < 6 { assert Issue(IdNumber, TooShort) in r; }
    if d.idType == "" { assert Issue(IdType, Required) in r; }
  }

  /**
   * The refined schema accepts what the plain one accepts, except an `sa-id`
   * record whose number fails `isValidSaId`; that failure alone is added, on
   * the `idNumber` path.
   */
  lemma PhaseDetailsRefinedAccepts(d: EMandateFormData, isEmail: string -> bool)
    ensures DetailsRefinedIssues(d, isEmail) == {}
            <==> DetailsIssues(d, isEmail) == {} && (d.idType == "sa-id" ==> SaIdValid(d.idNumber))
    ensures DetailsRefinedIssues(d, isEmail) - DetailsIssues(d, isEmail) <= {Issue(IdNumber, InvalidSaId)}
    ensures Issue(IdNumber, InvalidSaId) in DetailsRefinedIssues(d, isEmail)
            <==> d.idType == "sa-id" && !SaIdValid(d.idNumber)
  {
    var r := DetailsRefinedIssues(d, isEmail);
    if d.idType == "sa-id" && !SaIdValid(d.idNumber) { assert Issue(IdNumber, InvalidSaId) in r; }
    assert Issue(IdNumber, InvalidSaId) !in DetailsIssues(d, isEmail);
  }

  lemma PhasePaymentAccepts(d: EMandateFormData)
    ensures PaymentIssues(d) == {}
            <==> && d.bankName != "" && d.accountType != ""
                 && 6 <= |d.accountNumber| <= 16 && AllDigits(d.accountNumber)
                 && |d.branchCode| == 6 && AllDigits(d.branchCode)
                 && d.termsAccepted && d.privacyAccepted
  {
    var r := PaymentIssues(d);
    if d.bankName == "" { assert Issue(BankName, Required) in r; }
    if d.accountType == "" { assert Issue(AccountType, Required) in r; }
    if |d.accountNumber| < 6 { assert Issue(AccountNumber, TooShort) in r; }
    if |d.accountNumber| > 16 { assert Issue(AccountNumber, TooLong) in r; }
    if !IsDigitRun(d.accountNumber) { assert Issue(AccountNumber, NotDigits) in r; }
    if |d.branchCode| != 6 { assert Issue(BranchCode, WrongLength) in r; }
    if !IsDigitRun(d.branchCode) { assert Issue(BranchCode, NotDigits) in r; }
    if !d.termsAccepted { assert Issue(TermsAccepted, NotAccepted) in r; }
    if !d.privacyAccepted { assert Issue(PrivacyAccepted, NotAccepted) in r; }
  }

  /** The full schema accepts exactly what all three phase schemas accept. */
  lemma FullFormAccepts(d: EMandateFormData, isEmail: string -> bool)
    ensures FullFormIssues(d, isEmail) == {}
            <==> PlanIssues(d) == {} && DetailsIssues(d, isEmail) == {} && PaymentIssues(d) == {}
  {
  }

  /** A complete record whose SA ID number has a wrong check digit. */
  const BadChecksumRecord := EMandateFormData(
    "debit-order", "standard", "Thabo", "Mokoena", "thabo@example.co.za", "+27821234567",
    "8001015009080", "sa-id", "absa", "savings", "1234567890", "632005", true, true)

  /** One wrong digit on the fixture: 8001015009080 fails the check. */
  lemma BadChecksumId()
    ensures IsThirteenDigits("8001015009080") && !SaIdValid("8001015009080")
  {
    KnownGoodSaId();
    SingleDigitChangeDetected("8001015009087", 12, '0');
    assert "8001015009087"[12 := '0'] == "8001015009080";
  }

  /** The full schema does not apply the SA ID refinement. */
  lemma FullFormSkipsSaIdCheck(isEmail: string -> bool)
    requires isEmail(BadChecksumRecord.email)
    ensures FullFormIssues(BadChecksumRecord, isEmail) == {}
    ensures DetailsRefinedIssues(BadChecksumRecord, isEmail) == {Issue(IdNumber, InvalidSaId)}
  {
    var d := BadChecksumRecord;
    assert IsSaPhone(d.phone) by { assert d.phone[..3] == "+27"; }
    assert AllDigits(d.accountNumber) && AllDigits(d.branchCode);
    BadChecksumId();
    PhasePlanAccepts(d);
    PhaseDetailsAccepts(d, isEmail);
    PhasePaymentAccepts(d);
    FullFormAccepts(d, isEmail);
    PhaseDetailsRefinedAccepts(d, isEmail);
  }
}
