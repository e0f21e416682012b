/**
 * Phase 2 of the wizard, "Your Details": the rules that run as the user
 * types. The phone number keeps its +27 prefix, the ID number is cleaned
 * according to the selected ID type, the ID type is guessed from the shape of
 * the ID number, and a valid South African ID shows a tick and the date of
 * birth it encodes.
 */
module PhaseDetails {
  import opened Wrappers
  import opened Text
  import opened FormData
  import Schema

  // ---------------------------------------------------------------------------
  // Phone number
  // ---------------------------------------------------------------------------

  predicate IsPhoneChar(c: char) {
    IsDigit(c) || c == '+'
  }

  predicate AllPhoneChars(s: string) {
    forall i :: 0 <= i < |s| ==> IsPhoneChar(s[i])
  }

  /** `value.replace(/[^\d+]/g, "")`: the digits and plus signs of `s`, in order. */
  function KeepPhoneChars(s: string): (r: string)
    ensures AllPhoneChars(r)
    ensures |r| <= |s|
    ensures AllPhoneChars(s) ==> r == s
  {
    if s == [] then []
    else
      assert s == [s[0]] + s[1..];
      (if IsPhoneChar(s[0]) then [s[0]] else []) + KeepPhoneChars(s[1..])
  }

  /** A single character is kept exactly when it is a digit or '+'. */
  lemma KeepPhoneCharsChar(c: char)
    ensures KeepPhoneChars([c]) == if IsPhoneChar(c) then [c] else []
  {
    assert [c][1..] == [];
  }

  /**
   * The filter works character by character, so every digit and '+' of the
   * input survives, in order, wherever it stands (an interior '+' included).
   */
  lemma {:induction false} KeepPhoneCharsAppend(a: string, b: string)
    ensures KeepPhoneChars(a + b) == KeepPhoneChars(a) + KeepPhoneChars(b)
    decreases |a|
  {
    if a == [] {
      assert a + b == b;
    } else {
      var head := if IsPhoneChar(a[0]) then [a[0]] else [];
      assert (a + b)[0] == a[0] && (a + b)[1..] == a[1..] + b;
      assert KeepPhoneChars(a + b) == head + KeepPhoneChars(a[1..] + b);
      KeepPhoneCharsAppend(a[1..], b);
      assert KeepPhoneChars(a) == head + KeepPhoneChars(a[1..]);
    }
  }

  /**
   * `value.replace(/^\+?27?/, "")`: drops a leading match of an optional '+',
   * a required '2' and an optional '7'; without a '2' there is no match.
   */
  function StripCountryCode(s: string): (r: string)
    ensures |r| <= |s| && r == s[|s| - |r|..]
    ensures StartsWith(s, "+27") ==> r == s[3..]
    ensures StartsWith(s, "+2") && !StartsWith(s, "+27") ==> r == s[2..]
    ensures StartsWith(s, "27") ==> r == s[2..]
    ensures StartsWith(s, "2") && !StartsWith(s, "27") ==> r == s[1..]
    ensures !StartsWith(s, "2") && !StartsWith(s, "+2") ==> r == s
  {
    var plus := if |s| > 0 && s[0] == '+' then 1 else 0;
    if |s| > plus && s[plus] == '2' then
      var end := if |s| > plus + 1 && s[plus + 1] == '7' then plus + 2 else plus + 1;
      s[end..]
    else s
  }

  /**
   * `handlePhoneChange`: strip everything but digits and '+', put "+27" in
   * front when it is missing (after dropping a partly typed prefix), and cap
   * the result at twelve characters. A plus sign inside the number is kept.
   */
  function NormalizePhone(input: string): (r: string)
    ensures StartsWith(r, "+27")
    ensures 3 <= |r| <= 12
    ensures AllPhoneChars(r)
    ensures Schema.IsSaPhone(input) ==> r == input
    ensures r == Take(WithCountryCode(KeepPhoneChars(input)), 12)
  {
    SaPhoneChars(input);
    Cap(WithCountryCode(KeepPhoneChars(input)))
  }

  /**
   * The prefix step: a value that already starts with "+27" is kept; any
   * other loses its leading match of `^\+?27?` and gets "+27" in front.
   */
  function WithCountryCode(v: string): (p: string)
    requires AllPhoneChars(v)
    ensures StartsWith(p, "+27") && AllPhoneChars(p)
    ensures StartsWith(v, "+27") ==> p == v
    ensures !StartsWith(v, "+27") ==> p == "+27" + StripCountryCode(v)
  {
    if StartsWith(v, "+27") then v
    else
      StripKeepsPhoneChars(v);
      "+27" + StripCountryCode(v)
  }

  /** The twelve-character cap; it keeps a "+27" prefix. */
  function Cap(v: string): (r: string)
    requires StartsWith(v, "+27") && AllPhoneChars(v)
    ensures StartsWith(r, "+27") && 3 <= |r| <= 12 && AllPhoneChars(r)
    ensures StartsWith(v, r) && |r| == if |v| <= 12 then |v| else 12
    ensures |v| <= 12 ==> r == v
    ensures r == Take(v, 12)
  {
    if |v| > 12 then
      assert v[..12][..3] == v[..3];
      v[..12]
    else v
  }

  /** Dropping a country-code prefix keeps only phone characters. */
  lemma StripKeepsPhoneChars(value: string)
    requires AllPhoneChars(value)
    ensures AllPhoneChars("+27" + StripCountryCode(value))
  {
    var tail := StripCountryCode(value);
    var k := |value| - |tail|;
    assert tail == value[k..];
    forall i | 0 <= i < |tail| ensures IsPhoneChar(tail[i]) {
      assert tail[i] == value[k + i];
    }
    var p := "+27" + tail;
    forall i | 0 <= i < |p| ensures IsPhoneChar(p[i]) {
      if i >= 3 { assert p[i] == tail[i - 3]; }
    }
  }

  /** A valid SA phone holds only phone characters, so the strip step keeps it. */
  lemma SaPhoneChars(input: string)
    ensures Schema.IsSaPhone(input) ==> KeepPhoneChars(input) == input
  {
    if Schema.IsSaPhone(input) {
      forall i | 0 <= i < |input| ensures IsPhoneChar(input[i]) {
        if i < 3 { assert input[i] == input[..3][i]; } else { assert input[i] == input[3..][i - 3]; }
      }
    }
  }

  /** Normalising twice is normalising once. */
  lemma NormalizePhoneIdempotent(input: string)
    ensures NormalizePhone(NormalizePhone(input)) == NormalizePhone(input)
  {
  }

  /** A lone "+2" is completed to "+27". */
  lemma NormalizePartialPrefix()
    ensures NormalizePhone("+2") == "+27"
  {
    assert KeepPhoneChars("+2") == "+2";
    assert StripCountryCode("+2") == "";
  }

  /**
   * A ten-digit national number "0" + nine digits keeps its leading 0 after
   * "+27" and loses its last digit to the cap; "0821234567" becomes
   * "+27082123456".
   */
  lemma NormalizeNationalNumber(rest: string)
    requires |rest| == 9 && AllDigits(rest)
    ensures NormalizePhone("0" + rest) == "+270" + rest[..8]
  {
    var x := "0" + rest;
    assert AllPhoneChars(x) by {
      forall i | 0 <= i < |x| ensures IsPhoneChar(x[i]) {
        if i > 0 { assert x[i] == rest[i - 1]; }
      }
    }
    assert StripCountryCode(x) == x;
    assert ("+27" + x)[..12] == "+270" + rest[..8];
  }

  /** A number typed as "27" + nine digits gets its plus sign back. */
  lemma NormalizeMissingPlus(rest: string)
    requires |rest| == 9 && AllDigits(rest)
    ensures NormalizePhone("27" + rest) == "+27" + rest
  {
    var x := "27" + rest;
    assert AllPhoneChars(x) by {
      forall i | 0 <= i < |x| ensures IsPhoneChar(x[i]) {
        if i > 1 { assert x[i] == rest[i - 2]; }
      }
    }
    assert x[0] == '2' && x[1] == '7';
    assert StripCountryCode(x) == x[2..] == rest;
  }

  /** "+2" followed by digits that do not start with '7' loses only the "+2" before "+27" is put in front. */
  lemma NormalizePartialCode(rest: string)
    requires AllDigits(rest) && (rest == [] || rest[0] != '7')
    ensures NormalizePhone("+2" + rest) == Take("+27" + rest, 12)
  {
    var v := "+2" + rest;
    assert AllPhoneChars(v) by {
      forall i | 0 <= i < |v| ensures IsPhoneChar(v[i]) {
        if i >= 2 { assert v[i] == rest[i - 2]; }
      }
    }
    assert v[..2] == "+2" && v[2..] == rest;
    assert !StartsWith(v, "+27") by {
      if |v| >= 3 { assert v[2] == rest[0]; }
    }
  }

  /** A plus sign after the prefix is not removed. */
  lemma NormalizeKeepsInteriorPlus()
    ensures NormalizePhone("+27+1") == "+27+1"
  {
    var v := "+27+1";
    assert AllPhoneChars(v) by {
      assert v[0] == '+' && v[1] == '2' && v[2] == '7' && v[3] == '+' && v[4] == '1';
    }
    assert KeepPhoneChars(v) == v;
    assert StartsWith(v, "+27");
  }

  // ---------------------------------------------------------------------------
  // ID number and ID type
  // ---------------------------------------------------------------------------

  /**
   * `detectIdType`: the ID type that the detection leaves for the ID number
   * `value`. Values shorter than three characters are ignored; thirteen
   * digits mean "sa-id"; a letter while the type is "sa-id" means "passport".
   */
  function DetectIdType(value: string, idType: string): (r: string)
    ensures |value| < 3 ==> r == idType
    ensures |value| >= 3 && Schema.IsThirteenDigits(value) ==> r == "sa-id"
    ensures (|value| >= 3 && !Schema.IsThirteenDigits(value) && ContainsLetter(value) && idType == "sa-id")
              ==> r == "passport"
    ensures (|value| >= 3 && !Schema.IsThirteenDigits(value) && !(ContainsLetter(value) && idType == "sa-id"))
              ==> r == idType
    ensures r != idType ==> r == "sa-id" || r == "passport"
  {
    if |value| < 3 then idType
    else if Schema.IsThirteenDigits(value) then (if idType != "sa-id" then "sa-id" else idType)
    else if ContainsLetter(value) then (if idType == "sa-id" then "passport" else idType)
    else idType
  }

  /** Running the detection again after its own write changes nothing more. */
  lemma DetectIdTypeSettles(value: string, idType: string)
    ensures DetectIdType(value, DetectIdType(value, idType)) == DetectIdType(value, idType)
  {
  }

  /**
   * `handleIdNumberChange`: for an SA ID only the digits are kept, at most
   * thirteen of them; for any other type the input is kept up to twenty
   * characters.
   */
  function IdNumberInput(input: string, idType: string): (r: string)
    ensures idType == "sa-id" ==>
              && AllDigits(r) && StartsWith(DigitsOnly(input), r)
              && |r| == if |DigitsOnly(input)| <= 13 then |DigitsOnly(input)| else 13
    ensures idType != "sa-id" ==>
              StartsWith(input, r) && |r| == if |input| <= 20 then |input| else 20
  {
    if idType == "sa-id" then Take(DigitsOnly(input), 13) else Take(input, 20)
  }

  /**
   * While the type is "sa-id" the input handler removes every letter, so
   * typing never makes the detection switch to "passport".
   */
  lemma SaIdTypingKeepsSaId(input: string)
    ensures DetectIdType(IdNumberInput(input, "sa-id"), "sa-id") == "sa-id"
  {
  }

  /** The tick beside the ID number: an "sa-id" whose number passes `isValidSaId`. */
  predicate ShowsValidTick(d: EMandateFormData) {
    d.idType == "sa-id" && Schema.SaIdValid(d.idNumber)
  }

  /** The date of birth under the ID number, shown only together with the tick. */
  function DisplayedDob(d: EMandateFormData, currentTwoDigitYear: int): (r: Option<Schema.Date>)
    requires 0 <= currentTwoDigitYear < 100
    ensures r.Some? ==> ShowsValidTick(d) && r == Schema.ExtractDob(d.idNumber, currentTwoDigitYear)
    ensures ShowsValidTick(d) ==> r == Schema.ExtractDob(d.idNumber, currentTwoDigitYear)
  {
    if ShowsValidTick(d) then Schema.ExtractDob(d.idNumber, currentTwoDigitYear) else None
  }

  /** The tick appears exactly when the refined phase 2 schema has no ID-number checksum issue for an SA ID. */
  lemma TickAgreesWithRefinement(d: EMandateFormData, isEmail: string -> bool)
    requires d.idType == "sa-id"
    ensures ShowsValidTick(d)
            <==> Schema.Issue(IdNumber, Schema.InvalidSaId) !in Schema.DetailsRefinedIssues(d, isEmail)
  {
    Schema.PhaseDetailsRefinedAccepts(d, isEmail);
  }

  /** A valid ID for 30 February shows the tick but no date of birth. */
  lemma TickWithoutDob(d: EMandateFormData, currentTwoDigitYear: int)
    requires 0 <= currentTwoDigitYear < 100
    requires d.idType == "sa-id" && d.idNumber == "8002300000005"
    ensures ShowsValidTick(d) && DisplayedDob(d, currentTwoDigitYear) == None
  {
    Schema.FebruaryThirtiethAccepted(currentTwoDigitYear);
  }

  // ---------------------------------------------------------------------------
  // Writes to the form store
  // ---------------------------------------------------------------------------

  /** The phone input's change handler. */
  method HandlePhoneChange(form: FormStore, input: string)
    modifies form
    ensures form.data == old(form.data).(phone := NormalizePhone(input))
    ensures StartsWith(form.data.phone, "+27")
  {
    var value := KeepPhoneChars(input);
    if !StartsWith(value, "+27") {
      value := "+27" + StripCountryCode(value);
    }
    if |value| > 12 {
      value := value[..12];
    }
    form.data := form.data.(phone := value);
  }

  /** The ID number input's change handler, which reads the current ID type. */
  method HandleIdNumberChange(form: FormStore, input: string)
    modifies form
    ensures form.data == old(form.data).(idNumber := IdNumberInput(input, old(form.data.idType)))
  {
    if form.data.idType == "sa-id" {
      var cleaned := Take(DigitsOnly(input), 13);
      form.data := form.data.(idNumber := cleaned);
    } else {
      form.data := form.data.(idNumber := Take(input, 20));
    }
  }

  /** The detection effect that runs after the ID number (or the ID type) changes. */
  method RunIdTypeDetection(form: FormStore)
    modifies form
    ensures form.data == old(form.data).(idType := DetectIdType(old(form.data.idNumber), old(form.data.idType)))
  {
    var value := form.data.idNumber;
    if |value| < 3 {
      return;
    }
    if Schema.IsThirteenDigits(value) {
      if form.data.idType != "sa-id" {
        form.data := form.data.(idType := "sa-id");
      }
    } else if ContainsLetter(value) {
      if form.data.idType == "sa-id" {
        form.data := form.data.(idType := "passport");
      }
    }
  }

  /** Choosing an ID type in the select. */
  method SelectIdType(form: FormStore, value: string)
    modifies form
    ensures form.data == old(form.data).(idType := value)
  {
    form.data := form.data.(idType := value);
  }
}
