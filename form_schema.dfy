/**
 * The synchronous field rules of the onboarding form: the Canadian phone
 * predicate and the per-field schema (required, length, format), each field
 * mapped to the message the form displays for it, if any.
 */
module FormSchema {
  import opened JsValues

  /** The four fields the form collects, in the order the form declares them. */
  datatype FormData = FormData(firstName: string, lastName: string, phone: string, corporationNumber: string)

  /** One optional message per field; `None` means the field passes every rule. */
  datatype FormErrors = FormErrors(
    firstName: Option<string>,
    lastName: Option<string>,
    phone: Option<string>,
    corporationNumber: Option<string>)

  const MaxNameLength: nat := 50
  const CorporationNumberLength: nat := 9

  const FirstNameRequired := "First name is required"
  const FirstNameTooLong := "First name must be 50 characters or less"
  const LastNameRequired := "Last name is required"
  const LastNameTooLong := "Last name must be 50 characters or less"
  const PhoneRequired := "Phone number is required"
  const PhoneInvalid := "Please enter a valid Canadian phone number starting with +1"
  const CorporationNumberRequired := "Corporation number is required"
  const CorporationNumberWrongLength := "Corporation number must be exactly 9 digits"
  const CorporationNumberNotDigits := "Corporation number must contain only digits"

  // ---------------------------------------------------------------------------
  // Whitespace removal
  // ---------------------------------------------------------------------------

  /**
   * The ECMAScript `\s` class: the WhiteSpace code points (tab, vertical tab,
   * form feed, space, no-break space, zero-width no-break space and the Unicode
   * space separators) and the LineTerminator code points.
   */
  predicate IsWhitespace(c: char) {
    c == '\t' || c == '\n' || c == '\U{B}' || c == '\U{C}' || c == '\r' || c == ' '
    || c == '\U{A0}' || c == '\U{1680}' || ('\U{2000}' <= c <= '\U{200A}')
    || c == '\U{2028}' || c == '\U{2029}' || c == '\U{202F}' || c == '\U{205F}'
    || c == '\U{3000}' || c == '\U{FEFF}'
  }

  /** `s.replace(/\s/g, "")`: the characters of `s` that are not whitespace, in order. */
  function StripWhitespace(s: string): (r: string)
    ensures |r| <= |s|
    ensures forall i :: 0 <= i < |r| ==> !IsWhitespace(r[i])
  {
    if s == [] then []
    else (if IsWhitespace(s[0]) then [] else [s[0]]) + StripWhitespace(s[1..])
  }

  /** Stripping distributes over concatenation. */
  lemma {:induction false} StripConcat(a: string, b: string)
    ensures StripWhitespace(a + b) == StripWhitespace(a) + StripWhitespace(b)
  {
    if a == [] {
      assert a + b == b;
    } else {
      assert (a + b)[0] == a[0];
      assert (a + b)[1..] == a[1..] + b;
      StripConcat(a[1..], b);
    }
  }

  /** A string made only of whitespace strips to nothing. */
  lemma {:induction false} StripAllWhitespace(w: string)
    requires forall i :: 0 <= i < |w| ==> IsWhitespace(w[i])
    ensures StripWhitespace(w) == []
  {
    if w != [] {
      StripAllWhitespace(w[1..]);
    }
  }

  /** A string without whitespace is left as it is. */
  lemma {:induction false} StripNoWhitespace(s: string)
    requires forall i :: 0 <= i < |s| ==> !IsWhitespace(s[i])
    ensures StripWhitespace(s) == s
  {
    if s != [] {
      StripNoWhitespace(s[1..]);
      assert s == [s[0]] + s[1..];
    }
  }

  // ---------------------------------------------------------------------------
  // The phone pattern `^\+1[2-9]\d{9}$`
  // ---------------------------------------------------------------------------

  /** A single-character atom of a regular expression. */
  datatype CharClass = Literal(c: char) | Range(lo: char, hi: char)

  predicate InClass(c: char, k: CharClass) {
    match k
    case Literal(x) => c == x
    case Range(lo, hi) => lo <= c <= hi
  }

  /** `\d` without the `u` flag: the ASCII digits only. */
  predicate IsAsciiDigit(c: char) {
    '0' <= c <= '9'
  }

  const AsciiDigit: CharClass := Range('0', '9')

  /** `k{n}`: the atom `k` repeated `n` times. */
  function Repeat(k: CharClass, n: nat): (r: seq<CharClass>)
    ensures |r| == n
    ensures forall i :: 0 <= i < n ==> r[i] == k
  {
    if n == 0 then [] else [k] + Repeat(k, n - 1)
  }

  /** `^\+1[2-9]\d{9}$` as a sequence of single-character atoms. */
  const CanadianPhonePattern: seq<CharClass> :=
    [Literal('+'), Literal('1'), Range('2', '9')] + Repeat(AsciiDigit, 9)

  /** Anchored match (`^…$`) of a sequence of single-character atoms, one atom per character. */
  predicate MatchHere(pattern: seq<CharClass>, s: string)
    decreases pattern
  {
    if pattern == [] then s == []
    else s != [] && InClass(s[0], pattern[0]) && MatchHere(pattern[1..], s[1..])
  }

  /** An anchored match consumes exactly one character per atom, each in its atom's class. */
  lemma {:induction false} MatchHereIff(pattern: seq<CharClass>, s: string)
    ensures MatchHere(pattern, s) <==>
      |s| == |pattern| && forall i :: 0 <= i < |s| ==> InClass(s[i], pattern[i])
  {
    if pattern != [] && s != [] {
      MatchHereIff(pattern[1..], s[1..]);
      if |s| == |pattern| && forall i :: 0 <= i < |s| ==> InClass(s[i], pattern[i]) {
        assert forall i :: 0 <= i < |s[1..]| ==> s[1..][i] == s[i + 1] && pattern[1..][i] == pattern[i + 1];
      }
    }
  }

  /** `isValidCanadianPhone`: strip whitespace, then match the pattern. */
  predicate IsValidCanadianPhone(phone: string)
    ensures IsValidCanadianPhone(phone) ==> phone != "" && |StripWhitespace(phone)| == 12
  {
    MatchHereIff(CanadianPhonePattern, StripWhitespace(phone));
    MatchHere(CanadianPhonePattern, StripWhitespace(phone))
  }

  /**
   * A phone is valid exactly when, whitespace removed, it is `+1`, then a digit
   * from 2 to 9, then nine more ASCII digits: twelve characters in all.
   */
  lemma PhoneValidIff(phone: string)
    ensures IsValidCanadianPhone(phone) <==>
      var c := StripWhitespace(phone);
      |c| == 12 && c[0] == '+' && c[1] == '1' && '2' <= c[2] <= '9'
      && forall i :: 3 <= i < 12 ==> IsAsciiDigit(c[i])
  {
    var c := StripWhitespace(phone);
    MatchHereIff(CanadianPhonePattern, c);
    assert forall i :: 3 <= i < 12 ==> CanadianPhonePattern[i] == AsciiDigit;
  }

  /** Inserting whitespace anywhere in a phone number does not change its validity. */
  lemma PhoneWhitespaceInsensitive(a: string, w: string, b: string)
    requires forall i :: 0 <= i < |w| ==> IsWhitespace(w[i])
    ensures IsValidCanadianPhone(a + w + b) == IsValidCanadianPhone(a + b)
  {
    StripConcat(a + w, b);
    StripConcat(a, w);
    StripConcat(a, b);
    StripAllWhitespace(w);
    assert StripWhitespace(a) + [] == StripWhitespace(a);
  }

  /** The form's test rejects a number without the `+1` country code. */
  lemma PhoneRejectsMissingCountryCode()
    ensures !IsValidCanadianPhone("1234567890")
  {
    var p := "1234567890";
    StripNoWhitespace(p);
    MatchHereIff(CanadianPhonePattern, p);
  }

  /** A twelve-character phone without whitespace in the shape of the pattern is valid. */
  lemma PhoneOfShapeIsValid(p: string)
    requires |p| == 12 && p[0] == '+' && p[1] == '1' && '2' <= p[2] <= '9'
    requires forall i :: 3 <= i < 12 ==> IsAsciiDigit(p[i])
    ensures IsValidCanadianPhone(p)
  {
    assert forall i :: 0 <= i < |p| ==> !IsWhitespace(p[i]) by {
      assert forall i :: 1 <= i < |p| ==> IsAsciiDigit(p[i]);
    }
    StripNoWhitespace(p);
    PhoneValidIff(p);
  }

  /** The form's test accepts `+13062776103`. */
  lemma PhoneAcceptsCanadianNumber()
    ensures IsValidCanadianPhone("+13062776103")
  {
    PhoneOfShapeIsValid("+13062776103");
  }

  // ---------------------------------------------------------------------------
  // Field rules
  // ---------------------------------------------------------------------------

  /**
   * The message shown for a field: the first rule it violates, rules taken in
   * the order the schema declares them.
   */
  function FirstViolation(violations: seq<string>): (e: Option<string>)
    ensures e.None? <==> violations == []
    ensures e.Some? ==> e.value == violations[0]
  {
    if violations == [] then None else Some(violations[0])
  }

  /** `^\d+$`: one or more ASCII digits and nothing else. */
  predicate IsDigitString(v: string) {
    |v| > 0 && forall i :: 0 <= i < |v| ==> IsAsciiDigit(v[i])
  }

  /** The rules `required` and `max(50)` that both name fields share. */
  function NameViolations(v: string, required: string, tooLong: string): seq<string> {
    (if v == "" then [required] else [])
    + (if |v| > MaxNameLength then [tooLong] else [])
  }

  function FirstNameError(v: string): (e: Option<string>)
    ensures e.Some? ==> e.value == FirstNameRequired || e.value == FirstNameTooLong
  {
    FirstViolation(NameViolations(v, FirstNameRequired, FirstNameTooLong))
  }

  function LastNameError(v: string): (e: Option<string>)
    ensures e.Some? ==> e.value == LastNameRequired || e.value == LastNameTooLong
  {
    FirstViolation(NameViolations(v, LastNameRequired, LastNameTooLong))
  }

  /** The rules `required` and the Canadian phone test. */
  function PhoneError(v: string): (e: Option<string>)
    ensures e.Some? ==> e.value == PhoneRequired || e.value == PhoneInvalid
  {
    FirstViolation(
      (if v == "" then [PhoneRequired] else [])
      + (if !IsValidCanadianPhone(v) then [PhoneInvalid] else []))
  }

  /** The rules `required`, `length(9)` and `matches(/^\d+$/)`. */
  function CorporationNumberError(v: string): (e: Option<string>)
    ensures e.Some? ==>
      e.value == CorporationNumberRequired || e.value == CorporationNumberWrongLength
      || e.value == CorporationNumberNotDigits
  {
    FirstViolation(
      (if v == "" then [CorporationNumberRequired] else [])
      + (if |v| != CorporationNumberLength then [CorporationNumberWrongLength] else [])
      + (if !IsDigitString(v) then [CorporationNumberNotDigits] else []))
  }

  /** The schema applied to a whole form; every message it can give is a non-empty string. */
  function Validate(d: FormData): (e: FormErrors)
    ensures e.firstName.Some? ==> e.firstName.value != ""
    ensures e.lastName.Some? ==> e.lastName.value != ""
    ensures e.phone.Some? ==> e.phone.value != ""
    ensures e.corporationNumber.Some? ==> e.corporationNumber.value != ""
  {
    FormErrors(
      FirstNameError(d.firstName),
      LastNameError(d.lastName),
      PhoneError(d.phone),
      CorporationNumberError(d.corporationNumber))
  }

  predicate NoErrors(e: FormErrors) {
    e.firstName.None? && e.lastName.None? && e.phone.None? && e.corporationNumber.None?
  }

  /** First name: empty is "required", over 50 characters is "too long", anything else passes. */
  lemma FirstNameRule(v: string)
    ensures FirstNameError(v).None? <==> 0 < |v| <= MaxNameLength
    ensures v == "" ==> FirstNameError(v) == Some(FirstNameRequired)
    ensures |v| > MaxNameLength ==> FirstNameError(v) == Some(FirstNameTooLong)
  {
  }

  /** Last name: empty is "required", over 50 characters is "too long", anything else passes. */
  lemma LastNameRule(v: string)
    ensures LastNameError(v).None? <==> 0 < |v| <= MaxNameLength
    ensures v == "" ==> LastNameError(v) == Some(LastNameRequired)
    ensures |v| > MaxNameLength ==> LastNameError(v) == Some(LastNameTooLong)
  {
  }

  /** Phone: no error exactly for valid Canadian numbers; empty is "required", else "invalid". */
  lemma PhoneRule(v: string)
    ensures PhoneError(v).None? <==> IsValidCanadianPhone(v)
    ensures v == "" ==> PhoneError(v) == Some(PhoneRequired)
    ensures v != "" && !IsValidCanadianPhone(v) ==> PhoneError(v) == Some(PhoneInvalid)
  {
    if v == "" {
      PhoneValidIff(v);
    }
  }

  /**
   * Corporation number: no error exactly for nine ASCII digits; a non-empty
   * value of another length is reported as "must be exactly 9 digits".
   */
  lemma CorporationNumberRule(v: string)
    ensures CorporationNumberError(v).None? <==>
      |v| == CorporationNumberLength && forall i :: 0 <= i < |v| ==> IsAsciiDigit(v[i])
    ensures v == "" ==> CorporationNumberError(v) == Some(CorporationNumberRequired)
    ensures v != "" && |v| != CorporationNumberLength ==>
      CorporationNumberError(v) == Some(CorporationNumberWrongLength)
    ensures |v| == CorporationNumberLength && !IsDigitString(v) ==>
      CorporationNumberError(v) == Some(CorporationNumberNotDigits)
  {
  }

  /** The schema accepts a form exactly when each field meets its rules. */
  lemma ValidateAccepts(d: FormData)
    ensures NoErrors(Validate(d)) <==>
      0 < |d.firstName| <= MaxNameLength
      && 0 < |d.lastName| <= MaxNameLength
      && IsValidCanadianPhone(d.phone)
      && |d.corporationNumber| == CorporationNumberLength
      && forall i :: 0 <= i < |d.corporationNumber| ==> IsAsciiDigit(d.corporationNumber[i])
  {
    FirstNameRule(d.firstName);
    LastNameRule(d.lastName);
    PhoneRule(d.phone);
    CorporationNumberRule(d.corporationNumber);
  }

  /** Every empty field is reported with its own "required" message. */
  lemma EmptyFieldsReported(d: FormData)
    ensures d.firstName == "" ==> Validate(d).firstName == Some(FirstNameRequired)
    ensures d.lastName == "" ==> Validate(d).lastName == Some(LastNameRequired)
    ensures d.phone == "" ==> Validate(d).phone == Some(PhoneRequired)
    ensures d.corporationNumber == "" ==> Validate(d).corporationNumber == Some(CorporationNumberRequired)
  {
  }

  /** The first-name case of the form's tests: an empty name is required. */
  lemma FirstNameExample()
    ensures FirstNameError("") == Some(FirstNameRequired)
  {
  }

  /** The phone cases of the form's tests. */
  lemma PhoneErrorExamples()
    ensures PhoneError("1234567890") == Some(PhoneInvalid)
    ensures PhoneError("+13062776103") == None
  {
    PhoneRejectsMissingCountryCode();
    PhoneRule("1234567890");
    PhoneAcceptsCanadianNumber();
    PhoneRule("+13062776103");
  }

  /** The corporation-number cases of the form's tests. */
  lemma CorporationNumberExamples()
    ensures CorporationNumberError("12345") == Some(CorporationNumberWrongLength)
    ensures CorporationNumberError("123456789") == None
  {
    CorporationNumberRule("12345");
    CorporationNumberRule("123456789");
  }
}
