/** The form validators and the phone formatter of the registration and
    profile forms. Each regular expression of the source is a per-character
    predicate here; every validator looks at the trimmed input except the
    e-mail check, which tests the input as typed. */
module Validation {
  import opened Text

  /** `{ isValid: true }` or `{ isValid: false, error }`. */
  datatype ValidationResult = Valid | Invalid(error: string)

  // ---------------------------------------------------------------- phone

  /** A Cameroon number once the non-digits are removed: nine digits starting
      with 6 (mobile) or 2 (landline), or the same behind the country code. */
  predicate IsCameroonDigits(d: string) {
    (|d| == 9 && (d[0] == '6' || d[0] == '2')) ||
    (|d| == 12 && d[..3] == "237" && (d[3] == '6' || d[3] == '2'))
  }

  const PhoneLeadError := "Phone number must start with 6 (mobile) or 2 (landline)"
  const PhoneCountryError := "Invalid Cameroon phone number format"
  const PhoneLengthError := "Phone number must be 9 digits (local) or 12 digits with country code (+237)"

  /** The verdict on the digits of a non-blank phone number: nine digits
      must lead with 6 or 2, "237" and nine more must too, any other count
      is a length error. */
  function DigitsVerdict(clean: string): (r: ValidationResult)
    ensures r == Valid <==> IsCameroonDigits(clean)
    ensures |clean| == 9 && r != Valid ==> r == Invalid(PhoneLeadError)
    ensures |clean| == 12 && clean[..3] == "237" && r != Valid ==> r == Invalid(PhoneCountryError)
    ensures |clean| != 9 && !(|clean| == 12 && clean[..3] == "237") ==> r == Invalid(PhoneLengthError)
  {
    if |clean| == 9 then
      if clean[0] == '6' || clean[0] == '2' then Valid else Invalid(PhoneLeadError)
    else if |clean| == 12 && clean[..3] == "237" then
      var local := clean[3..];
      if local[0] == '6' || local[0] == '2' then Valid else Invalid(PhoneCountryError)
    else Invalid(PhoneLengthError)
  }

  /** The phone field is optional: a blank value is accepted; otherwise only
      its digits count. */
  function ValidatePhoneNumber(phone: string): (r: ValidationResult)
    ensures r == Valid <==> IsBlank(phone) || IsCameroonDigits(Digits(phone))
    ensures !IsBlank(phone) ==> r == DigitsVerdict(Digits(phone))
  {
    if TrimsToEmpty(phone) then Valid else DigitsVerdict(Digits(phone))
  }

  /** `+237 d dd dd dd dd` for nine local digits. */
  function FormatLocal(d: string): (r: string)
    requires |d| == 9
    ensures |r| == 18 && r[..5] == "+237 "
    ensures r[5..6] == d[..1] && r[7..9] == d[1..3] && r[10..12] == d[3..5] && r[13..15] == d[5..7] && r[16..] == d[7..]
    ensures r[6] == ' ' && r[9] == ' ' && r[12] == ' ' && r[15] == ' '
  {
    "+237 " + (d[..1] + (" " + (d[1..3] + (" " + (d[3..5] + (" " + (d[5..7] + (" " + d[7..]))))))))
  }

  /** Display form of a phone number: any nine digits, or "237" and nine
      digits, are laid out as `+237 d dd dd dd dd` (the leading digit is not
      checked); anything else is returned unchanged. */
  function FormatPhoneNumber(phone: string): (r: string)
    ensures var clean := Digits(phone);
            (|clean| == 9 || (|clean| == 12 && clean[..3] == "237")) ==>
              |r| == 18 && r[..5] == "+237 " && Digits(r) == "237" + clean[|clean| - 9..] &&
              r[6] == ' ' && r[9] == ' ' && r[12] == ' ' && r[15] == ' '
    ensures var clean := Digits(phone);
            !(|clean| == 9 || (|clean| == 12 && clean[..3] == "237")) ==> r == phone
  {
    var clean := Digits(phone);
    if |clean| == 9 then
      DigitsOfFormatLocal(clean);
      assert clean[|clean| - 9..] == clean;
      FormatLocal(clean)
    else if |clean| == 12 && clean[..3] == "237" then
      DigitsOfFormatLocal(clean[3..]);
      FormatLocal(clean[3..])
    else phone
  }

  lemma DigitsGroup(a: string, rest: string)
    requires forall i :: 0 <= i < |a| ==> IsDigit(a[i])
    ensures Digits(a + (" " + rest)) == a + Digits(rest)
  {
    DigitsAppend(a, " " + rest);
    DigitsAppend(" ", rest);
    DigitsOfDigits(a);
  }

  /** The digits of a formatted number are the country code and the local
      number. */
  lemma DigitsOfFormatLocal(d: string)
    requires |d| == 9 && forall i :: 0 <= i < 9 ==> IsDigit(d[i])
    ensures Digits(FormatLocal(d)) == "237" + d
  {
    var t4 := d[5..7] + (" " + d[7..]);
    DigitsGroup(d[5..7], d[7..]);
    DigitsOfDigits(d[7..]);
    assert Digits(t4) == d[5..];
    var t3 := d[3..5] + (" " + t4);
    DigitsGroup(d[3..5], t4);
    assert Digits(t3) == d[3..];
    var t2 := d[1..3] + (" " + t3);
    DigitsGroup(d[1..3], t3);
    assert Digits(t2) == d[1..];
    var t1 := d[..1] + (" " + t2);
    DigitsGroup(d[..1], t2);
    assert Digits(t1) == d;
    DigitsAppend("+237 ", t1);
    assert Digits("+237 ") == "237";
  }

  /** Local and international spellings of one number format identically,
      whatever separators they contain. */
  lemma FormatIgnoresCountryCode(a: string, b: string)
    requires |Digits(a)| == 9 && Digits(b) == "237" + Digits(a)
    ensures FormatPhoneNumber(a) == FormatPhoneNumber(b)
  {
    assert Digits(b)[..3] == "237" && Digits(b)[3..] == Digits(a);
  }

  /** Formatting is idempotent: a formatted number formats to itself. */
  lemma FormatIdempotent(phone: string)
    ensures FormatPhoneNumber(FormatPhoneNumber(phone)) == FormatPhoneNumber(phone)
  {
    var clean := Digits(phone);
    if |clean| == 9 {
      DigitsOfFormatLocal(clean);
      FormatIgnoresCountryCode(phone, FormatLocal(clean));
    } else if |clean| == 12 && clean[..3] == "237" {
      var local := clean[3..];
      DigitsOfFormatLocal(local);
      assert ("237" + local)[..3] == "237" && ("237" + local)[3..] == local;
    }
  }

  lemma {:induction false} DigitsOfBlank(s: string)
    ensures IsBlank(s) ==> Digits(s) == []
  {
    if s != [] { DigitsOfBlank(s[1..]); }
  }

  lemma FormattedLocalValid(d: string)
    requires |d| == 9 && forall i :: 0 <= i < 9 ==> IsDigit(d[i])
    requires d[0] == '6' || d[0] == '2'
    ensures ValidatePhoneNumber(FormatLocal(d)) == Valid
  {
    DigitsOfFormatLocal(d);
    var f := FormatLocal(d);
    assert Digits(f)[..3] == "237" && Digits(f)[3] == d[0];
    assert IsCameroonDigits(Digits(f));
  }

  lemma FormatKeepsCameroonDigits(phone: string)
    requires IsCameroonDigits(Digits(phone))
    ensures ValidatePhoneNumber(FormatPhoneNumber(phone)) == Valid
  {
    var clean := Digits(phone);
    if |clean| == 9 {
      FormattedLocalValid(clean);
    } else {
      FormattedLocalValid(clean[3..]);
    }
  }

  lemma BlankFormatsToItself(phone: string)
    requires IsBlank(phone)
    ensures FormatPhoneNumber(phone) == phone
  {
    DigitsOfBlank(phone);
    assert |Digits(phone)| == 0;
  }

  /** Formatting a valid number keeps it valid. */
  lemma FormatKeepsValid(phone: string)
    requires ValidatePhoneNumber(phone) == Valid
    ensures ValidatePhoneNumber(FormatPhoneNumber(phone)) == Valid
  {
    if IsBlank(phone) {
      BlankFormatsToItself(phone);
    } else {
      assert IsCameroonDigits(Digits(phone));
      FormatKeepsCameroonDigits(phone);
    }
  }

  // ---------------------------------------------------------------- e-mail

  /** `/^[^\s@]+@[^\s@]+\.[^\s@]+$/` matches s, with the '@' at index i and
      the '.' at index j: no white space anywhere, no other '@', and the three
      runs around them are not empty. */
  predicate EmailSplit(s: string, i: int, j: int) {
    0 < i && i + 1 < j && j + 1 < |s| && s[i] == '@' && s[j] == '.' &&
    forall k :: 0 <= k < |s| ==> !IsWhitespace(s[k]) && (s[k] == '@' ==> k == i)
  }

  /** Index of the first c in s, or |s|. */
  function IndexOf(s: string, c: char): (k: nat)
    ensures k <= |s| && c !in s[..k]
    ensures k < |s| ==> s[k] == c
  {
    if s == [] || s[0] == c then 0
    else
      var k := IndexOf(s[1..], c);
      assert s[..k + 1] == [s[0]] + s[1..][..k];
      k + 1
  }

  predicate NoSpaceOrAt(x: string) {
    forall k :: 0 <= k < |x| ==> !IsWhitespace(x[k]) && x[k] != '@'
  }

  /** The regex test written as a scan: split at the first '@', then check
      both halves and look for an inner dot in the domain. */
  predicate EmailShape(s: string) {
    var i := IndexOf(s, '@');
    0 < i < |s| && NoSpaceOrAt(s[..i]) && NoSpaceOrAt(s[i + 1..]) &&
    |s[i + 1..]| >= 3 && '.' in s[i + 1..][1..|s[i + 1..]| - 1]
  }

  lemma EmailShapeIsRegex(s: string)
    ensures EmailShape(s) <==> exists i, j :: EmailSplit(s, i, j)
  {
    var i := IndexOf(s, '@');
    if EmailShape(s) {
      var d := s[i + 1..];
      var m :| 0 <= m < |d[1..|d| - 1]| && d[1..|d| - 1][m] == '.';
      var j := i + 2 + m;
      assert s[j] == '.';
      forall k | 0 <= k < |s| ensures !IsWhitespace(s[k]) && (s[k] == '@' ==> k == i) {
        if k < i { assert s[k] == s[..i][k]; }
        else if k > i { assert s[k] == d[k - i - 1]; }
      }
      assert EmailSplit(s, i, j);
    }
    if exists i', j' :: EmailSplit(s, i', j') {
      var i', j' :| EmailSplit(s, i', j');
      assert i == i';
      var d := s[i + 1..];
      assert d[1..|d| - 1][j' - i - 2] == '.';
    }
  }

  const EmailRequired := "Email is required"
  const EmailInvalid := "Please enter a valid email address"

  /** A blank e-mail is reported as missing; otherwise the input as typed
      (untrimmed) must match the e-mail pattern. */
  function ValidateEmail(email: string): (r: ValidationResult)
    ensures r == Valid <==> exists i, j :: EmailSplit(email, i, j)
    ensures IsBlank(email) ==> r == Invalid(EmailRequired)
    ensures !IsBlank(email) && r != Valid ==> r == Invalid(EmailInvalid)
  {
    EmailShapeIsRegex(email);
    if TrimsToEmpty(email) then
      assert forall i, j :: !EmailSplit(email, i, j) by {
        forall i, j | EmailSplit(email, i, j) ensures false { }
      }
      Invalid(EmailRequired)
    else if !EmailShape(email) then Invalid(EmailInvalid)
    else Valid
  }

  /** Surrounding white space is not stripped before the pattern test, so a
      padded address is rejected. */
  lemma PaddedEmailRejected(email: string)
    ensures ValidateEmail(" " + email) != Valid
  {
    var s := " " + email;
    assert IsWhitespace(s[0]);
    forall i, j | EmailSplit(s, i, j) ensures false { }
  }

  // ---------------------------------------------------------------- names

  /** `[a-zA-ZÀ-ÿ\s\-'\.]` */
  predicate IsNameChar(c: char) {
    IsAsciiLetter(c) || IsLatin1Letter(c) || IsWhitespace(c) || c == '-' || c == '\'' || c == '.'
  }

  /** `[a-zA-ZÀ-ÿ0-9\s\-'\.&()]` */
  predicate IsOrganizationNameChar(c: char) {
    IsNameChar(c) || IsDigit(c) || c == '&' || c == '(' || c == ')'
  }

  /** `[a-zA-Z0-9\s\-\/]` */
  predicate IsRegistrationChar(c: char) {
    IsAsciiLetter(c) || IsDigit(c) || IsWhitespace(c) || c == '-' || c == '/'
  }

  predicate AllNameChars(s: string) { forall i :: 0 <= i < |s| ==> IsNameChar(s[i]) }
  predicate AllOrganizationNameChars(s: string) { forall i :: 0 <= i < |s| ==> IsOrganizationNameChar(s[i]) }
  predicate AllRegistrationChars(s: string) { forall i :: 0 <= i < |s| ==> IsRegistrationChar(s[i]) }

  /** A person's name: required, 2 to 100 characters once trimmed, letters
      (Latin-1 accents included), white space, '-', apostrophe and '.' only.
      The checks are made in that order and the first failure is reported. */
  function ValidateName(name: string, fieldName: string): (r: ValidationResult)
    ensures r == Valid <==> 2 <= |Trim(name)| <= 100 && AllNameChars(Trim(name))
    ensures IsBlank(name) ==> r == Invalid(fieldName + " is required")
    ensures !IsBlank(name) && |Trim(name)| < 2 ==> r == Invalid(fieldName + " must be at least 2 characters long")
    ensures |Trim(name)| > 100 ==> r == Invalid(fieldName + " must be less than 100 characters")
  {
    BlankIffTrimEmpty(name);
    var t := Trim(name);
    if t == [] then Invalid(fieldName + " is required")
    else if |t| < 2 then Invalid(fieldName + " must be at least 2 characters long")
    else if |t| > 100 then Invalid(fieldName + " must be less than 100 characters")
    else if !AllNameChars(t) then
      Invalid(fieldName + " can only contain letters, spaces, hyphens, and apostrophes")
    else Valid
  }

  /** An organization or orphanage name: required, 3 to 150 characters once
      trimmed, the name characters plus digits, '&', '(' and ')'. */
  function ValidateOrganizationName(name: string): (r: ValidationResult)
    ensures r == Valid <==> 3 <= |Trim(name)| <= 150 && AllOrganizationNameChars(Trim(name))
    ensures IsBlank(name) ==> r == Invalid("Organization name is required")
    ensures !IsBlank(name) && |Trim(name)| < 3 ==> r == Invalid("Organization name must be at least 3 characters long")
    ensures |Trim(name)| > 150 ==> r == Invalid("Organization name must be less than 150 characters")
  {
    BlankIffTrimEmpty(name);
    var t := Trim(name);
    if t == [] then Invalid("Organization name is required")
    else if |t| < 3 then Invalid("Organization name must be at least 3 characters long")
    else if |t| > 150 then Invalid("Organization name must be less than 150 characters")
    else if !AllOrganizationNameChars(t) then Invalid("Organization name contains invalid characters")
    else Valid
  }

  /** Every valid person name of at least three characters is also a valid
      organization name. */
  lemma NameIsOrganizationName(name: string, fieldName: string)
    requires ValidateName(name, fieldName) == Valid && |Trim(name)| >= 3
    ensures ValidateOrganizationName(name) == Valid
  {
  }

  /** A required address of 10 to 300 characters once trimmed. */
  function ValidateAddress(address: string): (r: ValidationResult)
    ensures r == Valid <==> 10 <= |Trim(address)| <= 300
    ensures IsBlank(address) ==> r == Invalid("Address is required")
    ensures !IsBlank(address) && |Trim(address)| < 10
            ==> r == Invalid("Please provide a complete address (at least 10 characters)")
    ensures |Trim(address)| > 300 ==> r == Invalid("Address is too long (maximum 300 characters)")
  {
    BlankIffTrimEmpty(address);
    var t := Trim(address);
    if t == [] then Invalid("Address is required")
    else if |t| < 10 then Invalid("Please provide a complete address (at least 10 characters)")
    else if |t| > 300 then Invalid("Address is too long (maximum 300 characters)")
    else Valid
  }

  /** A required description of 20 to 1000 characters once trimmed. */
  function ValidateDescription(description: string): (r: ValidationResult)
    ensures r == Valid <==> 20 <= |Trim(description)| <= 1000
    ensures IsBlank(description) ==> r == Invalid("Description is required")
    ensures !IsBlank(description) && |Trim(description)| < 20
            ==> r == Invalid("Description must be at least 20 characters long")
    ensures |Trim(description)| > 1000 ==> r == Invalid("Description must be less than 1000 characters")
  {
    BlankIffTrimEmpty(description);
    var t := Trim(description);
    if t == [] then Invalid("Description is required")
    else if |t| < 20 then Invalid("Description must be at least 20 characters long")
    else if |t| > 1000 then Invalid("Description must be less than 1000 characters")
    else Valid
  }

  /** The registration number is optional: blank is accepted; otherwise 3 to
      50 characters once trimmed, ASCII letters, digits, white space, '-' and
      '/' only. */
  function ValidateRegistrationNumber(regNumber: string): (r: ValidationResult)
    ensures r == Valid <==> IsBlank(regNumber) ||
                            (3 <= |Trim(regNumber)| <= 50 && AllRegistrationChars(Trim(regNumber)))
    ensures !IsBlank(regNumber) && |Trim(regNumber)| < 3
            ==> r == Invalid("Registration number must be at least 3 characters long")
    ensures |Trim(regNumber)| > 50 ==> r == Invalid("Registration number must be less than 50 characters")
  {
    BlankIffTrimEmpty(regNumber);
    var t := Trim(regNumber);
    if t == [] then Valid
    else if |t| < 3 then Invalid("Registration number must be at least 3 characters long")
    else if |t| > 50 then Invalid("Registration number must be less than 50 characters")
    else if !AllRegistrationChars(t) then
      Invalid("Registration number can only contain letters, numbers, hyphens, and slashes")
    else Valid
  }

  lemma NameTrimmed(s: string, fieldName: string)
    ensures ValidateName(Trim(s), fieldName) == ValidateName(s, fieldName)
  {
    TrimIdempotent(s);
  }

  lemma OrganizationNameTrimmed(s: string)
    ensures ValidateOrganizationName(Trim(s)) == ValidateOrganizationName(s)
  {
    TrimIdempotent(s);
  }

  lemma AddressTrimmed(s: string)
    ensures ValidateAddress(Trim(s)) == ValidateAddress(s)
  {
    TrimIdempotent(s);
  }

  lemma DescriptionTrimmed(s: string)
    ensures ValidateDescription(Trim(s)) == ValidateDescription(s)
  {
    TrimIdempotent(s);
  }

  lemma RegistrationNumberTrimmed(s: string)
    ensures ValidateRegistrationNumber(Trim(s)) == ValidateRegistrationNumber(s)
  {
    TrimIdempotent(s);
  }

  /** The trimming validators give the same verdict on the trimmed input:
      surrounding white space never changes their outcome. */
  lemma TrimmedInputSameVerdict(s: string, fieldName: string)
    ensures ValidateName(Trim(s), fieldName) == ValidateName(s, fieldName)
    ensures ValidateOrganizationName(Trim(s)) == ValidateOrganizationName(s)
    ensures ValidateAddress(Trim(s)) == ValidateAddress(s)
    ensures ValidateDescription(Trim(s)) == ValidateDescription(s)
    ensures ValidateRegistrationNumber(Trim(s)) == ValidateRegistrationNumber(s)
  {
    NameTrimmed(s, fieldName);
    OrganizationNameTrimmed(s);
    AddressTrimmed(s);
    DescriptionTrimmed(s);
    RegistrationNumberTrimmed(s);
  }
}
