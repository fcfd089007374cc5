/** The form validators: each takes the raw field text and returns `None` when the value
    is acceptable (`undefined` in the application) or the error message to show. */
module Validators {
  import opened Wrappers
  import opened JsText

  /** `isNonEmpty` */
  function IsNonEmpty(value: string): (b: bool)
    ensures b <==> !IsBlank(value)
  {
    TrimEmptyIffBlank(value);
    Trim(value) != []
  }

  /** `validateRequired` */
  function ValidateRequired(field: string, value: string): (r: Option<string>)
    ensures r.None? <==> !IsBlank(value)
    ensures r.Some? ==> r.value == field + " is required."
  {
    if IsNonEmpty(value) then None else Some(field + " is required.")
  }

  // ----- e-mail -----

  /** The class `[^\s@]` */
  predicate IsAddressChar(c: char) {
    !IsWhitespace(c) && c != '@'
  }

  predicate AllAddressChars(s: string) {
    forall k | 0 <= k < |s| :: IsAddressChar(s[k])
  }

  /** There is a `.` with text on both sides of it. */
  predicate HasInnerDot(d: string) {
    exists j | 0 < j < |d| - 1 :: d[j] == '.'
  }

  /** `/^[^\s@]+@[^\s@]+\.[^\s@]+$/` read as a statement about the text: a non-empty local
      part, one `@`, and a domain with an inner dot, nowhere a space or a second `@`. */
  ghost predicate EmailShape(t: string) {
    exists i | 0 <= i < |t| ::
      && t[i] == '@'
      && t[..i] != [] && AllAddressChars(t[..i])
      && AllAddressChars(t[i + 1..]) && HasInnerDot(t[i + 1..])
  }

  /** Index of the first `c` in `s`, or `|s|` when there is none. */
  function IndexOf(s: string, c: char): (i: nat)
    ensures i <= |s|
    ensures i < |s| ==> s[i] == c
    ensures forall k | 0 <= k < i :: s[k] != c
  {
    if s == [] then 0
    else if s[0] == c then 0
    else 1 + IndexOf(s[1..], c)
  }

  /** The regular expression's test, as a scan: split at the first `@` and check both
      sides. */
  predicate MatchesEmail(t: string) {
    var i := IndexOf(t, '@');
    && 0 < i < |t|
    && AllAddressChars(t[..i])
    && AllAddressChars(t[i + 1..]) && HasInnerDot(t[i + 1..])
  }

  /** The scan accepts exactly the texts the pattern describes. */
  lemma MatchesEmailIff(t: string)
    ensures MatchesEmail(t) <==> EmailShape(t)
  {
    var i := IndexOf(t, '@');
    if MatchesEmail(t) {
      assert t[..i] != [];
    }
    if EmailShape(t) {
      var j :| 0 <= j < |t| && t[j] == '@' && t[..j] != [] && AllAddressChars(t[..j])
        && AllAddressChars(t[j + 1..]) && HasInnerDot(t[j + 1..]);
      assert i == j;
    }
  }

  /** `validateEmail` */
  function ValidateEmail(value: string): (r: Option<string>)
    ensures IsBlank(value) ==> r == Some("Email is required.")
    ensures !IsBlank(value) ==> (r.None? <==> EmailShape(Trim(value)))
    ensures !IsBlank(value) && r.Some? ==> r.value == "Enter a valid email address."
  {
    var trimmed := Trim(value);
    TrimEmptyIffBlank(value);
    MatchesEmailIff(trimmed);
    if trimmed == [] then Some("Email is required.")
    else if MatchesEmail(trimmed) then None
    else Some("Enter a valid email address.")
  }

  // ----- phone -----

  /** `normalizePhone` */
  function NormalizePhone(value: string): (r: string)
    ensures IsBlank(value) ==> r == ""
    ensures r != [] && r[0] == '+' <==> Trim(value) != [] && Trim(value)[0] == '+'
    ensures AllDigits(r) || (r[0] == '+' && AllDigits(r[1..]))
    ensures Digits(r) == Digits(value)
  {
    var trimmed := Trim(value);
    TrimEmptyIffBlank(value);
    DigitsOfTrim(value);
    if trimmed == [] then DigitsOfBlank(value); ""
    else if trimmed[0] == '+' then DigitsAppend("+", Digits(trimmed)); DigitsOfDigits(Digits(trimmed)); "+" + Digits(trimmed)
    else DigitsOfDigits(Digits(trimmed)); Digits(trimmed)
  }

  /** Normalising twice changes nothing: the result has no whitespace to trim and no
      character but a leading `+` for the digit filter to drop. */
  lemma NormalizePhoneIdempotent(value: string)
    ensures NormalizePhone(NormalizePhone(value)) == NormalizePhone(value)
  {
    var r := NormalizePhone(value);
    if r != [] {
      assert !IsWhitespace(r[0]) && !IsWhitespace(r[|r| - 1]);
      TrimOfTrimmed(r);
      if r[0] == '+' {
        assert r == "+" + r[1..];
        DigitsAppend("+", r[1..]);
        DigitsOfDigits(r[1..]);
      } else {
        DigitsOfDigits(r);
      }
    }
  }

  /** `validatePhoneOptional`: blank is fine; otherwise the number of digits anywhere in
      the text must be 10 to 15. */
  function ValidatePhoneOptional(value: string): (r: Option<string>)
    ensures r.None? <==> IsBlank(value) || 10 <= |Digits(value)| <= 15
    ensures r.Some? ==> r.value == "Enter a valid phone number."
  {
    var trimmed := Trim(value);
    TrimEmptyIffBlank(value);
    if trimmed == [] then None
    else
      var digits := Digits(NormalizePhone(trimmed));
      DigitsOfTrim(value);
      if |digits| < 10 || |digits| > 15 then Some("Enter a valid phone number.") else None
  }

  // ----- the other fields -----

  /** `validateZip` */
  function ValidateZip(value: string): (r: Option<string>)
    ensures r == Some("Zip Code is required.") <==> IsBlank(value)
    ensures r.None? <==> 4 <= |Trim(value)| <= 10 && AllDigits(Trim(value))
    ensures r.Some? ==> r.value in {"Zip Code is required.", "Enter a valid Zip Code."}
  {
    var trimmed := Trim(value);
    TrimEmptyIffBlank(value);
    if trimmed == [] then Some("Zip Code is required.")
    else if 4 <= |trimmed| <= 10 && AllDigits(trimmed) then None
    else Some("Enter a valid Zip Code.")
  }

  /** `validateName`: blank, then shorter than two UTF-16 units once trimmed. */
  function ValidateName(field: string, value: string): (r: Option<string>)
    ensures IsBlank(value) ==> r == Some(field + " is required.")
    ensures !IsBlank(value) && Utf16Length(Trim(value)) < 2 ==> r == Some(field + " is too short.")
    ensures r.None? <==> Utf16Length(Trim(value)) >= 2
  {
    var trimmed := Trim(value);
    TrimEmptyIffBlank(value);
    Utf16LengthBounds(trimmed);
    if trimmed == [] then Some(field + " is required.")
    else if Utf16Length(trimmed) < 2 then Some(field + " is too short.")
    else None
  }

  predicate HasAsciiLetter(s: string) {
    exists i | 0 <= i < |s| :: IsAsciiLetter(s[i])
  }

  predicate HasAsciiDigit(s: string) {
    exists i | 0 <= i < |s| :: IsAsciiDigit(s[i])
  }

  /** `validatePassword`: nothing is trimmed; the checks run in the order empty, shorter
      than 8 UTF-16 units, then a letter and a digit both present. */
  function ValidatePassword(value: string): (r: Option<string>)
    ensures value == [] ==> r == Some("Password is required.")
    ensures value != [] && Utf16Length(value) < 8 ==> r == Some("Password must be at least 8 characters.")
    ensures r.None? <==> Utf16Length(value) >= 8 && HasAsciiLetter(value) && HasAsciiDigit(value)
    ensures Utf16Length(value) >= 8 && r.Some? ==> r == Some("Password must include a letter and a number.")
  {
    Utf16LengthBounds(value);
    if value == [] then Some("Password is required.")
    else if Utf16Length(value) < 8 then Some("Password must be at least 8 characters.")
    else if !HasAsciiLetter(value) || !HasAsciiDigit(value) then Some("Password must include a letter and a number.")
    else None
  }

  /** `validateConfirmPassword`: an empty confirmation is reported before a mismatch. */
  function ValidateConfirmPassword(password: string, confirm: string): (r: Option<string>)
    ensures confirm == [] ==> r == Some("Confirm Password is required.")
    ensures confirm != [] && password != confirm ==> r == Some("Passwords do not match.")
    ensures r.None? <==> confirm != [] && password == confirm
  {
    if confirm == [] then Some("Confirm Password is required.")
    else if password != confirm then Some("Passwords do not match.")
    else None
  }

  /** `validateOtp`: exactly six ASCII digits once trimmed. */
  function ValidateOtp(value: string): (r: Option<string>)
    ensures IsBlank(value) ==> r == Some("OTP is required.")
    ensures r.None? <==> |Trim(value)| == 6 && AllDigits(Trim(value))
    ensures !IsBlank(value) && r.Some? ==> r == Some("OTP must be 6 digits.")
  {
    var trimmed := Trim(value);
    TrimEmptyIffBlank(value);
    if trimmed == [] then Some("OTP is required.")
    else if |trimmed| == 6 && AllDigits(trimmed) then None
    else Some("OTP must be 6 digits.")
  }

  /** The validators that trim give the same verdict on a value and on its trim. */
  lemma TrimmedValueSameVerdict(field: string, value: string)
    ensures ValidateRequired(field, Trim(value)) == ValidateRequired(field, value)
    ensures ValidateEmail(Trim(value)) == ValidateEmail(value)
    ensures NormalizePhone(Trim(value)) == NormalizePhone(value)
    ensures ValidatePhoneOptional(Trim(value)) == ValidatePhoneOptional(value)
    ensures ValidateZip(Trim(value)) == ValidateZip(value)
    ensures ValidateName(field, Trim(value)) == ValidateName(field, value)
    ensures ValidateOtp(Trim(value)) == ValidateOtp(value)
  {
    TrimIdempotent(value);
  }
}
