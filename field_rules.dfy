/**
 * The per-field rule chains both wizards use. Each chain is an `if ... else if`
 * in the source, so a field gets the message of the first rule it breaks, or
 * None when it passes.
 */
module FieldRules {
  import opened Wrappers
  import opened Text

  /** `if (!value.trim()) message`. */
  function RequiredText(value: string, message: string): (r: Option<string>)
    ensures r.Some? <==> IsBlank(value)
    ensures r.Some? ==> r.value == message
  {
    if IsBlank(value) then Some(message) else None
  }

  /** `if (!value) message`, for a select whose unset option is the empty string. */
  function RequiredChoice(value: string, message: string): (r: Option<string>)
    ensures r.Some? <==> value == ""
    ensures r.Some? ==> r.value == message
  {
    if value == "" then Some(message) else None
  }

  // Messages both wizards use for the same rule.
  const FullNameRequired := "Full name is required"
  const MobileRequired := "Mobile number is required"
  const DistrictRequired := "District is required"
  const CityTownRequired := "City/Town is required"
  const AddressRequired := "Address is required"
  const DescriptionRequired := "Description is required"
  const TermsRequired := "You must agree to terms and conditions"

  const EmailRequired := "Email is required"
  const EmailInvalid := "Email is invalid"

  /** Blank e-mail first, then the `\S+@\S+\.\S+` pattern. */
  function EmailError(email: string): (r: Option<string>)
    ensures r == Some(EmailRequired) <==> IsBlank(email)
    ensures r == Some(EmailInvalid) <==> !IsBlank(email) && !EmailShaped(email)
    ensures r.None? <==> !IsBlank(email) && EmailShaped(email)
  {
    if IsBlank(email) then Some(EmailRequired)
    else if !EmailShaped(email) then Some(EmailInvalid)
    else None
  }

  const MinPasswordLength := 6
  const PasswordRequired := "Password is required"
  const PasswordTooShort := "Password must be at least 6 characters"

  /**
   * The password is checked untrimmed: empty first, then its `length`, which
   * counts UTF-16 code units.
   */
  function PasswordError(password: string): (r: Option<string>)
    ensures r == Some(PasswordRequired) <==> password == ""
    ensures r == Some(PasswordTooShort) <==> 0 < Utf16Length(password) < MinPasswordLength
    ensures r.None? <==> Utf16Length(password) >= MinPasswordLength
  {
    if password == "" then Some(PasswordRequired)
    else if Utf16Length(password) < MinPasswordLength then Some(PasswordTooShort)
    else None
  }

  const ConfirmRequired := "Please confirm your password"
  const PasswordsDiffer := "Passwords do not match"

  /** The confirmation must be present, then equal to the password. */
  function ConfirmError(password: string, confirm: string): (r: Option<string>)
    ensures r == Some(ConfirmRequired) <==> confirm == ""
    ensures r == Some(PasswordsDiffer) <==> confirm != "" && confirm != password
    ensures r.None? <==> confirm != "" && confirm == password
  {
    if confirm == "" then Some(ConfirmRequired)
    else if password != confirm then Some(PasswordsDiffer)
    else None
  }

  /** The e-mail and confirmation rules on a few concrete inputs. */
  lemma PersonalRuleExamples()
    ensures EmailError("a@b.com").None?
    ensures EmailError("not-an-email") == Some(EmailInvalid)
    ensures EmailError("  ") == Some(EmailRequired)
    ensures ConfirmError("abc123", "abc123").None?
    ensures ConfirmError("abc123", "xyz999") == Some(PasswordsDiffer)
    ensures ConfirmError("abc123", "") == Some(ConfirmRequired)
  {
    assert !IsBlank("a@b.com") by { assert !IsSpace("a@b.com"[0]); }
    assert EmailShaped("a@b.com") by { assert EmailAt("a@b.com", 1, 3); }
    assert !IsBlank("not-an-email") by { assert !IsSpace("not-an-email"[0]); }
    NoAtNotEmail("not-an-email");
  }

  /** Five letters and digits are too short a password, six are long enough. */
  lemma PasswordLengthExamples()
    ensures PasswordError("abc12") == Some(PasswordTooShort)
    ensures PasswordError("abc123").None?
  {
    assert Utf16Length("abc12") == 5 by { BmpUtf16Length("abc12"); }
    assert Utf16Length("abc123") == 6 by { BmpUtf16Length("abc123"); }
  }

  /** Three emoji are six UTF-16 code units, so they make a long enough password. */
  lemma EmojiPasswordExample()
    ensures PasswordError("\U{1F600}\U{1F600}\U{1F600}").None?
  {
    AstralUtf16Length("\U{1F600}\U{1F600}\U{1F600}");
  }

  /** `Number(value)` is a number greater than zero. */
  predicate IsPositiveNumber(value: string) {
    ParseNumber(value).Some? && ParseNumber(value).value > 0.0
  }

  /**
   * A required price: blank first, then `isNaN(Number(v)) || Number(v) <= 0`.
   */
  function PriceError(value: string, required: string, invalid: string): (r: Option<string>)
    requires required != invalid
    ensures r == Some(required) <==> IsBlank(value)
    ensures r == Some(invalid) <==> !IsBlank(value) && !IsPositiveNumber(value)
    ensures r.None? <==> IsPositiveNumber(value)
  {
    if IsBlank(value) then Some(required)
    else if ParseNumber(value).None? || ParseNumber(value).value <= 0.0 then Some(invalid)
    else None
  }

  /** A word is an invalid price, a whole number above zero a valid one, an empty input a missing one. */
  lemma PriceRuleExamples(required: string, invalid: string)
    requires required != invalid
    ensures PriceError("abc", required, invalid) == Some(invalid)
    ensures PriceError("5000", required, invalid).None?
    ensures PriceError("", required, invalid) == Some(required)
  {
    assert !IsPositiveNumber("abc") by { WordIsNaN(); }
    assert !IsBlank("abc") by { assert !IsSpace("abc"[0]); }
    assert IsPositiveNumber("5000") by { FiveThousandParses(); }
    assert IsBlank("");
  }

  /**
   * `Number(min) >= Number(max)`: true only when both sides are numbers (a
   * comparison with NaN is false), with blank sides counting as 0.
   */
  predicate PriceOrderBroken(min: string, max: string) {
    ParseNumber(min).Some? && ParseNumber(max).Some? &&
    ParseNumber(min).value >= ParseNumber(max).value
  }
}
