/**
 * The security settings page: the strength meter shown under the new
 * password and the rules of the three password fields of the change form.
 */
module PasswordRules {
  import opened Wrappers

  const STRONG_LENGTH: nat := 8
  const FORM_MIN_LENGTH: nat := 6
  const SPECIAL_CHARS := "!@#$%^&*(),.?\":{}|<>"

  const CURRENT_REQUIRED := "Current password is required"
  const NEW_REQUIRED := "New password is required"
  const NEW_TOO_SHORT := "Password must be at least 6 characters long"
  const CONFIRM_REQUIRED := "Please confirm your new password"
  const MISMATCH := "Passwords do not match"

  /** The five checks, each a regular expression test on the whole password (`\d` is ASCII only). */
  predicate LongEnough(p: string) { |p| >= STRONG_LENGTH }
  predicate HasLower(p: string) { exists i :: 0 <= i < |p| && 'a' <= p[i] <= 'z' }
  predicate HasUpper(p: string) { exists i :: 0 <= i < |p| && 'A' <= p[i] <= 'Z' }
  predicate HasDigit(p: string) { exists i :: 0 <= i < |p| && '0' <= p[i] <= '9' }
  predicate HasSpecial(p: string) { exists i :: 0 <= i < |p| && p[i] in SPECIAL_CHARS }

  function Bit(b: bool): nat { if b then 1 else 0 }

  /** `Object.values(checks).filter(Boolean).length` */
  function Score(p: string): (s: nat)
    ensures s <= 5
    ensures s == 5 <==> LongEnough(p) && HasLower(p) && HasUpper(p) && HasDigit(p) && HasSpecial(p)
    ensures s == 0 <==> !LongEnough(p) && !HasLower(p) && !HasUpper(p) && !HasDigit(p) && !HasSpecial(p)
  {
    Bit(LongEnough(p)) + Bit(HasLower(p)) + Bit(HasUpper(p)) + Bit(HasDigit(p)) + Bit(HasSpecial(p))
  }

  /** What the meter shows: the score, a label and its theme color. */
  datatype Strength = Strength(score: nat, text: string, color: string)

  /** `getPasswordStrength` */
  function GetPasswordStrength(p: string): (r: Strength)
    ensures p == "" ==> r == Strength(0, "", "text.secondary")
    ensures p != "" ==> r.score == Score(p)
    ensures r.score <= 5
  {
    if p == "" then Strength(0, "", "text.secondary")
    else
      var score := Score(p);
      if score < 2 then Strength(score, "Weak", "error.main")
      else if score < 4 then Strength(score, "Fair", "warning.main")
      else if score < 5 then Strength(score, "Good", "info.main")
      else Strength(score, "Strong", "success.main")
  }

  /** The label of a non-empty password is fixed by the thresholds two, four and five. */
  lemma StrengthLabels(p: string)
    requires p != ""
    ensures GetPasswordStrength(p).text == "Weak" <==> Score(p) < 2
    ensures GetPasswordStrength(p).text == "Fair" <==> 2 <= Score(p) < 4
    ensures GetPasswordStrength(p).text == "Good" <==> Score(p) == 4
    ensures GetPasswordStrength(p).text == "Strong" <==> Score(p) == 5
    ensures GetPasswordStrength(p).text in {"Weak", "Fair", "Good", "Strong"}
  {
  }

  /** A non-empty password is Strong exactly when it passes all five checks, and a Strong one also passes the form's length rule. */
  lemma StrongMeansAllChecks(p: string)
    requires p != ""
    ensures GetPasswordStrength(p).text == "Strong" <==>
      LongEnough(p) && HasLower(p) && HasUpper(p) && HasDigit(p) && HasSpecial(p)
    ensures GetPasswordStrength(p).text == "Strong" ==> NewPasswordError(p).None?
  {
    StrengthLabels(p);
  }

  /** A password shorter than eight characters fails the length check, so it is never rated Strong. */
  lemma ShortPasswordAtBestGood(p: string)
    requires p != "" && |p| < STRONG_LENGTH
    ensures Score(p) <= 4
    ensures GetPasswordStrength(p).text != "Strong"
  {
  }

  /** A lowercase password of eight letters or more reaches only Fair. */
  lemma LowercaseOnlyIsFair(p: string)
    requires |p| >= STRONG_LENGTH
    requires forall i :: 0 <= i < |p| ==> 'a' <= p[i] <= 'z'
    ensures GetPasswordStrength(p).score == 2 && GetPasswordStrength(p).text == "Fair"
  {
    assert 'a' <= p[0] <= 'z';
    assert !HasUpper(p);
    assert !HasDigit(p);
    assert !HasSpecial(p) by {
      forall i | 0 <= i < |p|
        ensures p[i] !in SPECIAL_CHARS
      {
        assert 'a' <= p[i] <= 'z';
        assert forall j :: 0 <= j < |SPECIAL_CHARS| ==> SPECIAL_CHARS[j] < 'a' || SPECIAL_CHARS[j] > 'z';
      }
    }
  }

  /** `required: 'Current password is required'` */
  function CurrentPasswordError(v: string): (r: Option<string>)
    ensures r.None? <==> v != ""
    ensures r.Some? ==> r.value == CURRENT_REQUIRED
  {
    if v == "" then Some(CURRENT_REQUIRED) else None
  }

  /** `required` first, then `minLength: 6`. */
  function NewPasswordError(v: string): (r: Option<string>)
    ensures r.None? <==> |v| >= FORM_MIN_LENGTH
    ensures v == "" ==> r == Some(NEW_REQUIRED)
    ensures 0 < |v| < FORM_MIN_LENGTH ==> r == Some(NEW_TOO_SHORT)
  {
    if v == "" then Some(NEW_REQUIRED)
    else if |v| < FORM_MIN_LENGTH then Some(NEW_TOO_SHORT)
    else None
  }

  /** `required` first, then `value === newPassword || 'Passwords do not match'`. */
  function ConfirmPasswordError(v: string, newPassword: string): (r: Option<string>)
    ensures r.None? <==> v != "" && v == newPassword
    ensures v == "" ==> r == Some(CONFIRM_REQUIRED)
    ensures v != "" && v != newPassword ==> r == Some(MISMATCH)
  {
    if v == "" then Some(CONFIRM_REQUIRED)
    else if v != newPassword then Some(MISMATCH)
    else None
  }

  /** The form submits only when all three fields pass, and then the confirmation repeats a new password of six or more characters. */
  lemma FormAccepts(current: string, newPassword: string, confirm: string)
    requires CurrentPasswordError(current).None? && NewPasswordError(newPassword).None?
    requires ConfirmPasswordError(confirm, newPassword).None?
    ensures confirm == newPassword && |confirm| >= FORM_MIN_LENGTH && current != ""
  {
  }
}
