/** The login-form validators: ordered checks that return `{ isValid, error? }`. */
module Validation {
  import opened Optional
  import opened Text

  datatype ValidationResult = ValidationResult(isValid: bool, error: Option<string>)

  const Valid := ValidationResult(true, None)

  function Invalid(message: string): ValidationResult {
    ValidationResult(false, Some(message))
  }

  const EmailRequired := "Email is required"
  const EmailMalformed := "Please enter a valid email address"
  const PasswordRequired := "Password is required"
  const PasswordTooShort := "Password must be at least 6 characters"
  const PasswordTooLong := "Password must be less than 128 characters"

  /** A result carries an error exactly when it is not valid. */
  predicate WellFormed(v: ValidationResult) {
    v.isValid <==> v.error.None?
  }

  /** The characters the class `[^\s@]` accepts. */
  predicate Plain(c: char) {
    !IsSpace(c) && c != '@'
  }

  predicate AllPlain(s: string) {
    forall i :: 0 <= i < |s| ==> Plain(s[i])
  }

  /** `[^\s@]+`: a non-empty run of plain characters. */
  predicate PlainRun(s: string) {
    |s| > 0 && AllPlain(s)
  }

  /** What `/^[^\s@]+@[^\s@]+\.[^\s@]+$/.test(s)` accepts: a plain run, `@`, a plain
      run, a literal `.`, and a plain run, covering all of `s`. */
  ghost predicate MatchesEmailRegex(s: string) {
    exists a, b :: 0 < a && a + 1 < b < |s| - 1 && PlainRun(s[..a]) && s[a] == '@'
                   && PlainRun(s[a + 1..b]) && s[b] == '.' && PlainRun(s[b + 1..])
  }

  /** The position of the first `c` in `s`. */
  function IndexOf(s: string, c: char): (r: Option<nat>)
    ensures r.Some? ==> r.value < |s| && s[r.value] == c && c !in s[..r.value]
    ensures r.None? ==> c !in s
  {
    if s == [] then None
    else if s[0] == c then Some(0)
    else match IndexOf(s[1..], c)
      case None => None
      case Some(k) => assert s[..k + 1] == [s[0]] + s[1..][..k]; Some(k + 1)
  }

  /** A `.` that is neither the first nor the last character of `d`. */
  predicate HasInnerDot(d: string) {
    exists k | 0 < k < |d| - 1 :: d[k] == '.'
  }

  /** The email shape stated directly: no whitespace, exactly one `@`, a non-empty
      local part, and a domain with a `.` that is neither its first nor its last character. */
  predicate EmailShape(s: string) {
    match IndexOf(s, '@')
    case None => false
    case Some(a) => 0 < a && AllPlain(s[..a]) && AllPlain(s[a + 1..]) && HasInnerDot(s[a + 1..])
  }

  lemma ShapeGivesMatch(s: string)
    requires EmailShape(s)
    ensures MatchesEmailRegex(s)
  {
    var a := IndexOf(s, '@').value;
    var d := s[a + 1..];
    var k :| 0 < k < |d| - 1 && d[k] == '.';
    var b := a + 1 + k;
    assert s[a + 1..b] == d[..k];
    assert s[b + 1..] == d[k + 1..];
    assert PlainRun(s[..a]) && PlainRun(s[a + 1..b]) && PlainRun(s[b + 1..]);
  }

  /** The first occurrence is the one with no earlier occurrence. */
  lemma IndexOfFirst(s: string, c: char, a: nat)
    requires a < |s| && s[a] == c && c !in s[..a]
    ensures IndexOf(s, c) == Some(a)
  {
  }

  /** The shape condition, with the positions of the `@` and the `.` given. */
  lemma ShapeAt(s: string, a: nat, b: nat)
    requires 0 < a && a + 1 < b < |s| - 1 && s[a] == '@' && s[b] == '.'
    requires AllPlain(s[..a]) && AllPlain(s[a + 1..b]) && AllPlain(s[b + 1..])
    ensures EmailShape(s)
  {
    assert '@' !in s[..a] by {
      assert forall i :: 0 <= i < a ==> Plain(s[..a][i]);
    }
    IndexOfFirst(s, '@', a);
    var d := s[a + 1..];
    assert d == s[a + 1..b] + [s[b]] + s[b + 1..];
    assert AllPlain(d);
    assert d[b - a - 1] == '.';
  }

  lemma MatchGivesShape(s: string)
    requires MatchesEmailRegex(s)
    ensures EmailShape(s)
  {
    var a, b :| 0 < a && a + 1 < b < |s| - 1 && PlainRun(s[..a]) && s[a] == '@'
                && PlainRun(s[a + 1..b]) && s[b] == '.' && PlainRun(s[b + 1..]);
    ShapeAt(s, a, b);
  }

  /** The direct statement of the email shape is exactly what the regular expression accepts. */
  lemma EmailShapeMatchesRegex(s: string)
    ensures EmailShape(s) <==> MatchesEmailRegex(s)
  {
    if EmailShape(s) {
      ShapeGivesMatch(s);
    }
    if MatchesEmailRegex(s) {
      MatchGivesShape(s);
    }
  }

  /** `validateEmail`: blank input is required, then the trimmed input must match the regex. */
  function ValidateEmail(email: string): (v: ValidationResult)
    ensures WellFormed(v)
    ensures AllSpace(email) ==> v == Invalid(EmailRequired)
    ensures !AllSpace(email) ==> (v.isValid <==> MatchesEmailRegex(Trim(email)))
    ensures !AllSpace(email) && !v.isValid ==> v == Invalid(EmailMalformed)
  {
    TrimEmptyIffBlank(email);
    EmailShapeMatchesRegex(Trim(email));
    if email == "" || |Trim(email)| == 0 then Invalid(EmailRequired)
    else if !EmailShape(Trim(email)) then Invalid(EmailMalformed)
    else Valid
  }

  /** Surrounding whitespace never changes what `validateEmail` says. */
  lemma ValidateEmailIgnoresPadding(p: string, email: string, q: string)
    requires AllSpace(p) && AllSpace(q)
    ensures ValidateEmail(p + email + q) == ValidateEmail(email)
  {
    TrimIgnoresPadding(p, email, q);
    TrimEmptyIffBlank(email);
    TrimEmptyIffBlank(p + email + q);
  }

  /** `validatePassword`: length in UTF-16 code units, no trimming, checked in order. */
  function ValidatePassword(password: string): (v: ValidationResult)
    ensures WellFormed(v)
    ensures v.isValid <==> 6 <= Utf16Length(password) <= 128
    ensures password == "" ==> v == Invalid(PasswordRequired)
    ensures 0 < Utf16Length(password) < 6 ==> v == Invalid(PasswordTooShort)
    ensures Utf16Length(password) > 128 ==> v == Invalid(PasswordTooLong)
  {
    if password == "" || Utf16Length(password) == 0 then Invalid(PasswordRequired)
    else if Utf16Length(password) < 6 then Invalid(PasswordTooShort)
    else if Utf16Length(password) > 128 then Invalid(PasswordTooLong)
    else Valid
  }

  /** `validateLoginForm`: the email verdict wins whenever the email is invalid. */
  function ValidateLoginForm(email: string, password: string): (v: ValidationResult)
    ensures WellFormed(v)
    ensures !ValidateEmail(email).isValid ==> v == ValidateEmail(email)
    ensures ValidateEmail(email).isValid ==> v == ValidatePassword(password)
    ensures v.isValid <==> ValidateEmail(email).isValid && ValidatePassword(password).isValid
  {
    var e := ValidateEmail(email);
    if !e.isValid then e
    else
      var p := ValidatePassword(password);
      if !p.isValid then p else Valid
  }
}
