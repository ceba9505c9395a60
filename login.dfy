/**
 * The login form of the admin app (apps/admin/src/pages/auth/LoginPage.tsx):
 * field validation in `validateForm` and the per-field update in
 * `handleInputChange`. The component's two state hooks are the fields of
 * class `LoginPage`.
 */
module Login {
  import opened Wrappers

  datatype LoginFormData = LoginFormData(email: string, password: string)

  /** `LoginErrors`: a field without a message is absent from the record. */
  datatype LoginErrors = LoginErrors(email: Option<string>, password: Option<string>)

  datatype Field = Email | Password

  const NO_ERRORS: LoginErrors := LoginErrors(None, None)

  const EMAIL_REQUIRED: string := "Email is required"
  const EMAIL_INVALID: string := "Please enter a valid email"
  const PASSWORD_REQUIRED: string := "Password is required"
  const PASSWORD_TOO_SHORT: string := "Password must be at least 6 characters"
  const MIN_PASSWORD_LENGTH: nat := 6

  // ---------------------------------------------------------------------------
  // The e-mail pattern ^[^\s@]+@[^\s@]+\.[^\s@]+$
  // ---------------------------------------------------------------------------

  /** `\s` of ECMAScript regular expressions: the WhiteSpace and LineTerminator code points. */
  predicate IsSpace(c: char) {
    || c == '\t' || c == '\n' || c == '\U{B}' || c == '\U{C}' || c == '\r' || c == ' '
    || c == '\U{A0}' || c == '\U{1680}' || ('\U{2000}' <= c <= '\U{200A}')
    || c == '\U{2028}' || c == '\U{2029}' || c == '\U{202F}' || c == '\U{205F}'
    || c == '\U{3000}' || c == '\U{FEFF}'
  }

  /** A character of the class `[^\s@]`. */
  predicate Plain(c: char) {
    !IsSpace(c) && c != '@'
  }

  predicate AllPlain(s: string) {
    forall i :: 0 <= i < |s| ==> Plain(s[i])
  }

  /**
   * The pattern read as its parts: a run of `[^\s@]`, then `@` at `at`, a run,
   * then `.` at `dot`, and a final run, each run non-empty.
   */
  ghost predicate PatternSplit(s: string, at: int, dot: int) {
    && 0 < at && at + 1 < dot < |s| - 1
    && s[at] == '@' && s[dot] == '.'
    && AllPlain(s[..at]) && AllPlain(s[at + 1..dot]) && AllPlain(s[dot + 1..])
  }

  ghost predicate MatchesEmailPattern(s: string) {
    exists at, dot :: PatternSplit(s, at, dot)
  }

  /** The first index of `c` in `s`, or `|s|` when it does not occur. */
  function IndexOf(s: string, c: char): (i: nat)
    ensures i <= |s|
    ensures i < |s| ==> s[i] == c
    ensures forall j :: 0 <= j < i ==> s[j] != c
    decreases |s|
  {
    if s == [] then 0 else if s[0] == c then 0 else 1 + IndexOf(s[1..], c)
  }

  /**
   * The test the pattern performs, as a scan: no white space, one `@` that is
   * not the first character, and after it a `.` with at least one character on
   * each side.
   */
  predicate ScanAccepts(s: string) {
    var at := IndexOf(s, '@');
    && (forall i :: 0 <= i < |s| ==> !IsSpace(s[i]))
    && 0 < at && at + 3 < |s|
    && '@' !in s[at + 1..]
    && '.' in s[at + 2..|s| - 1]
  }

  /** The scan accepts exactly the strings the regular expression matches. */
  lemma EmailCheckMatchesPattern(s: string)
    ensures ScanAccepts(s) <==> MatchesEmailPattern(s)
  {
    if ScanAccepts(s) {
      var at := IndexOf(s, '@');
      var tail := s[at + 2..|s| - 1];
      var k := IndexOf(tail, '.');
      var dot := at + 2 + k;
      assert s[dot] == tail[k];
      forall i | 0 <= i < |s| && i != at ensures Plain(s[i]) {
        if i > at {
          assert s[i] == s[at + 1..][i - at - 1];
        }
      }
      assert PatternSplit(s, at, dot);
    }
    if MatchesEmailPattern(s) {
      var at, dot :| PatternSplit(s, at, dot);
      forall i | 0 <= i < |s| ensures !IsSpace(s[i]) && (s[i] == '@' ==> i == at) {
        if i < at {
          assert s[i] == s[..at][i];
        } else if at < i < dot {
          assert s[i] == s[at + 1..dot][i - at - 1];
        } else if dot < i {
          assert s[i] == s[dot + 1..][i - dot - 1];
        }
      }
      assert IndexOf(s, '@') == at;
      assert s[at + 2..|s| - 1][dot - at - 2] == '.';
    }
  }

  // ---------------------------------------------------------------------------
  // validateForm
  // ---------------------------------------------------------------------------

  /** `/^[^\s@]+@[^\s@]+\.[^\s@]+$/.test(s)`, computed by the scan. */
  function IsValidEmail(s: string): (matches: bool)
    ensures matches <==> MatchesEmailPattern(s)
  {
    EmailCheckMatchesPattern(s);
    ScanAccepts(s)
  }

  /** The message `validateForm` records for the e-mail field (at most one: an else-if chain). */
  function EmailError(email: string): (message: Option<string>)
    ensures message == Some(EMAIL_REQUIRED) <==> email == ""
    ensures message == Some(EMAIL_INVALID) <==> email != "" && !MatchesEmailPattern(email)
    ensures message == None <==> MatchesEmailPattern(email)
  {
    if email == "" then Some(EMAIL_REQUIRED)
    else if !IsValidEmail(email) then Some(EMAIL_INVALID)
    else None
  }

  /** The message `validateForm` records for the password field. */
  function PasswordError(password: string): (message: Option<string>)
    ensures message == Some(PASSWORD_REQUIRED) <==> password == ""
    ensures message == Some(PASSWORD_TOO_SHORT) <==> 0 < |password| < MIN_PASSWORD_LENGTH
    ensures message == None <==> |password| >= MIN_PASSWORD_LENGTH
  {
    if password == "" then Some(PASSWORD_REQUIRED)
    else if |password| < MIN_PASSWORD_LENGTH then Some(PASSWORD_TOO_SHORT)
    else None
  }

  /** The whole `newErrors` record built for a form. */
  function Validate(form: LoginFormData): (errors: LoginErrors)
    ensures errors == NO_ERRORS <==> MatchesEmailPattern(form.email) && |form.password| >= MIN_PASSWORD_LENGTH
  {
    LoginErrors(EmailError(form.email), PasswordError(form.password))
  }

  /**
   * An empty e-mail is reported as required and the pattern is not consulted;
   * a non-empty one is reported as invalid exactly when it does not match the
   * pattern, and has no message otherwise.
   */
  lemma EmailErrorCases(email: string)
    ensures email == "" ==> EmailError(email) == Some(EMAIL_REQUIRED)
    ensures email != "" && !MatchesEmailPattern(email) ==> EmailError(email) == Some(EMAIL_INVALID)
    ensures email != "" && MatchesEmailPattern(email) ==> EmailError(email) == None
  {
    EmailCheckMatchesPattern(email);
  }

  /**
   * An empty password is reported as required, a password of 1 to 5
   * characters as too short, and one of 6 or more has no message.
   */
  lemma PasswordErrorCases(password: string)
    ensures |password| == 0 ==> PasswordError(password) == Some(PASSWORD_REQUIRED)
    ensures 0 < |password| < 6 ==> PasswordError(password) == Some(PASSWORD_TOO_SHORT)
    ensures PasswordError(password) == None <==> |password| >= 6
  {
  }

  /** A form is accepted exactly when the e-mail matches the pattern and the password has 6 characters or more. */
  lemma ValidateAcceptsIff(form: LoginFormData)
    ensures Validate(form) == NO_ERRORS <==> MatchesEmailPattern(form.email) && |form.password| >= MIN_PASSWORD_LENGTH
  {
    EmailErrorCases(form.email);
    assert MatchesEmailPattern(form.email) ==> form.email != "" by {
      if MatchesEmailPattern(form.email) {
        var at, dot :| PatternSplit(form.email, at, dot);
      }
    }
  }

  // ---------------------------------------------------------------------------
  // handleInputChange
  // ---------------------------------------------------------------------------

  function FieldValue(form: LoginFormData, field: Field): string {
    match field
    case Email => form.email
    case Password => form.password
  }

  function ErrorOf(errors: LoginErrors, field: Field): Option<string> {
    match field
    case Email => errors.email
    case Password => errors.password
  }

  /** `{ ...prev, [field]: value }` on the form data. */
  function WithField(form: LoginFormData, field: Field, value: string): (r: LoginFormData)
    ensures FieldValue(r, field) == value
    ensures forall other :: other != field ==> FieldValue(r, other) == FieldValue(form, other)
  {
    match field
    case Email => form.(email := value)
    case Password => form.(password := value)
  }

  /** `{ ...prev, [field]: undefined }` on the errors. */
  function ClearError(errors: LoginErrors, field: Field): (r: LoginErrors)
    ensures ErrorOf(r, field) == None
    ensures forall other :: other != field ==> ErrorOf(r, other) == ErrorOf(errors, other)
  {
    match field
    case Email => errors.(email := None)
    case Password => errors.(password := None)
  }

  /** The component state: the `formData` and `errors` hooks. */
  class LoginPage {
    var formData: LoginFormData
    var errors: LoginErrors

    constructor ()
      ensures formData == LoginFormData("", "") && errors == NO_ERRORS
    {
      formData := LoginFormData("", "");
      errors := NO_ERRORS;
    }

    /**
     * `validateForm`: fills a fresh errors record field by field, replaces the
     * errors state with it wholesale, and answers whether it is empty.
     */
    method ValidateForm() returns (valid: bool)
      modifies this`errors
      ensures errors == Validate(formData)
      ensures valid <==> errors == NO_ERRORS
    {
      var emailError: Option<string> := None;
      var passwordError: Option<string> := None;
      if formData.email == "" {
        emailError := Some(EMAIL_REQUIRED);
      } else if !IsValidEmail(formData.email) {
        emailError := Some(EMAIL_INVALID);
      }
      if formData.password == "" {
        passwordError := Some(PASSWORD_REQUIRED);
      } else if |formData.password| < MIN_PASSWORD_LENGTH {
        passwordError := Some(PASSWORD_TOO_SHORT);
      }
      errors := LoginErrors(emailError, passwordError);
      valid := emailError.None? && passwordError.None?;
    }

    /**
     * `handleInputChange(field)(value)`: sets that field of the form data and
     * clears that field's error only when one is shown.
     */
    method HandleInputChange(field: Field, value: string)
      modifies this
      ensures formData == WithField(old(formData), field, value)
      ensures errors == if Truthy(ErrorOf(old(errors), field)) then ClearError(old(errors), field) else old(errors)
    {
      formData := WithField(formData, field, value);
      if Truthy(ErrorOf(errors, field)) {
        errors := ClearError(errors, field);
      }
    }
  }
}
