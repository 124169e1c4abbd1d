/** The sign-in form of src/pages/Auth/Login.tsx: two fields, an error record
    keyed by field, validation that rebuilds the record, edits that clear a
    shown error, and the outcome of submitting. */
module Login {
  import opened Wrappers
  import opened AuthTypes
  import opened Text
  import opened Email

  /** The two inputs, by their `name` attribute. */
  datatype Field = EmailAddress | Password

  /** The `formData` record. */
  datatype LoginData = LoginData(email: string, password: string)
  {
    function Get(f: Field): string {
      match f
      case EmailAddress => email
      case Password => password
    }

    /** `{ ...prev, [name]: value }`: field `f` becomes `value`, the other keeps its value. */
    function With(f: Field, value: string): (d: LoginData)
      ensures d.Get(f) == value
      ensures forall g :: g != f ==> d.Get(g) == Get(g)
    {
      match f
      case EmailAddress => this.(email := value)
      case Password => this.(password := value)
    }
  }

  const EmptyForm := LoginData("", "")

  /** The `errors` record (`Partial<LoginFormData>`). A key mapped to `None` is
      a key that `handleChange` set to `undefined`: still a key, but no error. */
  type LoginErrors = map<Field, Option<string>>

  const EmailRequired := "Email is required"
  const EmailInvalid := "Please enter a valid email"
  const PasswordRequired := "Password is required"
  const PasswordTooShort := "Password must be at least 6 characters"
  const LoginFailed := "Login failed"
  const LoginFailedRetry := "Login failed. Please try again."

  /** The message `validateForm` stores under `f`, if any. Unlike sign-up, the
      e-mail is not trimmed and the password minimum is 6. */
  function FieldMessage(d: LoginData, f: Field): Option<string> {
    match f
    case EmailAddress =>
      if |d.email| == 0 then Some(EmailRequired)
      else if !ValidEmail(d.email) then Some(EmailInvalid)
      else None
    case Password =>
      if |d.password| == 0 then Some(PasswordRequired)
      else if |d.password| < 6 then Some(PasswordTooShort)
      else None
  }

  /** The record `validateForm` builds: a key for each field whose check failed. */
  function ValidationErrors(d: LoginData): LoginErrors {
    map f | f in {EmailAddress, Password} && FieldMessage(d, f).Some? :: FieldMessage(d, f)
  }

  /** `errors[name]` as the page tests it: a message only when the value is a non-empty string. */
  function Shown(errs: LoginErrors, f: Field): Option<string> {
    if f in errs && errs[f].Some? && errs[f].value != "" then errs[f] else None
  }

  /** The record after `handleChange(name, ...)`: `name` set to `undefined` if an error was shown. */
  function Cleared(errs: LoginErrors, name: Field): LoginErrors {
    if Shown(errs, name).Some? then errs[name := None] else errs
  }

  /** What a submitted request came back with: a signed-in user's role, a non-ok
      response (whose body may carry a `message`), or an exception (an `Error`
      with its message, or some other thrown value). */
  datatype LoginResponse = Authenticated(role: Role) | Rejected(message: Option<string>) | Threw(error: Option<string>)

  /** The message stored under `email` when a request fails. */
  function FailureMessage(response: LoginResponse): string
    requires !response.Authenticated?
  {
    match response
    case Rejected(m) => if m.Some? && m.value != "" then m.value else LoginFailed
    case Threw(e) => if e.Some? then e.value else LoginFailedRetry
  }

  class LoginForm {
    var form: LoginData
    var errors: LoginErrors

    constructor ()
      ensures form == EmptyForm && errors == map[]
    {
      form := EmptyForm;
      errors := map[];
    }

    /** `validateForm`: replaces `errors` by the record built for the current
        form and reports whether that record has no keys. */
    method ValidateForm() returns (valid: bool)
      modifies this`errors
      ensures errors == ValidationErrors(form)
      ensures valid <==> errors == map[]
    {
      var d := form;
      var newErrors: LoginErrors := map[];
      if |d.email| == 0 {
        newErrors := newErrors[EmailAddress := Some(EmailRequired)];
      } else if !ValidEmail(d.email) {
        newErrors := newErrors[EmailAddress := Some(EmailInvalid)];
      }
      if |d.password| == 0 {
        newErrors := newErrors[Password := Some(PasswordRequired)];
      } else if |d.password| < 6 {
        newErrors := newErrors[Password := Some(PasswordTooShort)];
      }
      assert newErrors == ValidationErrors(d);
      errors := newErrors;
      valid := |newErrors.Keys| == 0;
    }

    /** `handleChange`: sets field `name`; if `name` shows an error, that entry becomes `undefined`. */
    method HandleChange(name: Field, value: string)
      modifies this
      ensures form == old(form).With(name, value)
      ensures errors == Cleared(old(errors), name)
    {
      form := form.With(name, value);
      if Shown(errors, name).Some? {
        errors := errors[name := None];
      }
    }

    /** `handleSubmit`: a form that fails validation sends nothing. Otherwise a
        success hands the role to `onLogin` and leaves no errors, and a failure
        leaves only an e-mail error carrying the failure's message. */
    method HandleSubmit(response: LoginResponse) returns (requested: bool, signedIn: Option<Role>)
      modifies this`errors
      ensures requested <==> ValidationErrors(form) == map[]
      ensures !requested ==> errors == ValidationErrors(form) && signedIn == None
      ensures requested && response.Authenticated? ==> errors == map[] && signedIn == Some(response.role)
      ensures requested && !response.Authenticated? ==>
                errors == map[EmailAddress := Some(FailureMessage(response))] && signedIn == None
    {
      var valid := ValidateForm();
      if !valid {
        return false, None;
      }
      requested := true;
      match response
      case Authenticated(r) =>
        signedIn := Some(r);
      case Rejected(m) =>
        var message := if m.Some? && m.value != "" then m.value else LoginFailed;
        errors := map[EmailAddress := Some(message)];
        signedIn := None;
      case Threw(e) =>
        var message := if e.Some? then e.value else LoginFailedRetry;
        errors := map[EmailAddress := Some(message)];
        signedIn := None;
    }
  }

  /** `validateForm` returns true exactly when the e-mail matches the regular
      expression and the password has at least 6 characters. */
  lemma ValidationPassesIff(d: LoginData)
    ensures ValidationErrors(d) == map[] <==> MatchesEmailPattern(d.email) && |d.password| >= 6
  {
    ValidEmailIffPattern(d.email);
    if ValidationErrors(d) == map[] {
      assert EmailAddress !in ValidationErrors(d);
      assert Password !in ValidationErrors(d);
    }
  }

  /** Every key `validateForm` writes holds a non-empty message, so the page
      shows, for each field, exactly the message that field's check produced. */
  lemma ValidationShown(d: LoginData, f: Field)
    ensures Shown(ValidationErrors(d), f) == FieldMessage(d, f)
    ensures f in ValidationErrors(d) <==> FieldMessage(d, f).Some?
  {
  }

  /** A non-empty e-mail made only of whitespace is not "required" (there is no
      trim) but fails the pattern. */
  lemma BlankEmailIsInvalid(d: LoginData)
    requires d.email != "" && IsBlank(d.email)
    ensures FieldMessage(d, EmailAddress) == Some(EmailInvalid)
  {
    ValidEmailIffPattern(d.email);
  }

  /** Editing a field hides that field's error and leaves what the other field shows. */
  lemma ClearedShown(errs: LoginErrors, name: Field, g: Field)
    ensures Shown(Cleared(errs, name), g) == if g == name then None else Shown(errs, g)
    ensures Cleared(errs, name).Keys == errs.Keys
  {
  }
}
