/** The sign-up form of src/pages/Auth/Signup.tsx: five fields, a list of
    errors that may name a field, validation that rebuilds that list, edits
    that clear one field's errors, and the outcome of submitting. */
module Signup {
  import opened Wrappers
  import opened Text
  import opened Email

  /** The five inputs, by their `name` attribute. */
  datatype Field = FirstName | LastName | EmailAddress | Password | ConfirmPassword

  /** Position of a field in the order `validateForm` checks them. */
  function Rank(f: Field): nat {
    match f
    case FirstName => 0
    case LastName => 1
    case EmailAddress => 2
    case Password => 3
    case ConfirmPassword => 4
  }

  /** The `formData` record. */
  datatype SignupData = SignupData(firstName: string, lastName: string, email: string,
                                   password: string, confirmPassword: string)
  {
    function Get(f: Field): string {
      match f
      case FirstName => firstName
      case LastName => lastName
      case EmailAddress => email
      case Password => password
      case ConfirmPassword => confirmPassword
    }

    /** `{ ...prev, [name]: value }`: field `f` becomes `value`, every other field keeps its value. */
    function With(f: Field, value: string): (d: SignupData)
      ensures d.Get(f) == value
      ensures forall g :: g != f ==> d.Get(g) == Get(g)
    {
      match f
      case FirstName => this.(firstName := value)
      case LastName => this.(lastName := value)
      case EmailAddress => this.(email := value)
      case Password => this.(password := value)
      case ConfirmPassword => this.(confirmPassword := value)
    }
  }

  const EmptyForm := SignupData("", "", "", "", "")

  /** One entry of `errors`; `field` is absent for a general (whole-form) error. */
  datatype SignupError = SignupError(field: Option<Field>, message: string)

  const FirstNameRequired := "First name is required"
  const LastNameRequired := "Last name is required"
  const EmailRequired := "Email is required"
  const EmailInvalid := "Please enter a valid email address"
  const PasswordRequired := "Password is required"
  const PasswordTooShort := "Password must be at least 8 characters"
  const ConfirmRequired := "Please confirm your password"
  const PasswordsDiffer := "Passwords do not match"
  const SignupFailed := "Signup failed. Please try again."
  const ErrorOccurred := "An error occurred. Please try again."

  /** The message `validateForm` records for field `f`, if any. */
  function FieldMessage(d: SignupData, f: Field): Option<string> {
    match f
    case FirstName => if |Trim(d.firstName)| == 0 then Some(FirstNameRequired) else None
    case LastName => if |Trim(d.lastName)| == 0 then Some(LastNameRequired) else None
    case EmailAddress =>
      if |Trim(d.email)| == 0 then Some(EmailRequired)
      else if !ValidEmail(d.email) then Some(EmailInvalid)
      else None
    case Password =>
      if |d.password| == 0 then Some(PasswordRequired)
      else if |d.password| < 8 then Some(PasswordTooShort)
      else None
    case ConfirmPassword =>
      if |d.confirmPassword| == 0 then Some(ConfirmRequired)
      else if d.password != d.confirmPassword then Some(PasswordsDiffer)
      else None
  }

  /** The error `validateForm` pushes for field `f`: one entry, or none. */
  function FieldErrors(d: SignupData, f: Field): seq<SignupError> {
    match FieldMessage(d, f)
    case Some(m) => [SignupError(Some(f), m)]
    case None => []
  }

  /** The list `validateForm` builds for the form `d`: each field's check, in
      check order, pushes its error (if any) onto the end. */
  function ValidationErrors(d: SignupData): seq<SignupError> {
    FieldErrors(d, FirstName) + FieldErrors(d, LastName) + FieldErrors(d, EmailAddress)
    + FieldErrors(d, Password) + FieldErrors(d, ConfirmPassword)
  }

  /** Every error names a field, and fields appear in strictly increasing check order. */
  ghost predicate InCheckOrder(errs: seq<SignupError>) {
    && (forall i :: 0 <= i < |errs| ==> errs[i].field.Some?)
    && (forall i, j :: 0 <= i < j < |errs| ==> Rank(errs[i].field.value) < Rank(errs[j].field.value))
  }

  /** `errors.find(err => err.field === name)?.message`: the message of the first
      error about `f`, or nothing when no error is about `f`. */
  function FieldError(errs: seq<SignupError>, f: Field): (m: Option<string>)
    ensures m.None? <==> forall i :: 0 <= i < |errs| ==> errs[i].field != Some(f)
    ensures m.Some? ==> exists i :: && 0 <= i < |errs| && errs[i].field == Some(f)
                                    && errs[i].message == m.value
                                    && forall j :: 0 <= j < i ==> errs[j].field != Some(f)
  {
    if errs == [] then None
    else if errs[0].field == Some(f) then Some(errs[0].message)
    else FieldError(errs[1..], f)
  }

  /** `errors.find(err => !err.field)`: the first error that names no field, if any. */
  function GeneralError(errs: seq<SignupError>): (e: Option<SignupError>)
    ensures e.None? <==> forall i :: 0 <= i < |errs| ==> errs[i].field.Some?
    ensures e.Some? ==> exists i :: && 0 <= i < |errs| && errs[i] == e.value && errs[i].field.None?
                                    && forall j :: 0 <= j < i ==> errs[j].field.Some?
  {
    if errs == [] then None
    else if errs[0].field.None? then Some(errs[0])
    else GeneralError(errs[1..])
  }

  /** `errors.filter(err => err.field !== name)`: the errors not about `f`, order kept. */
  function WithoutField(errs: seq<SignupError>, f: Field): (r: seq<SignupError>)
    ensures |r| <= |errs|
    ensures forall e :: e in r <==> e in errs && e.field != Some(f)
  {
    if errs == [] then []
    else (if errs[0].field != Some(f) then [errs[0]] else []) + WithoutField(errs[1..], f)
  }

  /** What a submitted request came back with: a success, a non-ok response
      (whose body may carry a `message`), or an exception. */
  datatype SignupResponse = Accepted | Rejected(message: Option<string>) | Failed

  /** The errors a request that passed validation leaves: none on success,
      otherwise one general error. */
  function SubmitErrors(response: SignupResponse): seq<SignupError> {
    match response
    case Accepted => []
    case Rejected(m) => [SignupError(None, if m.Some? && m.value != "" then m.value else SignupFailed)]
    case Failed => [SignupError(None, ErrorOccurred)]
  }

  class SignupForm {
    var form: SignupData
    var errors: seq<SignupError>

    constructor ()
      ensures form == EmptyForm && errors == []
    {
      form := EmptyForm;
      errors := [];
    }

    /** `validateForm`: replaces `errors` by the list built for the current form
        and reports whether that list is empty. */
    method ValidateForm() returns (valid: bool)
      modifies this`errors
      ensures errors == ValidationErrors(form)
      ensures valid <==> errors == []
    {
      var d := form;
      var newErrors: seq<SignupError> := [];
      if |Trim(d.firstName)| == 0 {
        newErrors := newErrors + [SignupError(Some(FirstName), FirstNameRequired)];
      }
      assert newErrors == FieldErrors(d, FirstName);
      ghost var done := newErrors;
      if |Trim(d.lastName)| == 0 {
        newErrors := newErrors + [SignupError(Some(LastName), LastNameRequired)];
      }
      assert newErrors == done + FieldErrors(d, LastName);
      done := newErrors;
      if |Trim(d.email)| == 0 {
        newErrors := newErrors + [SignupError(Some(EmailAddress), EmailRequired)];
      } else if !ValidEmail(d.email) {
        newErrors := newErrors + [SignupError(Some(EmailAddress), EmailInvalid)];
      }
      assert newErrors == done + FieldErrors(d, EmailAddress);
      done := newErrors;
      if |d.password| == 0 {
        newErrors := newErrors + [SignupError(Some(Password), PasswordRequired)];
      } else if |d.password| < 8 {
        newErrors := newErrors + [SignupError(Some(Password), PasswordTooShort)];
      }
      assert newErrors == done + FieldErrors(d, Password);
      done := newErrors;
      if |d.confirmPassword| == 0 {
        newErrors := newErrors + [SignupError(Some(ConfirmPassword), ConfirmRequired)];
      } else if d.password != d.confirmPassword {
        newErrors := newErrors + [SignupError(Some(ConfirmPassword), PasswordsDiffer)];
      }
      assert newErrors == done + FieldErrors(d, ConfirmPassword);
      assert newErrors == ValidationErrors(d);
      errors := newErrors;
      valid := |newErrors| == 0;
    }

    /** `handleChange`: sets field `name` and drops every error about it. */
    method HandleChange(name: Field, value: string)
      modifies this
      ensures form == old(form).With(name, value)
      ensures errors == WithoutField(old(errors), name)
    {
      form := form.With(name, value);
      errors := WithoutField(errors, name);
    }

    /** `handleSubmit`: a form that fails validation sends nothing and keeps the
        validation errors; otherwise the request's outcome decides `errors`. */
    method HandleSubmit(response: SignupResponse) returns (requested: bool)
      modifies this`errors
      ensures requested <==> ValidationErrors(form) == []
      ensures errors == if requested then SubmitErrors(response) else ValidationErrors(form)
    {
      var valid := ValidateForm();
      if !valid {
        return false;
      }
      requested := true;
      match response
      case Accepted =>
      case Rejected(m) =>
        errors := [SignupError(None, if m.Some? && m.value != "" then m.value else SignupFailed)];
      case Failed =>
        errors := [SignupError(None, ErrorOccurred)];
    }
  }


  /** Looking a field up in a concatenation finds it in the first part if it is there. */
  lemma {:induction false} FieldErrorConcat(a: seq<SignupError>, b: seq<SignupError>, f: Field)
    ensures FieldError(a + b, f) == if FieldError(a, f).Some? then FieldError(a, f) else FieldError(b, f)
  {
    if a == [] {
      assert a + b == b;
    } else {
      assert (a + b)[1..] == a[1..] + b;
      FieldErrorConcat(a[1..], b, f);
    }
  }

  /** The first general error of a concatenation is found in the first part if it is there. */
  lemma {:induction false} GeneralErrorConcat(a: seq<SignupError>, b: seq<SignupError>)
    ensures GeneralError(a + b) == if GeneralError(a).Some? then GeneralError(a) else GeneralError(b)
  {
    if a == [] {
      assert a + b == b;
    } else {
      assert (a + b)[1..] == a[1..] + b;
      GeneralErrorConcat(a[1..], b);
    }
  }

  /** Every error names a field whose rank lies in `[lo, hi)`. */
  ghost predicate RanksIn(errs: seq<SignupError>, lo: nat, hi: nat) {
    forall i :: 0 <= i < |errs| ==> errs[i].field.Some? && lo <= Rank(errs[i].field.value) < hi
  }

  /** Checks in increasing rank concatenate to a list in increasing rank. */
  lemma OrderedConcat(a: seq<SignupError>, b: seq<SignupError>, lo: nat, mid: nat, hi: nat)
    requires lo <= mid <= hi
    requires InCheckOrder(a) && RanksIn(a, lo, mid)
    requires InCheckOrder(b) && RanksIn(b, mid, hi)
    ensures InCheckOrder(a + b) && RanksIn(a + b, lo, hi)
  {
  }

  /** After `validateForm`, `getFieldError(f)` shows exactly the message the check of `f` produced. */
  lemma ValidationLookup(d: SignupData, f: Field)
    ensures FieldError(ValidationErrors(d), f) == FieldMessage(d, f)
  {
    var e1, e2, e3, e4, e5 := FieldErrors(d, FirstName), FieldErrors(d, LastName),
      FieldErrors(d, EmailAddress), FieldErrors(d, Password), FieldErrors(d, ConfirmPassword);
    FieldErrorConcat(e1 + e2 + e3 + e4, e5, f);
    FieldErrorConcat(e1 + e2 + e3, e4, f);
    FieldErrorConcat(e1 + e2, e3, f);
    FieldErrorConcat(e1, e2, f);
    FieldErrorsLookup(d, FirstName, f);
    FieldErrorsLookup(d, LastName, f);
    FieldErrorsLookup(d, EmailAddress, f);
    FieldErrorsLookup(d, Password, f);
    FieldErrorsLookup(d, ConfirmPassword, f);
  }

  /** The check of field `g` reports on `g` alone. */
  lemma FieldErrorsLookup(d: SignupData, g: Field, f: Field)
    ensures FieldError(FieldErrors(d, g), f) == if g == f then FieldMessage(d, f) else None
  {
  }

  /** The list `validateForm` builds names a field in every entry, holds at most
      one entry per field, and lists them in the order firstName, lastName,
      email, password, confirmPassword; so it has at most five entries and no
      general error. */
  lemma ValidationErrorsShape(d: SignupData)
    ensures InCheckOrder(ValidationErrors(d))
    ensures |ValidationErrors(d)| <= 5
    ensures forall i, j :: 0 <= i < j < |ValidationErrors(d)| ==>
              ValidationErrors(d)[i].field != ValidationErrors(d)[j].field
    ensures GeneralError(ValidationErrors(d)) == None
  {
    var e1, e2, e3, e4, e5 := FieldErrors(d, FirstName), FieldErrors(d, LastName),
      FieldErrors(d, EmailAddress), FieldErrors(d, Password), FieldErrors(d, ConfirmPassword);
    FieldErrorsShape(d, FirstName);
    FieldErrorsShape(d, LastName);
    FieldErrorsShape(d, EmailAddress);
    FieldErrorsShape(d, Password);
    FieldErrorsShape(d, ConfirmPassword);
    var p2 := e1 + e2;
    OrderedConcat(e1, e2, 0, 1, 2);
    var p3 := p2 + e3;
    OrderedConcat(p2, e3, 0, 2, 3);
    var p4 := p3 + e4;
    OrderedConcat(p3, e4, 0, 3, 4);
    var all := p4 + e5;
    OrderedConcat(p4, e5, 0, 4, 5);
    forall i, j | 0 <= i < j < |all| ensures all[i].field != all[j].field {
      assert Rank(all[i].field.value) < Rank(all[j].field.value);
    }
  }

  /** The check of field `g` pushes at most one error, and it names `g`. */
  lemma FieldErrorsShape(d: SignupData, g: Field)
    ensures |FieldErrors(d, g)| <= 1
    ensures InCheckOrder(FieldErrors(d, g)) && RanksIn(FieldErrors(d, g), Rank(g), Rank(g) + 1)
  {
  }

  /** The name and e-mail checks in terms of what the user typed: blank (empty or
      all whitespace) means "required", and a non-blank e-mail that the regular
      expression rejects is "not valid". */
  lemma FieldMessageMeaning(d: SignupData)
    ensures FieldMessage(d, FirstName) == if IsBlank(d.firstName) then Some(FirstNameRequired) else None
    ensures FieldMessage(d, LastName) == if IsBlank(d.lastName) then Some(LastNameRequired) else None
    ensures FieldMessage(d, EmailAddress) ==
              if IsBlank(d.email) then Some(EmailRequired)
              else if !MatchesEmailPattern(d.email) then Some(EmailInvalid)
              else None
    ensures FieldMessage(d, Password) == Some(PasswordRequired) <==> d.password == ""
    ensures FieldMessage(d, Password) == Some(PasswordTooShort) <==> 0 < |d.password| < 8
    ensures FieldMessage(d, ConfirmPassword) == Some(ConfirmRequired) <==> d.confirmPassword == ""
    ensures FieldMessage(d, ConfirmPassword) == Some(PasswordsDiffer) <==>
              d.confirmPassword != "" && d.confirmPassword != d.password
  {
    ValidEmailIffPattern(d.email);
  }

  /** `validateForm` returns true exactly for a form with non-blank names, an
      e-mail the regular expression accepts, a password of at least 8
      characters, and a confirmation equal to it. */
  lemma ValidationPassesIff(d: SignupData)
    ensures ValidationErrors(d) == [] <==>
      && !IsBlank(d.firstName) && !IsBlank(d.lastName) && MatchesEmailPattern(d.email)
      && |d.password| >= 8 && d.confirmPassword == d.password
  {
    FieldMessageMeaning(d);
    ValidEmailIffPattern(d.email);
    if ValidationErrors(d) == [] {
      forall f ensures FieldMessage(d, f) == None {
        ValidationLookup(d, f);
      }
    }
  }

  /** `handleChange(name, ...)` hides `name`'s error and leaves every other field's lookup as it was. */
  lemma {:induction false} WithoutFieldLookup(errs: seq<SignupError>, name: Field, g: Field)
    ensures FieldError(WithoutField(errs, name), g) == if g == name then None else FieldError(errs, g)
  {
    if errs != [] {
      var head: seq<SignupError> := if errs[0].field != Some(name) then [errs[0]] else [];
      assert WithoutField(errs, name) == head + WithoutField(errs[1..], name);
      FieldErrorConcat(head, WithoutField(errs[1..], name), g);
      FieldErrorConcat([errs[0]], errs[1..], g);
      assert [errs[0]] + errs[1..] == errs;
      WithoutFieldLookup(errs[1..], name, g);
    }
  }

  /** Filtering by field never drops a general error, so `generalError` is unchanged. */
  lemma {:induction false} WithoutFieldGeneral(errs: seq<SignupError>, name: Field)
    ensures GeneralError(WithoutField(errs, name)) == GeneralError(errs)
  {
    if errs != [] {
      var head: seq<SignupError> := if errs[0].field != Some(name) then [errs[0]] else [];
      assert WithoutField(errs, name) == head + WithoutField(errs[1..], name);
      GeneralErrorConcat(head, WithoutField(errs[1..], name));
      GeneralErrorConcat([errs[0]], errs[1..]);
      assert [errs[0]] + errs[1..] == errs;
      WithoutFieldGeneral(errs[1..], name);
    }
  }

  /** Filtering commutes with concatenation: the errors that survive keep their relative order. */
  lemma {:induction false} WithoutFieldConcat(a: seq<SignupError>, b: seq<SignupError>, name: Field)
    ensures WithoutField(a + b, name) == WithoutField(a, name) + WithoutField(b, name)
  {
    if a == [] {
      assert a + b == b;
    } else {
      assert (a + b)[1..] == a[1..] + b;
      WithoutFieldConcat(a[1..], b, name);
    }
  }

  /** A request that passed validation but failed leaves exactly one error, a
      general one, so no field shows an error. */
  lemma SubmitFailureIsGeneral(response: SignupResponse)
    requires !response.Accepted?
    ensures |SubmitErrors(response)| == 1
    ensures GeneralError(SubmitErrors(response)) == Some(SubmitErrors(response)[0])
    ensures forall f :: FieldError(SubmitErrors(response), f) == None
  {
  }
}
