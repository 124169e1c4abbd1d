/** The sign-in and sign-up forms of src/pages/Auth side by side: the same
    inputs can pass one form's checks and fail the other's. */
module AuthForms {
  import opened Wrappers
  import Login
  import Signup
  import Text

  /** The two forms' thresholds differ: a 6- or 7-character password passes
      sign-in but not sign-up, and a non-empty all-whitespace e-mail is
      "required" on sign-up but "not valid" on sign-in. */
  lemma FormsDisagree(email: string, password: string)
    requires 6 <= |password| < 8
    requires email != "" && Text.IsBlank(email)
    ensures Login.FieldMessage(Login.LoginData(email, password), Login.Password) == None
    ensures Signup.FieldMessage(Signup.SignupData("", "", email, password, password), Signup.Password)
            == Some(Signup.PasswordTooShort)
    ensures Login.FieldMessage(Login.LoginData(email, password), Login.EmailAddress) == Some(Login.EmailInvalid)
    ensures Signup.FieldMessage(Signup.SignupData("", "", email, password, password), Signup.EmailAddress)
            == Some(Signup.EmailRequired)
  {
    Login.BlankEmailIsInvalid(Login.LoginData(email, password));
  }
}
