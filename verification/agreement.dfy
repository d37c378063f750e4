/**
 * How the two screens' rules relate: they word their messages differently
 * but accept the same emails and passwords.
 */
module Agreement {
  import opened FieldChecks
  import SignUp
  import Login

  /** A sign-up form is accepted exactly when its email and password would
      log in, its name is present and its confirmation repeats the password. */
  lemma SignUpIsLoginPlusNameAndConfirmation(fullName: string, email: string, password: string,
                                             confirmPassword: string, isValidEmail: string -> bool)
    ensures SignUp.Submittable(fullName, email, password, confirmPassword, isValidEmail)
        <==> && Login.Submittable(email, password, isValidEmail)
             && !IsBlank(fullName)
             && confirmPassword == password
  {
  }

  /** Both screens clear the email error for the same emails and the
      password error for the same passwords. */
  lemma SameFieldsPass(email: string, password: string, isValidEmail: string -> bool)
    ensures SignUp.EmailErrorFor(email, isValidEmail) == "" <==> Login.EmailErrorFor(email, isValidEmail) == ""
    ensures SignUp.PasswordErrorFor(password) == "" <==> Login.PasswordErrorFor(password) == ""
  {
  }
}
