/**
 * The sign-up screen: four text fields (full name, email, password and its
 * confirmation), one error string per field, two password-visibility flags,
 * and the Sign Up button that runs the validator and, on success, invokes
 * the `onSignUpSuccess` navigation callback.
 */
module SignUp {
  import opened FieldChecks

  // The screen's error messages, as the screen shows them.
  const NameRequired := "El nombre es requerido"
  const EmailRequired := "El email es requerido"
  const EmailInvalid := "Email inválido"
  const PasswordRequired := "La contraseña es requerida"
  const PasswordTooShort := "Mínimo 6 caracteres"
  const ConfirmRequired := "La confirmación es requerida"
  const PasswordsDiffer := "Las contraseñas no coinciden"

  /** The error the validator gives the full name: a blank name is required. */
  function NameErrorFor(fullName: string): (e: string)
    ensures e == "" <==> !IsBlank(fullName)
    ensures e != "" ==> e == NameRequired
  {
    if IsBlank(fullName) then NameRequired else ""
  }

  /** The error the validator gives the email: presence first, then the
      platform's email-address pattern. */
  function EmailErrorFor(email: string, isValidEmail: string -> bool): (e: string)
    ensures e == "" <==> !IsBlank(email) && isValidEmail(email)
    ensures e != "" ==> (e == EmailRequired <==> IsBlank(email))
    ensures e in {"", EmailRequired, EmailInvalid}
  {
    if IsBlank(email) then EmailRequired
    else if !isValidEmail(email) then EmailInvalid
    else ""
  }

  /** The error the validator gives the password: presence first, then the
      length of the raw string. */
  function PasswordErrorFor(password: string): (e: string)
    ensures e == "" <==> !IsBlank(password) && IsValidPassword(password)
    ensures e != "" ==> (e == PasswordRequired <==> IsBlank(password))
    ensures e in {"", PasswordRequired, PasswordTooShort}
  {
    if IsBlank(password) then PasswordRequired
    else if !IsValidPassword(password) then PasswordTooShort
    else ""
  }

  /** The error the validator gives the confirmation: presence first, then
      equality with the raw password, whatever the password's own outcome. */
  function ConfirmErrorFor(password: string, confirmPassword: string): (e: string)
    ensures e == "" <==> !IsBlank(confirmPassword) && confirmPassword == password
    ensures e != "" ==> (e == ConfirmRequired <==> IsBlank(confirmPassword))
    ensures e in {"", ConfirmRequired, PasswordsDiffer}
  {
    if IsBlank(confirmPassword) then ConfirmRequired
    else if password != confirmPassword then PasswordsDiffer
    else ""
  }

  /** What the form must satisfy to be submitted: every field present, the
      email well formed, the password long enough, the confirmation equal. */
  predicate Submittable(fullName: string, email: string, password: string,
                        confirmPassword: string, isValidEmail: string -> bool)
  {
    && !IsBlank(fullName)
    && !IsBlank(email) && isValidEmail(email)
    && !IsBlank(password) && Utf16Length(password) >= MinPasswordLength
    && !IsBlank(confirmPassword) && confirmPassword == password
  }

  /** The form is submittable exactly when no field has an error. */
  lemma SubmittableIffNoErrors(fullName: string, email: string, password: string,
                               confirmPassword: string, isValidEmail: string -> bool)
    ensures Submittable(fullName, email, password, confirmPassword, isValidEmail)
        <==> && NameErrorFor(fullName) == ""
             && EmailErrorFor(email, isValidEmail) == ""
             && PasswordErrorFor(password) == ""
             && ConfirmErrorFor(password, confirmPassword) == ""
  {
  }

  /** The screen's state: the `remember`-ed variables of the composable. */
  class SignUpScreen {
    /** The platform's email-address pattern (`Patterns.EMAIL_ADDRESS`). */
    const isValidEmail: string -> bool

    var fullName: string
    var email: string
    var password: string
    var confirmPassword: string
    var passwordVisible: bool
    var confirmPasswordVisible: bool

    var fullNameError: string
    var emailError: string
    var passwordError: string
    var confirmPasswordError: string

    /** How many times `onSignUpSuccess` has been invoked. */
    var successCallbacks: nat

    /** A shown error always describes the current value of its field. For
        the confirmation only the kind of error is current: editing the
        password does not clear a stale mismatch. */
    ghost predicate Valid()
      reads this
    {
      && (fullNameError == "" || fullNameError == NameErrorFor(fullName))
      && (emailError == "" || emailError == EmailErrorFor(email, isValidEmail))
      && (passwordError == "" || passwordError == PasswordErrorFor(password))
      && (confirmPasswordError == ""
          || (IsBlank(confirmPassword) && confirmPasswordError == ConfirmRequired)
          || (!IsBlank(confirmPassword) && confirmPasswordError == PasswordsDiffer))
    }

    /** A fresh screen: every value and error empty, passwords hidden. */
    constructor (isValidEmail: string -> bool)
      ensures Valid()
      ensures this.isValidEmail == isValidEmail
      ensures fullName == "" && email == "" && password == "" && confirmPassword == ""
      ensures fullNameError == "" && emailError == "" && passwordError == "" && confirmPasswordError == ""
      ensures !passwordVisible && !confirmPasswordVisible && successCallbacks == 0
    {
      this.isValidEmail := isValidEmail;
      fullName, email, password, confirmPassword := "", "", "", "";
      passwordVisible, confirmPasswordVisible := false, false;
      fullNameError, emailError, passwordError, confirmPasswordError := "", "", "", "";
      successCallbacks := 0;
    }

    /** `validateFields`: reassigns all four errors, changes nothing else,
        and reports whether all four are empty. */
    method ValidateFields() returns (isValid: bool)
      modifies this`fullNameError, this`emailError, this`passwordError, this`confirmPasswordError
      ensures Valid()
      ensures fullNameError == NameErrorFor(fullName)
      ensures emailError == EmailErrorFor(email, isValidEmail)
      ensures passwordError == PasswordErrorFor(password)
      ensures confirmPasswordError == ConfirmErrorFor(password, confirmPassword)
      ensures isValid <==> fullNameError == "" && emailError == "" && passwordError == "" && confirmPasswordError == ""
      ensures isValid <==> Submittable(fullName, email, password, confirmPassword, isValidEmail)
    {
      isValid := true;

      if IsBlank(fullName) {
        fullNameError := NameRequired;
        isValid := false;
      } else {
        fullNameError := "";
      }

      if IsBlank(email) {
        emailError := EmailRequired;
        isValid := false;
      } else if !isValidEmail(email) {
        emailError := EmailInvalid;
        isValid := false;
      } else {
        emailError := "";
      }

      if IsBlank(password) {
        passwordError := PasswordRequired;
        isValid := false;
      } else if !IsValidPassword(password) {
        passwordError := PasswordTooShort;
        isValid := false;
      } else {
        passwordError := "";
      }

      if IsBlank(confirmPassword) {
        confirmPasswordError := ConfirmRequired;
        isValid := false;
      } else if password != confirmPassword {
        confirmPasswordError := PasswordsDiffer;
        isValid := false;
      } else {
        confirmPasswordError := "";
      }
    }

    /** The full-name field's `onValueChange`. */
    method EditFullName(value: string)
      requires Valid()
      modifies this`fullName, this`fullNameError
      ensures Valid()
      ensures fullName == value && fullNameError == ""
    {
      fullName := value;
      if fullNameError != "" { fullNameError := ""; }
    }

    /** The email field's `onValueChange`. */
    method EditEmail(value: string)
      requires Valid()
      modifies this`email, this`emailError
      ensures Valid()
      ensures email == value && emailError == ""
    {
      email := value;
      if emailError != "" { emailError := ""; }
    }

    /** The password field's `onValueChange`; the confirmation's error is
        left as it was, even when the two now agree. */
    method EditPassword(value: string)
      requires Valid()
      modifies this`password, this`passwordError
      ensures Valid()
      ensures password == value && passwordError == ""
    {
      password := value;
      if passwordError != "" { passwordError := ""; }
    }

    /** The confirmation field's `onValueChange`. */
    method EditConfirmPassword(value: string)
      requires Valid()
      modifies this`confirmPassword, this`confirmPasswordError
      ensures Valid()
      ensures confirmPassword == value && confirmPasswordError == ""
    {
      confirmPassword := value;
      if confirmPasswordError != "" { confirmPasswordError := ""; }
    }

    /** The password field's eye icon. */
    method TogglePasswordVisible()
      requires Valid()
      modifies this`passwordVisible
      ensures Valid()
      ensures passwordVisible == !old(passwordVisible)
    {
      passwordVisible := !passwordVisible;
    }

    /** The confirmation field's eye icon. */
    method ToggleConfirmPasswordVisible()
      requires Valid()
      modifies this`confirmPasswordVisible
      ensures Valid()
      ensures confirmPasswordVisible == !old(confirmPasswordVisible)
    {
      confirmPasswordVisible := !confirmPasswordVisible;
    }

    /** The Sign Up button: validate, and invoke `onSignUpSuccess` only when
        validation succeeded. */
    method Submit() returns (succeeded: bool)
      modifies this`fullNameError, this`emailError, this`passwordError, this`confirmPasswordError,
               this`successCallbacks
      ensures Valid()
      ensures fullNameError == NameErrorFor(fullName)
      ensures emailError == EmailErrorFor(email, isValidEmail)
      ensures passwordError == PasswordErrorFor(password)
      ensures confirmPasswordError == ConfirmErrorFor(password, confirmPassword)
      ensures succeeded <==> Submittable(fullName, email, password, confirmPassword, isValidEmail)
      ensures successCallbacks == old(successCallbacks) + (if succeeded then 1 else 0)
    {
      succeeded := ValidateFields();
      if succeeded {
        successCallbacks := successCallbacks + 1;
      }
    }
  }

  /** Validating twice in a row gives the same result and the same errors,
      and touches nothing but the four errors. */
  method ValidateTwice(screen: SignUpScreen) returns (first: bool, second: bool, firstErrors: seq<string>)
    modifies screen`fullNameError, screen`emailError, screen`passwordError, screen`confirmPasswordError
    ensures first == second
    ensures firstErrors == [screen.fullNameError, screen.emailError, screen.passwordError,
                            screen.confirmPasswordError]
    ensures firstErrors == [NameErrorFor(screen.fullName), EmailErrorFor(screen.email, screen.isValidEmail),
                            PasswordErrorFor(screen.password),
                            ConfirmErrorFor(screen.password, screen.confirmPassword)]
  {
    first := screen.ValidateFields();
    firstErrors := [screen.fullNameError, screen.emailError, screen.passwordError,
                    screen.confirmPasswordError];
    second := screen.ValidateFields();
  }

  /** The field rules for the blank-name, mismatched-passwords form. */
  lemma NameMissingPasswordsDifferRules(isValidEmail: string -> bool)
    requires isValidEmail("x@y.com")
    ensures NameErrorFor("") == NameRequired
    ensures EmailErrorFor("x@y.com", isValidEmail) == ""
    ensures PasswordErrorFor("abcdef") == ""
    ensures ConfirmErrorFor("abcdef", "abcxyz") == PasswordsDiffer
  {
    assert !IsWhitespace("x@y.com"[0]) && !IsWhitespace("abcdef"[0]) && !IsWhitespace("abcxyz"[0]);
  }

  /** A blank name with mismatched passwords: the name and the confirmation
      get errors, the email and the password do not, and the success
      callback is not invoked. */
  method NameMissingPasswordsDifferScenario(isValidEmail: string -> bool)
    returns (succeeded: bool, errors: seq<string>, callbacks: nat)
    requires isValidEmail("x@y.com")
    ensures !succeeded && callbacks == 0
    ensures errors == [NameRequired, "", "", PasswordsDiffer]
  {
    NameMissingPasswordsDifferRules(isValidEmail);
    var screen := new SignUpScreen(isValidEmail);
    screen.EditEmail("x@y.com");
    screen.EditPassword("abcdef");
    screen.EditConfirmPassword("abcxyz");
    succeeded := screen.Submit();
    errors := [screen.fullNameError, screen.emailError, screen.passwordError,
               screen.confirmPasswordError];
    callbacks := screen.successCallbacks;
  }

  /** Six spaces are as long as the minimum but blank, so the presence check
      answers first. */
  method BlankPasswordScenario(isValidEmail: string -> bool) returns (passwordError: string)
    ensures passwordError == PasswordRequired
  {
    var screen := new SignUpScreen(isValidEmail);
    screen.EditPassword("      ");
    var _ := screen.ValidateFields();
    passwordError := screen.passwordError;
  }

  /** A mismatch error outlives the password edit that makes the two fields
      agree; it goes away only on the next validation. */
  method StaleMismatchScenario(isValidEmail: string -> bool)
    returns (staleError: string, afterRevalidation: string)
    ensures staleError == PasswordsDiffer
    ensures afterRevalidation == ""
  {
    var password, confirmation := "abcdef", "abcdeg";
    assert !IsWhitespace(confirmation[0]) && password != confirmation;
    var screen := new SignUpScreen(isValidEmail);
    screen.EditPassword(password);
    screen.EditConfirmPassword(confirmation);
    var _ := screen.ValidateFields();
    screen.EditPassword(confirmation);
    assert screen.password == screen.confirmPassword;
    staleError := screen.confirmPasswordError;
    var _ := screen.ValidateFields();
    afterRevalidation := screen.confirmPasswordError;
  }
}
