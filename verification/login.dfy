/**
 * The login screen: an email and a password field, one error string per
 * field, a password-visibility flag, and the Log In button that runs the
 * validator and, on success, invokes the `onLoginSuccess` navigation
 * callback.
 */
module Login {
  import opened FieldChecks

  // The screen's error messages, as the screen shows them.
  const EmailRequired := "El email es requerido"
  const EmailMalformed := "El formato del email es inválido"
  const PasswordRequired := "La contraseña es requerida"
  const PasswordTooShort := "La contraseña debe tener al menos 6 caracteres"

  /** The error the validator gives the email: presence first, then the
      platform's email-address pattern. */
  function EmailErrorFor(email: string, isValidEmail: string -> bool): (e: string)
    ensures e == "" <==> !IsBlank(email) && isValidEmail(email)
    ensures e != "" ==> (e == EmailRequired <==> IsBlank(email))
    ensures e in {"", EmailRequired, EmailMalformed}
  {
    if IsBlank(email) then EmailRequired
    else if !isValidEmail(email) then EmailMalformed
    else ""
  }

  /** The error the validator gives the password: presence first, then the
      length of the raw string. */
  function PasswordErrorFor(password: string): (e: string)
    ensures e == "" <==> !IsBlank(password) && IsValidPassword(password)
    ensures e != "" ==> (e == PasswordRequired <==> IsBlank(password))
    ensures e in {"", PasswordRequired, PasswordTooShort}
  {
    if IsBlank(password) then PasswordRequired
    else if !IsValidPassword(password) then PasswordTooShort
    else ""
  }

  /** What the form must satisfy to log in: a present, well-formed email and
      a present password of at least six characters. */
  predicate Submittable(email: string, password: string, isValidEmail: string -> bool) {
    && !IsBlank(email) && isValidEmail(email)
    && !IsBlank(password) && Utf16Length(password) >= MinPasswordLength
  }

  /** The screen's state: the `remember`-ed variables of the composable. */
  class LoginScreen {
    /** The platform's email-address pattern (`Patterns.EMAIL_ADDRESS`). */
    const isValidEmail: string -> bool

    var email: string
    var password: string
    var passwordVisible: bool

    var emailError: string
    var passwordError: string

    /** How many times `onLoginSuccess` has been invoked. */
    var successCallbacks: nat

    /** A shown error always describes the current value of its field. */
    ghost predicate Valid()
      reads this
    {
      && (emailError == "" || emailError == EmailErrorFor(email, isValidEmail))
      && (passwordError == "" || passwordError == PasswordErrorFor(password))
    }

    /** A fresh screen: every value and error empty, the password hidden. */
    constructor (isValidEmail: string -> bool)
      ensures Valid()
      ensures this.isValidEmail == isValidEmail
      ensures email == "" && password == "" && emailError == "" && passwordError == ""
      ensures !passwordVisible && successCallbacks == 0
    {
      this.isValidEmail := isValidEmail;
      email, password := "", "";
      passwordVisible := false;
      emailError, passwordError := "", "";
      successCallbacks := 0;
    }

    /** `validateFields`: reassigns both errors, changes nothing else, then
        reads them back and reports whether both are empty. */
    method ValidateFields() returns (ok: bool)
      modifies this`emailError, this`passwordError
      ensures Valid()
      ensures emailError == EmailErrorFor(email, isValidEmail)
      ensures passwordError == PasswordErrorFor(password)
      ensures ok <==> emailError == "" && passwordError == ""
      ensures ok <==> Submittable(email, password, isValidEmail)
    {
      if IsBlank(email) {
        emailError := EmailRequired;
      } else if !isValidEmail(email) {
        emailError := EmailMalformed;
      } else {
        emailError := "";
      }

      if IsBlank(password) {
        passwordError := PasswordRequired;
      } else if !IsValidPassword(password) {
        passwordError := PasswordTooShort;
      } else {
        passwordError := "";
      }

      ok := emailError == "" && passwordError == "";
    }

    /** The email field's `onValueChange`. */
    method EditEmail(value: string)
      requires Valid()
      modifies this`email, this`emailError
      ensures Valid()
      ensures email == value && emailError == ""
    {
      email := value;
      if emailError != "" { emailError := ""; }
    }

    /** The password field's `onValueChange`. */
    method EditPassword(value: string)
      requires Valid()
      modifies this`password, this`passwordError
      ensures Valid()
      ensures password == value && passwordError == ""
    {
      password := value;
      if passwordError != "" { passwordError := ""; }
    }

    /** The password field's eye icon. */
    method TogglePasswordVisible()
      requires Valid()
      modifies this`passwordVisible
      ensures Valid()
      ensures passwordVisible == !old(passwordVisible)
    {
      passwordVisible := !passwordVisible;
    }

    /** The Log In button: validate, and invoke `onLoginSuccess` only when
        validation succeeded. */
    method Submit() returns (succeeded: bool)
      modifies this`emailError, this`passwordError, this`successCallbacks
      ensures Valid()
      ensures emailError == EmailErrorFor(email, isValidEmail)
      ensures passwordError == PasswordErrorFor(password)
      ensures succeeded <==> Submittable(email, password, isValidEmail)
      ensures successCallbacks == old(successCallbacks) + (if succeeded then 1 else 0)
    {
      succeeded := ValidateFields();
      if succeeded {
        successCallbacks := successCallbacks + 1;
      }
    }
  }

  /** Validating twice in a row gives the same result and the same errors,
      and touches nothing but the two errors. */
  method ValidateTwice(screen: LoginScreen) returns (first: bool, second: bool, firstErrors: seq<string>)
    modifies screen`emailError, screen`passwordError
    ensures first == second
    ensures firstErrors == [screen.emailError, screen.passwordError]
    ensures firstErrors == [EmailErrorFor(screen.email, screen.isValidEmail), PasswordErrorFor(screen.password)]
  {
    first := screen.ValidateFields();
    firstErrors := [screen.emailError, screen.passwordError];
    second := screen.ValidateFields();
  }

  /** A well-formed email with a six-character password logs in. */
  method WellFormedScenario(isValidEmail: string -> bool)
    returns (succeeded: bool, emailError: string, passwordError: string, callbacks: nat)
    requires isValidEmail("a@b.com")
    ensures succeeded && callbacks == 1
    ensures emailError == "" && passwordError == ""
  {
    var screen := new LoginScreen(isValidEmail);
    screen.EditEmail("a@b.com");
    screen.EditPassword("abcdef");
    assert !IsWhitespace("a@b.com"[0]) && !IsWhitespace("abcdef"[0]);
    succeeded := screen.Submit();
    emailError, passwordError := screen.emailError, screen.passwordError;
    callbacks := screen.successCallbacks;
  }

  /** A malformed email with a three-character password: both fields get
      their format errors and the success callback is not invoked. */
  method MalformedScenario(isValidEmail: string -> bool)
    returns (succeeded: bool, emailError: string, passwordError: string, callbacks: nat)
    requires !isValidEmail("bademail")
    ensures !succeeded && callbacks == 0
    ensures emailError == EmailMalformed && passwordError == PasswordTooShort
  {
    var screen := new LoginScreen(isValidEmail);
    screen.EditEmail("bademail");
    screen.EditPassword("123");
    assert !IsWhitespace("bademail"[0]) && !IsWhitespace("123"[0]);
    succeeded := screen.Submit();
    emailError, passwordError := screen.emailError, screen.passwordError;
    callbacks := screen.successCallbacks;
  }
}
