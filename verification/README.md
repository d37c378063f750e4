# Login and sign-up form validation

This project models the form state of the two screens of the Examen_app
Android application, and proves properties of that model. Both screens are
Jetpack Compose composables that keep their state in `remember`-ed
variables:

- **Sign-up screen** (`SignUp.kt`). It holds four text fields: full name,
  email, password and confirmation. It also holds one error string per
  field and two password-visibility flags.
- **Login screen** (`LoginScreen.kt`). It holds an email field and a
  password field, one error string per field and one visibility flag.

Each screen changes its state through three kinds of action:

- `validateFields`, run by the submit button. It overwrites every error
  string and returns whether all of them are empty. Only then does the
  button invoke the success callback (`onSignUpSuccess` / `onLoginSuccess`).
- The `onValueChange` handler of each field. It stores the new value and
  clears that field's error.
- The eye icons. Each one negates its visibility flag.

Each screen is a Dafny class (`SignUp.SignUpScreen`, `Login.LoginScreen`)
whose fields are the composable's state variables. Its methods change
those fields in place. Each `modifies` clause names only the fields the
handler assigns, so "nothing else changes" is part of every contract. The
success callback is recorded as a counter, `successCallbacks`.

Each field's rule is a function: `NameErrorFor`, `EmailErrorFor`,
`PasswordErrorFor` and `ConfirmErrorFor`. Its contract says when the error
is empty and which message it is otherwise. `ValidateFields` is proved
against these functions and against `Submittable`, the plain statement of
what an acceptable form is.

Each class keeps an invariant, `Valid()`: an error on screen always
describes the field's current value. There is one exception. On the
sign-up screen, editing the password does not clear a "passwords do not
match" error on the confirmation, so only the kind of that error is
guaranteed to be current. `SignUp.StaleMismatchScenario` shows this.

Modules:

- `FieldChecks` (`field_checks.dfy`): Kotlin's `Char.isWhitespace`,
  `isBlank`, `trim` and `String.length` (in UTF-16 code units), and the
  password length rule that both screens share.
- `SignUp` (`sign_up.dfy`) and `Login` (`login.dfy`): the two screens.
- `Agreement` (`agreement.dfy`): the two screens accept the same emails
  and passwords.

The email check calls the platform's `android.util.Patterns.EMAIL_ADDRESS`.
Here it is a parameter, `isValidEmail: string -> bool`, given to each
screen's constructor. The screens, the field rules and the general lemmas
assume nothing about which strings it accepts. The scenario methods, and
`SignUp.NameMissingPasswordsDifferRules`, the helper lemma of one of them,
state as a precondition whether it accepts the one email they use.

Notes on the code:

- The messages are the code's Spanish strings, and they differ between the
  two screens.
- Presence is checked before length, so a password of six spaces gets
  "La contraseña es requerida" (`SignUp.BlankPasswordScenario`).
- The length rule measures the raw, untrimmed string in UTF-16 code units,
  as Kotlin's `String.length` does. A character outside the Basic
  Multilingual Plane counts twice, so three emoji make a long enough
  password (`FieldChecks.ThreeEmojiPassIsValid`).
- Each field keeps one error string, with "" meaning no error.

## Model

| member | source | states |
|---|---|---|
| FieldChecks.IsBlank | app/src/main/java/com/example/examen_app/SignUp.kt:57 | Kotlin `isBlank()` holds exactly when every character of the string is whitespace. |
| FieldChecks.BlankIffTrimmedEmpty | app/src/main/java/com/example/examen_app/LoginScreen.kt:54 | The presence check `isBlank()` agrees with "the trimmed value is empty". |
| FieldChecks.Utf16Length | app/src/main/java/com/example/examen_app/SignUp.kt:49 | Kotlin `String.length` counts UTF-16 code units: between one and two per character, and exactly one per character when no character lies outside the Basic Multilingual Plane. |
| FieldChecks.IsValidPassword | app/src/main/java/com/example/examen_app/SignUp.kt:48-50 | Both screens' `isValidPassword`: at least six characters always pass, fewer than three never do, and without supplementary characters the rule is exactly "at least six characters". |
| FieldChecks.SupplementaryOnlyDoubles | app/src/main/java/com/example/examen_app/SignUp.kt:49 | A string of k characters outside the Basic Multilingual Plane has UTF-16 length 2k, so three such characters already pass the length rule. |
| FieldChecks.ThreeEmojiPassIsValid | app/src/main/java/com/example/examen_app/LoginScreen.kt:47-49 | Three emoji pass the length rule, since their UTF-16 length is six. |
| SignUp.NameErrorFor | app/src/main/java/com/example/examen_app/SignUp.kt:57-62 | The name error is empty exactly when the name is not blank; otherwise it is "El nombre es requerido". |
| SignUp.EmailErrorFor | app/src/main/java/com/example/examen_app/SignUp.kt:65-73 | The email error is empty exactly when the email is not blank and matches the platform pattern. Otherwise it is "El email es requerido" exactly when the email is blank, else "Email inválido". |
| SignUp.PasswordErrorFor | app/src/main/java/com/example/examen_app/SignUp.kt:76-84 | The password error is empty exactly when the password is not blank and its raw UTF-16 length is at least 6. Otherwise it is "La contraseña es requerida" exactly when the password is blank, else "Mínimo 6 caracteres". |
| SignUp.ConfirmErrorFor | app/src/main/java/com/example/examen_app/SignUp.kt:87-95 | The confirmation error is empty exactly when the confirmation is not blank and equals the raw password. Otherwise it is "La confirmación es requerida" exactly when the confirmation is blank, else "Las contraseñas no coinciden". |
| SignUp.SubmittableIffNoErrors | app/src/main/java/com/example/examen_app/SignUp.kt:53-97 | The form meets every rule exactly when all four field errors are empty. |
| SignUp.SignUpScreen.constructor | app/src/main/java/com/example/examen_app/SignUp.kt:27-38 | A new screen has empty values and errors, both passwords hidden, and the invariant holds. |
| SignUp.SignUpScreen.ValidateFields | app/src/main/java/com/example/examen_app/SignUp.kt:53-97 | Reassigns all four errors to their field rules and changes no value or flag. Returns true exactly when all four errors are empty, which is exactly when the form meets every rule. Establishes the invariant from any state. |
| SignUp.SignUpScreen.EditFullName | app/src/main/java/com/example/examen_app/SignUp.kt:152-154 | Sets the name and clears only the name error; everything else is unchanged. The invariant is kept. |
| SignUp.SignUpScreen.EditEmail | app/src/main/java/com/example/examen_app/SignUp.kt:176-178 | Sets the email and clears only the email error; everything else is unchanged. The invariant is kept. |
| SignUp.SignUpScreen.EditPassword | app/src/main/java/com/example/examen_app/SignUp.kt:201-203 | Sets the password and clears only the password error; the confirmation error is left as it was. The invariant is kept. |
| SignUp.SignUpScreen.EditConfirmPassword | app/src/main/java/com/example/examen_app/SignUp.kt:235-237 | Sets the confirmation and clears only the confirmation error; everything else is unchanged. The invariant is kept. |
| SignUp.SignUpScreen.TogglePasswordVisible | app/src/main/java/com/example/examen_app/SignUp.kt:211 | Negates the password's visibility flag and changes nothing else. The invariant is kept. |
| SignUp.SignUpScreen.ToggleConfirmPasswordVisible | app/src/main/java/com/example/examen_app/SignUp.kt:245 | Negates the confirmation's visibility flag and changes nothing else. The invariant is kept. |
| SignUp.SignUpScreen.Submit | app/src/main/java/com/example/examen_app/SignUp.kt:266-270 | Validates, and invokes the success callback once exactly when the form meets every rule; otherwise it does not invoke it. |
| SignUp.ValidateTwice | app/src/main/java/com/example/examen_app/SignUp.kt:53-97 | Two validations in a row return the same result and leave the same errors, which are the field rules of the current values. Only the error fields may change. |
| SignUp.NameMissingPasswordsDifferScenario | app/src/main/java/com/example/examen_app/SignUp.kt:53-97 | A blank name with mismatched passwords gives exactly the name and mismatch errors, and no callback. |
| SignUp.BlankPasswordScenario | app/src/main/java/com/example/examen_app/SignUp.kt:76-84 | A password of six spaces is reported as missing, not as valid. |
| SignUp.StaleMismatchScenario | app/src/main/java/com/example/examen_app/SignUp.kt:201-203 | A mismatch error survives the password edit that makes both fields equal, and is cleared by the next validation. |
| Login.EmailErrorFor | app/src/main/java/com/example/examen_app/LoginScreen.kt:54-60 | The email error is empty exactly when the email is not blank and matches the platform pattern. Otherwise it is "El email es requerido" exactly when the email is blank, else "El formato del email es inválido". |
| Login.PasswordErrorFor | app/src/main/java/com/example/examen_app/LoginScreen.kt:63-69 | The password error is empty exactly when the password is not blank and its raw UTF-16 length is at least 6. Otherwise it is "La contraseña es requerida" exactly when the password is blank, else "La contraseña debe tener al menos 6 caracteres". |
| Login.LoginScreen.constructor | app/src/main/java/com/example/examen_app/LoginScreen.kt:29-35 | A new screen has empty values and errors, the password hidden, and the invariant holds. |
| Login.LoginScreen.ValidateFields | app/src/main/java/com/example/examen_app/LoginScreen.kt:52-73 | Reassigns both errors to their field rules whatever the other's outcome, and changes no value or flag. Returns true exactly when both errors, read back, are empty, which is exactly when the form meets every rule. |
| Login.LoginScreen.EditEmail | app/src/main/java/com/example/examen_app/LoginScreen.kt:108-114 | Sets the email and clears only the email error; the password and its error are unchanged. The invariant is kept. |
| Login.LoginScreen.EditPassword | app/src/main/java/com/example/examen_app/LoginScreen.kt:138-142 | Sets the password and clears only the password error; the email and its error are unchanged. The invariant is kept. |
| Login.LoginScreen.TogglePasswordVisible | app/src/main/java/com/example/examen_app/LoginScreen.kt:149 | Negates the visibility flag and changes no value or error. The invariant is kept. |
| Login.LoginScreen.Submit | app/src/main/java/com/example/examen_app/LoginScreen.kt:184-190 | Validates, and invokes the success callback once exactly when the form meets every rule; otherwise it does not invoke it. |
| Login.ValidateTwice | app/src/main/java/com/example/examen_app/LoginScreen.kt:52-73 | Two validations in a row return the same result and leave the same errors, which are the field rules of the current values. Only the error fields may change. |
| Login.WellFormedScenario | app/src/main/java/com/example/examen_app/LoginScreen.kt:52-73 | "a@b.com" (accepted by the pattern) with "abcdef" logs in with no errors, and the callback runs once. |
| Login.MalformedScenario | app/src/main/java/com/example/examen_app/LoginScreen.kt:52-73 | "bademail" (rejected by the pattern) with "123" gets both format errors and no callback. |
| Agreement.SignUpIsLoginPlusNameAndConfirmation | app/src/main/java/com/example/examen_app/SignUp.kt:53-97 | A sign-up form is accepted exactly when its email and password would log in, its name is present and its confirmation equals the password. |
| Agreement.SameFieldsPass | app/src/main/java/com/example/examen_app/LoginScreen.kt:52-73 | Both screens accept the same emails and the same passwords, although their messages differ. |

## Left out

- `MainActivity.kt` is not part of this model. It holds activity setup and navigation routing with animated transitions.
- The regular expression behind `android.util.Patterns.EMAIL_ADDRESS` is left out because it is platform code. It is an uninterpreted parameter: only the scenario methods and their helper lemma `SignUp.NameMissingPasswordsDifferRules` say, as a precondition, whether it accepts their particular emails.
- Compose layout and rendering are left out: columns, spacers, colours, images, and the `isError` / `supportingText` display of a non-empty error.
- The social-login buttons are left out because their `onClick` handlers are empty.
- The "Forgot Password?" button is left out because its handler is an unimplemented TODO.
- The back and "Login" / "Signup" links are left out. They invoke navigation callbacks unconditionally and touch no form state.
- The sign-up screen's `showErrorDialog` / `errorMessage` state and its alert dialog are left out. Nothing ever sets the flag to true, so this state is dead.
- Recomposition and `remember` semantics are left out. The state variables are plain fields of one object per screen visit.
