/**
 * RegisterActivity: the sign-up form's checks, what the sign-up attempt leads to, the error
 * messages for a failed sign-up, and the terms checkbox set from the terms screen.
 * FirebaseAuth and Firestore are outside the model: the sign-up response is an input and the
 * profile document to write is an output.
 */
module RegisterActivity {
  import opened Wrappers
  import opened Text
  import opened AuthForms

  const EmailRequired: string := "El correo es obligatorio"
  const EmailInvalid: string := "Ingresa un correo válido"
  const PasswordRequired: string := "La contraseña es obligatoria"
  const PasswordTooShort: string := "La contraseña debe tener al menos 6 caracteres"
  const PasswordsDiffer: string := "Las contraseñas no coinciden"
  const TermsRequired: string := "Debes aceptar los términos y condiciones"

  /** Android's `Activity.RESULT_OK`. */
  const ResultOk: int := -1

  /** The checks of `validateInput`, in the order it makes them. */
  function RegisterChecks(isEmail: EmailPattern, email: string, password: string, confirmPassword: string,
                          termsChecked: bool): seq<(bool, InputField, string)>
  {
    [ (email != [], EmailInput, EmailRequired),
      (isEmail(email), EmailInput, EmailInvalid),
      (password != [], PasswordInput, PasswordRequired),
      (|password| >= 6, PasswordInput, PasswordTooShort),
      (confirmPassword == password, ConfirmInput, PasswordsDiffer),
      (termsChecked, Toast, TermsRequired) ]
  }

  /** `validateInput(email, password, confirmPassword)` with the checkbox state. */
  function ValidateInput(isEmail: EmailPattern, email: string, password: string, confirmPassword: string,
                         termsChecked: bool): (v: Verdict)
    ensures v == Accepted <==>
              email != [] && isEmail(email) && |password| >= 6 && confirmPassword == password && termsChecked
    ensures v == Rejected(EmailInput, EmailRequired) <==> email == []
    ensures v == Rejected(EmailInput, EmailInvalid) <==> email != [] && !isEmail(email)
    ensures v == Rejected(PasswordInput, PasswordRequired) <==> email != [] && isEmail(email) && password == []
    ensures v == Rejected(PasswordInput, PasswordTooShort) <==>
              email != [] && isEmail(email) && 0 < |password| < 6
    ensures v == Rejected(ConfirmInput, PasswordsDiffer) <==>
              email != [] && isEmail(email) && |password| >= 6 && confirmPassword != password
    ensures v == Rejected(Toast, TermsRequired) <==>
              email != [] && isEmail(email) && |password| >= 6 && confirmPassword == password && !termsChecked
  {
    if email == [] then Rejected(EmailInput, EmailRequired)
    else if !isEmail(email) then Rejected(EmailInput, EmailInvalid)
    else if password == [] then Rejected(PasswordInput, PasswordRequired)
    else if |password| < 6 then Rejected(PasswordInput, PasswordTooShort)
    else if confirmPassword != password then Rejected(ConfirmInput, PasswordsDiffer)
    else if !termsChecked then Rejected(Toast, TermsRequired)
    else Accepted
  }

  /** The `if` chain of `validateInput` is the first failure of its list of checks. */
  lemma {:induction false} ValidateInputIsFirstFailure(isEmail: EmailPattern, email: string, password: string,
                                                       confirmPassword: string, termsChecked: bool)
    ensures ValidateInput(isEmail, email, password, confirmPassword, termsChecked)
            == FirstFailure(RegisterChecks(isEmail, email, password, confirmPassword, termsChecked))
  {
    var cs := RegisterChecks(isEmail, email, password, confirmPassword, termsChecked);
    var c0, c1, c2, c3, c4, c5 := cs[0], cs[1], cs[2], cs[3], cs[4], cs[5];
    FirstFailure3(c3, c4, c5, []);
    FirstFailure3(c0, c1, c2, [c3, c4, c5]);
    assert [c3, c4, c5] + [] == [c3, c4, c5];
    assert [c0, c1, c2] + [c3, c4, c5] == cs;
    assert FirstFailure([]) == Accepted;
  }

  /** Six characters are enough; five are not. */
  lemma MinimumLength(isEmail: EmailPattern, email: string, password: string)
    requires email != [] && isEmail(email)
    ensures |password| == 6 ==> ValidateInput(isEmail, email, password, password, true) == Accepted
    ensures |password| == 5 ==> ValidateInput(isEmail, email, password, password, true)
                                == Rejected(PasswordInput, PasswordTooShort)
  {
  }

  /** `handleRegistrationError(exception)`: the weak-password test comes before the invalid-credentials one. */
  function RegistrationErrorMessage(e: Option<AuthException>): (m: string)
    ensures e.Some? && e.value.kind == WeakPassword ==> m == "La contraseña es muy débil"
    ensures e.Some? && e.value.kind == InvalidCredentials ==> m == "El correo electrónico no es válido"
    ensures e.Some? && e.value.kind == UserCollision ==> m == "Ya existe una cuenta con este correo electrónico"
    ensures e.None? || e.value.kind == InvalidUser || e.value.kind == OtherFailure ==>
              m == "Error al crear la cuenta: " + MessageText(e)
  {
    if e.Some? && e.value.kind == WeakPassword then "La contraseña es muy débil"
    else if IsInvalidCredentials(e) then "El correo electrónico no es válido"
    else if e.Some? && e.value.kind == UserCollision then "Ya existe una cuenta con este correo electrónico"
    else "Error al crear la cuenta: " + MessageText(e)
  }

  /** The answer of `createUserWithEmailAndPassword`: success with the current user's uid (if any), or a failure. */
  datatype SignUpResponse = SignedUp(uid: Option<string>) | SignUpFailed(error: Option<AuthException>)

  /** The user document `createUserInFirestore` writes: the email and an empty word list. */
  datatype UserDocument = UserDocument(uid: string, email: string, palabras: seq<string>)

  /** Where `registerUser` ends. */
  datatype RegisterOutcome =
    | Invalid(verdict: Verdict)
    | CreateProfile(doc: UserDocument)
    | UserMissing(message: string)
    | SignUpError(message: string)

  /**
   * `registerUser()`: the email is trimmed, the passwords are taken as typed; no account is
   * requested unless every check passes.
   */
  function RegisterUser(cs: CharServices, isEmail: EmailPattern, emailText: string, password: string,
                        confirmPassword: string, termsChecked: bool, response: SignUpResponse): (r: RegisterOutcome)
    ensures var v := ValidateInput(isEmail, Trim(cs, emailText), password, confirmPassword, termsChecked);
            (r.Invalid? <==> v.Rejected?) && (r.Invalid? ==> r.verdict == v)
    ensures r.CreateProfile? <==> ValidateInput(isEmail, Trim(cs, emailText), password, confirmPassword, termsChecked) == Accepted
                                  && response.SignedUp? && response.uid.Some?
    ensures r.CreateProfile? ==> r.doc == UserDocument(response.uid.value, Trim(cs, emailText), [])
    ensures r.CreateProfile? ==> |password| >= 6 && password == confirmPassword && termsChecked
    ensures r.UserMissing? <==> ValidateInput(isEmail, Trim(cs, emailText), password, confirmPassword, termsChecked) == Accepted
                                && response.SignedUp? && response.uid.None?
    ensures r.UserMissing? ==> r.message == "Error: Usuario no encontrado"
    ensures (ValidateInput(isEmail, Trim(cs, emailText), password, confirmPassword, termsChecked) == Accepted
             && response.SignUpFailed?) ==> r == SignUpError(RegistrationErrorMessage(response.error))
    ensures r.SignUpError? ==> response.SignUpFailed? && r.message == RegistrationErrorMessage(response.error)
  {
    var email := Trim(cs, emailText);
    var v := ValidateInput(isEmail, email, password, confirmPassword, termsChecked);
    if v.Rejected? then Invalid(v)
    else match response
      case SignedUp(uid) =>
        if uid.Some? then CreateProfile(UserDocument(uid.value, email, []))
        else UserMissing("Error: Usuario no encontrado")
      case SignUpFailed(error) => SignUpError(RegistrationErrorMessage(error))
  }

  /**
   * The terms screen's result: on RESULT_OK the checkbox takes the returned `checkTerms`
   * (false when the intent or the extra is missing); any other result leaves it as it was.
   */
  function TermsCheckboxAfter(current: bool, resultCode: int, checkTerms: Option<bool>): (checked: bool)
    ensures resultCode != ResultOk ==> checked == current
    ensures resultCode == ResultOk && checkTerms.None? ==> !checked
    ensures resultCode == ResultOk && checkTerms.Some? ==> checked == checkTerms.value
  {
    if resultCode == ResultOk then checkTerms.GetOr(false) else current
  }
}
