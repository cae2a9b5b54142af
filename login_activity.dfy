/**
 * LoginActivity: the sign-in form's checks, the sign-in attempt they guard, the error messages
 * for a failed sign-in, and the password-reset request.  FirebaseAuth is outside the model:
 * its answers are inputs.
 */
module LoginActivity {
  import opened Wrappers
  import opened Text
  import opened AuthForms

  const EmailRequired: string := "El correo es obligatorio"
  const EmailInvalid: string := "Ingresa un correo válido"
  const PasswordRequired: string := "La contraseña es obligatoria"
  const ResetEmailRequired: string := "Ingresa tu correo para recuperar la contraseña"

  /** `validateInput(email, password)`: no minimum length at sign-in. */
  function ValidateInput(isEmail: EmailPattern, email: string, password: string): (v: Verdict)
    ensures v == Accepted <==> email != [] && isEmail(email) && password != []
    ensures v == Rejected(EmailInput, EmailRequired) <==> email == []
    ensures v == Rejected(EmailInput, EmailInvalid) <==> email != [] && !isEmail(email)
    ensures v == Rejected(PasswordInput, PasswordRequired) <==> email != [] && isEmail(email) && password == []
  {
    if email == [] then Rejected(EmailInput, EmailRequired)
    else if !isEmail(email) then Rejected(EmailInput, EmailInvalid)
    else if password == [] then Rejected(PasswordInput, PasswordRequired)
    else Accepted
  }

  /** The `if` chain of `validateInput` is the first failure of its list of checks. */
  lemma {:induction false} ValidateInputIsFirstFailure(isEmail: EmailPattern, email: string, password: string)
    ensures ValidateInput(isEmail, email, password)
            == FirstFailure([ (email != [], EmailInput, EmailRequired),
                              (isEmail(email), EmailInput, EmailInvalid),
                              (password != [], PasswordInput, PasswordRequired) ])
  {
    var c0, c1, c2 := (email != [], EmailInput, EmailRequired), (isEmail(email), EmailInput, EmailInvalid),
                      (password != [], PasswordInput, PasswordRequired);
    FirstFailureCons(c2, []);
    FirstFailureCons(c1, [c2]);
    FirstFailureCons(c0, [c1, c2]);
    assert [c2] + [] == [c2] && [c1] + [c2] == [c1, c2] && [c0] + [c1, c2] == [c0, c1, c2];
    assert FirstFailure([]) == Accepted;
  }

  /** `handleLoginError(exception)`: a weak-password failure counts as invalid credentials here. */
  function LoginErrorMessage(e: Option<AuthException>): (m: string)
    ensures e.Some? && e.value.kind == InvalidUser ==> m == "No existe una cuenta con este correo electrónico"
    ensures IsInvalidCredentials(e) ==> m == "Correo o contraseña incorrectos"
    ensures e.None? || e.value.kind == UserCollision || e.value.kind == OtherFailure ==>
              m == "Error al iniciar sesión: " + MessageText(e)
  {
    if e.Some? && e.value.kind == InvalidUser then "No existe una cuenta con este correo electrónico"
    else if IsInvalidCredentials(e) then "Correo o contraseña incorrectos"
    else "Error al iniciar sesión: " + MessageText(e)
  }

  /** The answer of `signInWithEmailAndPassword`. */
  datatype SignInResponse = SignedIn | SignInFailed(error: Option<AuthException>)

  /** Where `loginUser` ends. */
  datatype LoginOutcome = Invalid(verdict: Verdict) | Welcome | LoginError(message: string)

  /**
   * `loginUser()`: the email is trimmed, the password is taken as typed, and sign-in is
   * requested only once the checks pass.
   */
  function LoginUser(cs: CharServices, isEmail: EmailPattern, emailText: string, password: string,
                     response: SignInResponse): (r: LoginOutcome)
    ensures var v := ValidateInput(isEmail, Trim(cs, emailText), password);
            (r.Invalid? <==> v.Rejected?) && (r.Invalid? ==> r.verdict == v)
    ensures r.Welcome? <==> ValidateInput(isEmail, Trim(cs, emailText), password) == Accepted && response.SignedIn?
    ensures r.LoginError? ==> response.SignInFailed? && r.message == LoginErrorMessage(response.error)
  {
    var v := ValidateInput(isEmail, Trim(cs, emailText), password);
    if v.Rejected? then Invalid(v)
    else match response
      case SignedIn => Welcome
      case SignInFailed(error) => LoginError(LoginErrorMessage(error))
  }

  /** The password is not trimmed: a password of spaces passes the checks as it is. */
  lemma PasswordNotTrimmed(cs: CharServices, isEmail: EmailPattern, emailText: string, password: string)
    requires Trim(cs, emailText) != [] && isEmail(Trim(cs, emailText))
    requires password != [] && IsBlank(cs, password)
    ensures LoginUser(cs, isEmail, emailText, password, SignedIn) == Welcome
  {
  }

  /** What `resetPassword()` does: reject the email, or ask FirebaseAuth to send the reset mail to it. */
  datatype ResetOutcome = ResetRejected(message: string) | SendResetEmail(email: string)

  /** `resetPassword()`: only a non-empty trimmed email that matches the pattern gets a reset mail. */
  function ResetPassword(cs: CharServices, isEmail: EmailPattern, emailText: string): (r: ResetOutcome)
    ensures r.SendResetEmail? <==> Trim(cs, emailText) != [] && isEmail(Trim(cs, emailText))
    ensures r.SendResetEmail? ==> r.email == Trim(cs, emailText)
    ensures r == ResetRejected(ResetEmailRequired) <==> IsBlank(cs, emailText)
    ensures r == ResetRejected(EmailInvalid) <==> Trim(cs, emailText) != [] && !isEmail(Trim(cs, emailText))
  {
    var email := Trim(cs, emailText);
    if email == [] then ResetRejected(ResetEmailRequired)
    else if !isEmail(email) then ResetRejected(EmailInvalid)
    else SendResetEmail(email)
  }
}
