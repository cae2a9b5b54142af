/**
 * ProfileFragment: the account fields, the password visibility toggle, and the checks and
 * steps of a password change.  The screen never holds the real password: the password field
 * only ever shows a placeholder.  FirebaseAuth's answers are inputs.
 */
module ProfileFragment {
  import opened Wrappers
  import opened AuthForms

  const Masked: string := "********"
  const HiddenNotice: string := "Oculta por seguridad"

  /** The signed-in user as the fragment reads it: an email that may be null. */
  datatype SignedInUser = SignedInUser(email: Option<string>)

  predicate IsPlaceholder(s: string) {
    s == [] || s == Masked || s == HiddenNotice
  }

  class ProfileScreen {
    var isPasswordVisible: bool
    var emailText: string
    var passwordText: string
    /** The password field's input type is the visible-password variation. */
    var showsPlainText: bool
    var fieldsEnabled: bool
    var redirectedToLogin: bool

    /** The password field shows a placeholder and nothing else. */
    predicate Valid()
      reads this
    {
      IsPlaceholder(passwordText)
    }

    constructor ()
      ensures Valid()
      ensures !isPasswordVisible && emailText == [] && passwordText == []
      ensures !showsPlainText && fieldsEnabled && !redirectedToLogin
    {
      isPasswordVisible := false;
      emailText := [];
      passwordText := [];
      showsPlainText := false;
      fieldsEnabled := true;
      redirectedToLogin := false;
    }

    /** `setupUserData()`: the email and the masked password, or back to sign-in; both fields read-only. */
    method SetupUserData(user: Option<SignedInUser>)
      requires Valid()
      modifies this
      ensures Valid()
      ensures user.Some? ==> emailText == user.value.email.GetOr([]) && passwordText == Masked
      ensures user.Some? ==> redirectedToLogin == old(redirectedToLogin)
      ensures user.None? ==> redirectedToLogin && emailText == old(emailText) && passwordText == old(passwordText)
      ensures !fieldsEnabled
      ensures isPasswordVisible == old(isPasswordVisible) && showsPlainText == old(showsPlainText)
    {
      if user.Some? {
        emailText := user.value.email.GetOr([]);
        passwordText := Masked;
      } else {
        redirectedToLogin := true;
      }
      fieldsEnabled := false;
    }

    /** `togglePasswordVisibility()`: the flag flips and the field switches between the two placeholders. */
    method TogglePasswordVisibility()
      requires Valid()
      modifies this
      ensures Valid()
      ensures isPasswordVisible == !old(isPasswordVisible)
      ensures showsPlainText == isPasswordVisible
      ensures passwordText == if isPasswordVisible then HiddenNotice else Masked
      ensures emailText == old(emailText) && fieldsEnabled == old(fieldsEnabled)
      ensures redirectedToLogin == old(redirectedToLogin)
    {
      if isPasswordVisible {
        showsPlainText := false;
        passwordText := Masked;
      } else {
        showsPlainText := true;
        passwordText := HiddenNotice;
      }
      isPasswordVisible := !isPasswordVisible;
    }
  }

  /** Two taps on the visibility button: the flag and the input type are back where they were. */
  method ToggleTwice(screen: ProfileScreen)
    requires screen.Valid()
    modifies screen
    ensures screen.Valid()
    ensures screen.isPasswordVisible == old(screen.isPasswordVisible)
    ensures screen.showsPlainText == screen.isPasswordVisible
    ensures screen.passwordText == if screen.isPasswordVisible then HiddenNotice else Masked
    ensures screen.emailText == old(screen.emailText)
  {
    screen.TogglePasswordVisibility();
    screen.TogglePasswordVisibility();
  }

  /** The checks `changePassword` makes before it contacts FirebaseAuth, in order. */
  function ChangePasswordChecks(currentPassword: string, newPassword: string, confirmNewPassword: string,
                                email: Option<string>): (v: Verdict)
    ensures v == Accepted <==>
              currentPassword != [] && |newPassword| >= 6 && newPassword == confirmNewPassword && email.Some?
    ensures v.Rejected? ==> v.field == Toast
    ensures v == Rejected(Toast, "Ingresa tu contraseña actual") <==> currentPassword == []
    ensures v == Rejected(Toast, "Ingresa la nueva contraseña") <==> currentPassword != [] && newPassword == []
    ensures v == Rejected(Toast, "La nueva contraseña debe tener al menos 6 caracteres") <==>
              currentPassword != [] && 0 < |newPassword| < 6
    ensures v == Rejected(Toast, "Las contraseñas no coinciden") <==>
              currentPassword != [] && |newPassword| >= 6 && newPassword != confirmNewPassword
    ensures v == Rejected(Toast, "Error: Usuario no autenticado") <==>
              currentPassword != [] && |newPassword| >= 6 && newPassword == confirmNewPassword && email.None?
  {
    if currentPassword == [] then Rejected(Toast, "Ingresa tu contraseña actual")
    else if newPassword == [] then Rejected(Toast, "Ingresa la nueva contraseña")
    else if |newPassword| < 6 then Rejected(Toast, "La nueva contraseña debe tener al menos 6 caracteres")
    else if newPassword != confirmNewPassword then Rejected(Toast, "Las contraseñas no coinciden")
    else if email.None? then Rejected(Toast, "Error: Usuario no autenticado")
    else Accepted
  }

  /** What one password change did: the message shown and the FirebaseAuth calls it made. */
  datatype PasswordChange = PasswordChange(
    message: string,
    reauthenticatedWith: Option<(string, string)>,
    updatedTo: Option<string>)

  /**
   * `changePassword(...)`: after the checks, reauthentication with the signed-in email and
   * the current password, and only when that succeeds, the update to the new password.
   */
  function ChangePassword(currentPassword: string, newPassword: string, confirmNewPassword: string,
                          user: Option<SignedInUser>, reauthenticated: bool, updated: bool): (r: PasswordChange)
    ensures var email := if user.Some? then user.value.email else None;
            var v := ChangePasswordChecks(currentPassword, newPassword, confirmNewPassword, email);
            (v.Rejected? ==> r == PasswordChange(v.message, None, None))
            && (r.reauthenticatedWith.Some? <==> v == Accepted)
            && (r.reauthenticatedWith.Some? ==> r.reauthenticatedWith.value == (email.value, currentPassword))
    ensures r.updatedTo.Some? <==> r.reauthenticatedWith.Some? && reauthenticated
    ensures r.updatedTo.Some? ==> r.updatedTo.value == newPassword && |newPassword| >= 6
                                  && newPassword == confirmNewPassword
    ensures r.reauthenticatedWith.Some? && !reauthenticated ==> r.message == "Contraseña actual incorrecta"
    ensures r.updatedTo.Some? ==>
              r.message == if updated then "Contraseña actualizada exitosamente" else "Error al actualizar la contraseña"
  {
    var email := if user.Some? then user.value.email else None;
    var v := ChangePasswordChecks(currentPassword, newPassword, confirmNewPassword, email);
    if v.Rejected? then PasswordChange(v.message, None, None)
    else if !reauthenticated then
      PasswordChange("Contraseña actual incorrecta", Some((email.value, currentPassword)), None)
    else
      PasswordChange(if updated then "Contraseña actualizada exitosamente" else "Error al actualizar la contraseña",
                     Some((email.value, currentPassword)), Some(newPassword))
  }
}
