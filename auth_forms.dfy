/**
 * What the sign-up, sign-in and profile screens share: the outcome of a form check, and the
 * failures FirebaseAuth reports, with the class hierarchy the error `when`s test against.
 */
module AuthForms {
  import opened Wrappers

  /** `Patterns.EMAIL_ADDRESS.matcher(s).matches()`; its regular expression is not modelled. */
  type EmailPattern = string -> bool

  /** Where a failed check reports itself: an input's error label, or a toast. */
  datatype InputField = EmailInput | PasswordInput | ConfirmInput | Toast

  /** The result of an early-return chain of checks: the first failure, or acceptance. */
  datatype Verdict = Accepted | Rejected(field: InputField, message: string)

  /**
   * The FirebaseAuth exception classes the screens distinguish.  A weak-password failure is
   * a subclass of the invalid-credentials one, so `is FirebaseAuthInvalidCredentialsException`
   * also holds of it.
   */
  datatype AuthFailureKind = WeakPassword | InvalidCredentials | UserCollision | InvalidUser | OtherFailure

  datatype AuthException = AuthException(kind: AuthFailureKind, message: Option<string>)

  /** `exception is FirebaseAuthInvalidCredentialsException`. */
  predicate IsInvalidCredentials(e: Option<AuthException>) {
    e.Some? && (e.value.kind == InvalidCredentials || e.value.kind == WeakPassword)
  }

  /** The string template `"${exception?.message}"`: "null" when there is no exception or no message. */
  function MessageText(e: Option<AuthException>): (t: string)
    ensures e.Some? && e.value.message.Some? ==> t == e.value.message.value
    ensures e.None? || e.value.message.None? ==> t == "null"
  {
    if e.Some? && e.value.message.Some? then e.value.message.value else "null"
  }

  /** The first failing check of `checks`, in order; the reference reading of a check chain. */
  function FirstFailure(checks: seq<(bool, InputField, string)>): (v: Verdict)
    ensures v == Accepted <==> forall i :: 0 <= i < |checks| ==> checks[i].0
    ensures v.Rejected? ==> exists i :: 0 <= i < |checks| && !checks[i].0
                                         && (v.field, v.message) == (checks[i].1, checks[i].2)
                                         && forall j :: 0 <= j < i ==> checks[j].0
  {
    if checks == [] then Accepted
    else if !checks[0].0 then Rejected(checks[0].1, checks[0].2)
    else
      var rest := FirstFailure(checks[1..]);
      assert forall i :: 1 <= i < |checks| ==> checks[i] == checks[1..][i - 1];
      if rest.Rejected? then
        var i :| 0 <= i < |checks[1..]| && !checks[1..][i].0
                 && (rest.field, rest.message) == (checks[1..][i].1, checks[1..][i].2)
                 && forall j :: 0 <= j < i ==> checks[1..][j].0;
        assert checks[i + 1] == checks[1..][i];
        rest
      else
        rest
  }

  /** One step of the chain: the head check either fails or hands over to the rest. */
  lemma FirstFailureCons(c: (bool, InputField, string), rest: seq<(bool, InputField, string)>)
    ensures FirstFailure([c] + rest) == if c.0 then FirstFailure(rest) else Rejected(c.1, c.2)
  {
    assert ([c] + rest)[0] == c;
    assert ([c] + rest)[1..] == rest;
  }

  /** Three checks in front of a chain: the first of them that fails, or else the rest of the chain. */
  lemma FirstFailure3(a: (bool, InputField, string), b: (bool, InputField, string), c: (bool, InputField, string),
                      rest: seq<(bool, InputField, string)>)
    ensures FirstFailure([a, b, c] + rest)
            == if !a.0 then Rejected(a.1, a.2) else if !b.0 then Rejected(b.1, b.2)
               else if !c.0 then Rejected(c.1, c.2) else FirstFailure(rest)
  {
    FirstFailureCons(c, rest);
    FirstFailureCons(b, [c] + rest);
    FirstFailureCons(a, [b] + ([c] + rest));
    assert [a] + ([b] + ([c] + rest)) == [a, b, c] + rest;
  }
}
