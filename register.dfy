/** The registration form's submit handler (src/pages/Register.tsx): an
    ordered chain of checks, each with its own error, where the first failing
    check decides the outcome. Registration itself is a placeholder: success
    shows a toast and navigates to the login route. */
module Register {

  datatype RegisterForm = RegisterForm(fullName: string, email: string, password: string, verifyPassword: string)

  datatype Outcome =
    | Rejected(error: string)
    | Registered(message: string, route: string)

  const FillAllFields := "Please fill in all fields"
  const PasswordsDiffer := "Passwords do not match"
  const PasswordTooShort := "Password must be at least 6 characters"
  const Success := "Registration successful! Please login."
  const LoginRoute := "/"
  const MinPasswordLength := 6

  predicate AllFilled(f: RegisterForm)
  {
    f.fullName != "" && f.email != "" && f.password != "" && f.verifyPassword != ""
  }

  /** `handleSubmit`: empty fields first, then the password match, then the
      password length. Success happens exactly when every check passes. */
  function Submit(f: RegisterForm): (r: Outcome)
    ensures !AllFilled(f) ==> r == Rejected(FillAllFields)
    ensures AllFilled(f) && f.password != f.verifyPassword ==> r == Rejected(PasswordsDiffer)
    ensures AllFilled(f) && f.password == f.verifyPassword && |f.password| < MinPasswordLength
            ==> r == Rejected(PasswordTooShort)
    ensures r.Registered? <==> AllFilled(f) && f.password == f.verifyPassword && |f.password| >= MinPasswordLength
    ensures r.Registered? ==> r == Registered(Success, LoginRoute)
  {
    if !AllFilled(f) then Rejected(FillAllFields)
    else if f.password != f.verifyPassword then Rejected(PasswordsDiffer)
    else if |f.password| < MinPasswordLength then Rejected(PasswordTooShort)
    else Registered(Success, LoginRoute)
  }

  /** The length bound is inclusive: a six-character password is accepted. */
  lemma SixCharactersAreEnough(name: string, email: string)
    requires name != "" && email != ""
    ensures Submit(RegisterForm(name, email, "secret", "secret")) == Registered(Success, LoginRoute)
  {
  }

  /** Checks run in order: short passwords that do not match report the
      mismatch, not the length. */
  lemma MismatchReportedBeforeLength(f: RegisterForm)
    requires AllFilled(f) && f.password != f.verifyPassword && |f.password| < MinPasswordLength
    ensures Submit(f) == Rejected(PasswordsDiffer)
  {
  }

  /** Every rejection carries exactly one of the three fixed errors. */
  lemma RejectionsUseFixedErrors(f: RegisterForm)
    ensures Submit(f).Rejected? ==> Submit(f).error in {FillAllFields, PasswordsDiffer, PasswordTooShort}
  {
  }
}
