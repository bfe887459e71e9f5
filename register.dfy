/** The sign-up form (src/components/Register.tsx). */
module Register {
  import opened Outcomes
  import opened Forms

  datatype RegisterFormData = RegisterFormData(username: string, email: string, password: string, confirmPassword: string)

  const UsernameTooShort: string := "Username must be at least 3 characters long"
  const InvalidEmail: string := "Invalid email address"
  const PasswordTooShort: string := "Password must be at least 6 characters long"
  const ConfirmMissing: string := "Please confirm your password"
  const PasswordsDoNotMatch: string := "Passwords do not match"
  const RegistrationFailed: string := "Registration failed. Please try again."

  /** `registerSchema` with its refinement; `isEmail` stands for zod's email check. */
  predicate RegisterSchema(data: RegisterFormData, isEmail: string -> bool)
  {
    && |data.username| >= 3
    && isEmail(data.email)
    && |data.password| >= 6
    && |data.confirmPassword| >= 1
    && data.password == data.confirmPassword
  }

  /** The issues `registerSchema` reports: one per failing field, and the mismatch
      of the refinement, which is attached to `confirmPassword`. */
  function RegisterIssues(data: RegisterFormData, isEmail: string -> bool): (issues: seq<Issue>)
    ensures issues == [] <==> RegisterSchema(data, isEmail)
    ensures Issue("confirmPassword", PasswordsDoNotMatch) in issues <==> data.password != data.confirmPassword
    ensures Issue("username", UsernameTooShort) in issues <==> |data.username| < 3
    ensures Issue("email", InvalidEmail) in issues <==> !isEmail(data.email)
    ensures Issue("password", PasswordTooShort) in issues <==> |data.password| < 6
  {
    Check(|data.username| >= 3, Issue("username", UsernameTooShort))
    + Check(isEmail(data.email), Issue("email", InvalidEmail))
    + Check(|data.password| >= 6, Issue("password", PasswordTooShort))
    + Check(|data.confirmPassword| >= 1, Issue("confirmPassword", ConfirmMissing))
    + Check(data.password == data.confirmPassword, Issue("confirmPassword", PasswordsDoNotMatch))
  }

  datatype Effect =
    | SetServerError(message: string)
    | CallSignUp(email: string, password: string, username: string)
    | Push(path: string)

  /** The value `serverError` holds once `onSubmit` has finished. */
  function ServerErrorAfter(result: ActionResult): (message: string)
    ensures message == "" <==> result.Succeeded?
    ensures result.Failed? && result.error != "" ==> message == result.error
    ensures result.Failed? && result.error == "" ==> message == RegistrationFailed
  {
    if result.Succeeded? then "" else OrElse(result.error, RegistrationFailed)
  }

  class RegisterClientPage {
    var serverError: string
    var effects: seq<Effect>

    constructor ()
      ensures serverError == "" && effects == []
    {
      serverError, effects := "", [];
    }

    /** `onSubmit(data)`, where `result` is what `signUp` returned; note the
        argument order `(email, password, username)`. */
    method OnSubmit(data: RegisterFormData, result: ActionResult)
      modifies this
      ensures serverError == ServerErrorAfter(result)
      ensures effects == old(effects) + [SetServerError(""), CallSignUp(data.email, data.password, data.username)]
        + (if result.Succeeded? then [Push("/account")] else [SetServerError(ServerErrorAfter(result))])
    {
      serverError := "";
      effects := effects + [SetServerError("")];
      effects := effects + [CallSignUp(data.email, data.password, data.username)];
      if result.Succeeded? {
        effects := effects + [Push("/account")];
      } else {
        serverError := OrElse(result.error, RegistrationFailed);
        effects := effects + [SetServerError(serverError)];
      }
    }
  }
}
