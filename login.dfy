/** The sign-in form (src/components/Login.tsx). */
module Login {
  import opened Outcomes
  import opened Forms

  datatype LoginFormData = LoginFormData(email: string, password: string)

  const InvalidEmail: string := "Invalid email address"
  const PasswordTooShort: string := "Password must be at least 6 characters long"
  const LoginFailed: string := "Login failed. Please try again."

  /** `loginSchema`: `isEmail` stands for zod's email format check. */
  predicate LoginSchema(data: LoginFormData, isEmail: string -> bool)
  {
    isEmail(data.email) && |data.password| >= 6
  }

  /** The issues `loginSchema` reports, one per failing field. */
  function LoginIssues(data: LoginFormData, isEmail: string -> bool): (issues: seq<Issue>)
    ensures issues == [] <==> LoginSchema(data, isEmail)
    ensures Issue("email", InvalidEmail) in issues <==> !isEmail(data.email)
    ensures Issue("password", PasswordTooShort) in issues <==> |data.password| < 6
  {
    Check(isEmail(data.email), Issue("email", InvalidEmail))
    + Check(|data.password| >= 6, Issue("password", PasswordTooShort))
  }

  /** The state setters and calls `onSubmit` performs, in order. */
  datatype Effect = SetServerError(message: string) | CallSignIn(email: string, password: string) | Push(path: string)

  /** The value `serverError` holds once `onSubmit` has finished: empty after a
      success, otherwise the action's error or the fallback, never empty. */
  function ServerErrorAfter(result: ActionResult): (message: string)
    ensures message == "" <==> result.Succeeded?
    ensures result.Failed? && result.error != "" ==> message == result.error
    ensures result.Failed? && result.error == "" ==> message == LoginFailed
  {
    if result.Succeeded? then "" else OrElse(result.error, LoginFailed)
  }

  class LoginClientPage {
    var serverError: string
    /** Everything the component has done, oldest first. */
    var effects: seq<Effect>

    constructor ()
      ensures serverError == "" && effects == []
    {
      serverError, effects := "", [];
    }

    /** `onSubmit(data)`, where `result` is what `signIn(data.email, data.password)`
        returned: the error is cleared before the call, a success navigates to
        "/account" and a failure shows the error. */
    method OnSubmit(data: LoginFormData, result: ActionResult)
      modifies this
      ensures serverError == ServerErrorAfter(result)
      ensures effects == old(effects) + [SetServerError(""), CallSignIn(data.email, data.password)]
        + (if result.Succeeded? then [Push("/account")] else [SetServerError(ServerErrorAfter(result))])
    {
      serverError := "";
      effects := effects + [SetServerError("")];
      effects := effects + [CallSignIn(data.email, data.password)];
      if result.Succeeded? {
        effects := effects + [Push("/account")];
      } else {
        serverError := OrElse(result.error, LoginFailed);
        effects := effects + [SetServerError(serverError)];
      }
    }
  }
}
