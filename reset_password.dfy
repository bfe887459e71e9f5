/** The new-password form reached from a recovery link (src/components/ResetPassword.tsx). */
module ResetPassword {
  import opened Outcomes
  import opened Forms

  datatype ResetPasswordFormData = ResetPasswordFormData(password: string, confirmPassword: string)

  const PasswordTooShort: string := "Password must be at least 8 characters long."
  const PasswordsDoNotMatch: string := "Passwords do not match."
  const PasswordUpdated: string := "Password updated successfully. You can now sign in."

  /** `passwordResetSchema` of this form, with its refinement. */
  predicate ResetPasswordSchema(data: ResetPasswordFormData)
  {
    |data.password| >= 8 && data.password == data.confirmPassword
  }

  function ResetPasswordIssues(data: ResetPasswordFormData): (issues: seq<Issue>)
    ensures issues == [] <==> ResetPasswordSchema(data)
    ensures Issue("password", PasswordTooShort) in issues <==> |data.password| < 8
    ensures Issue("confirmPassword", PasswordsDoNotMatch) in issues <==> data.password != data.confirmPassword
  {
    Check(|data.password| >= 8, Issue("password", PasswordTooShort))
    + Check(data.password == data.confirmPassword, Issue("confirmPassword", PasswordsDoNotMatch))
  }

  datatype Status = Status(message: string, isSuccess: bool)

  /** The banner once `onSubmit` has finished: the fixed success text, or the
      action's error or the generic fallback. */
  function StatusAfter(result: ActionResult): (s: Status)
    ensures s.isSuccess <==> result.Succeeded?
    ensures s.message != ""
    ensures result.Succeeded? ==> s.message == PasswordUpdated
    ensures result.Failed? ==> s.message == OrElse(result.error, GenericError)
  {
    if result.Succeeded? then Status(PasswordUpdated, true) else Status(OrElse(result.error, GenericError), false)
  }

  datatype Effect =
    | SetStatusMessage(message: string)
    | SetIsSuccess(flag: bool)
    | CallResetPassword(password: string, secret: string, userId: string)

  class ResetPasswordClientPage {
    /** The props the page passed down from the link. */
    const secret: string
    const userId: string
    var statusMessage: string
    var isSuccess: bool
    var effects: seq<Effect>

    constructor (secret: string, userId: string)
      ensures this.secret == secret && this.userId == userId
      ensures statusMessage == "" && !isSuccess && effects == []
    {
      this.secret, this.userId := secret, userId;
      statusMessage, isSuccess, effects := "", false, [];
    }

    /** `onSubmit(data)`, where `result` is what `resetPassword` returned. The props
        go to the action unchanged; a success neither navigates nor signs in. */
    method OnSubmit(data: ResetPasswordFormData, result: ActionResult)
      modifies this
      ensures Status(statusMessage, isSuccess) == StatusAfter(result)
      ensures effects == old(effects) + [SetStatusMessage(""), SetIsSuccess(false), CallResetPassword(data.password, secret, userId)]
        + [SetIsSuccess(StatusAfter(result).isSuccess), SetStatusMessage(StatusAfter(result).message)]
    {
      statusMessage, isSuccess := "", false;
      effects := effects + [SetStatusMessage(""), SetIsSuccess(false)];
      effects := effects + [CallResetPassword(data.password, secret, userId)];
      if result.Succeeded? {
        isSuccess := true;
        statusMessage := PasswordUpdated;
      } else {
        isSuccess := false;
        statusMessage := OrElse(result.error, GenericError);
      }
      effects := effects + [SetIsSuccess(isSuccess), SetStatusMessage(statusMessage)];
    }
  }
}
