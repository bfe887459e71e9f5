/** The recovery-request form (src/components/ForgotPassword.tsx). */
module ForgotPassword {
  import opened Outcomes
  import opened Forms

  datatype ForgotPasswordFormData = ForgotPasswordFormData(email: string)

  const InvalidEmail: string := "Invalid email address"
  const ResetLinkSent: string := "If an account with that email exists, a password reset link has been sent."

  /** `passwordResetSchema` of this form: only the email format. */
  predicate ForgotPasswordSchema(data: ForgotPasswordFormData, isEmail: string -> bool)
  {
    isEmail(data.email)
  }

  function ForgotPasswordIssues(data: ForgotPasswordFormData, isEmail: string -> bool): (issues: seq<Issue>)
    ensures issues == [] <==> ForgotPasswordSchema(data, isEmail)
    ensures issues != [] ==> issues == [Issue("email", InvalidEmail)]
  {
    Check(isEmail(data.email), Issue("email", InvalidEmail))
  }

  /** The status banner: its text and whether it is shown as a success. */
  datatype Status = Status(message: string, isSuccess: bool)

  /** The banner once `onSubmit` has finished: a success shows the fixed
      "if an account exists" text, the same whatever the email; a failure shows the
      action's error or the generic fallback. The banner is never empty. */
  function StatusAfter(result: ActionResult): (s: Status)
    ensures s.isSuccess <==> result.Succeeded?
    ensures s.message != ""
    ensures result.Succeeded? ==> s.message == ResetLinkSent
    ensures result.Failed? ==> s.message == OrElse(result.error, GenericError)
  {
    if result.Succeeded? then Status(ResetLinkSent, true) else Status(OrElse(result.error, GenericError), false)
  }

  datatype Effect = SetStatusMessage(message: string) | SetIsSuccess(flag: bool) | CallForgotPassword(email: string)

  class ForgotPasswordClientPage {
    var statusMessage: string
    var isSuccess: bool
    var effects: seq<Effect>

    constructor ()
      ensures statusMessage == "" && !isSuccess && effects == []
    {
      statusMessage, isSuccess, effects := "", false, [];
    }

    /** `onSubmit(data)`, where `result` is what `forgotPassword(data.email)` returned:
        the banner is cleared and marked unsuccessful before the call. */
    method OnSubmit(data: ForgotPasswordFormData, result: ActionResult)
      modifies this
      ensures Status(statusMessage, isSuccess) == StatusAfter(result)
      ensures effects == old(effects) + [SetStatusMessage(""), SetIsSuccess(false), CallForgotPassword(data.email)]
        + [SetIsSuccess(StatusAfter(result).isSuccess), SetStatusMessage(StatusAfter(result).message)]
    {
      statusMessage, isSuccess := "", false;
      effects := effects + [SetStatusMessage(""), SetIsSuccess(false)];
      effects := effects + [CallForgotPassword(data.email)];
      if result.Succeeded? {
        isSuccess := true;
        statusMessage := ResetLinkSent;
      } else {
        isSuccess := false;
        statusMessage := OrElse(result.error, GenericError);
      }
      effects := effects + [SetIsSuccess(isSuccess), SetStatusMessage(statusMessage)];
    }
  }
}
