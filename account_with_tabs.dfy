/** The signed-in account page with its three tabs (src/components/AccountWithTabs.tsx). */
module AccountWithTabs {
  import opened Outcomes
  import opened Forms

  datatype ChangeEmailFormData = ChangeEmailFormData(newEmail: string, password: string)
  datatype ChangePasswordFormData = ChangePasswordFormData(currentPassword: string, newPassword: string, confirmPassword: string)

  const InvalidEmail: string := "Invalid email address."
  const PasswordRequired: string := "Password is required."
  const CurrentPasswordRequired: string := "Current password is required."
  const NewPasswordTooShort: string := "New password must be at least 8 characters long."
  const PasswordsDoNotMatch: string := "Passwords do not match."
  const EmailUpdated: string := "Your email has been successfully updated."
  const PasswordUpdated: string := "Your password has been successfully updated."

  /** `changeEmailSchema`: note the password must have at least 8 characters. */
  predicate ChangeEmailSchema(data: ChangeEmailFormData, isEmail: string -> bool)
  {
    isEmail(data.newEmail) && |data.password| >= 8
  }

  function ChangeEmailIssues(data: ChangeEmailFormData, isEmail: string -> bool): (issues: seq<Issue>)
    ensures issues == [] <==> ChangeEmailSchema(data, isEmail)
    ensures Issue("newEmail", InvalidEmail) in issues <==> !isEmail(data.newEmail)
    ensures Issue("password", PasswordRequired) in issues <==> |data.password| < 8
  {
    Check(isEmail(data.newEmail), Issue("newEmail", InvalidEmail))
    + Check(|data.password| >= 8, Issue("password", PasswordRequired))
  }

  /** `changePasswordSchema` with its refinement. */
  predicate ChangePasswordSchema(data: ChangePasswordFormData)
  {
    |data.currentPassword| >= 8 && |data.newPassword| >= 8 && data.newPassword == data.confirmPassword
  }

  function ChangePasswordIssues(data: ChangePasswordFormData): (issues: seq<Issue>)
    ensures issues == [] <==> ChangePasswordSchema(data)
    ensures Issue("currentPassword", CurrentPasswordRequired) in issues <==> |data.currentPassword| < 8
    ensures Issue("newPassword", NewPasswordTooShort) in issues <==> |data.newPassword| < 8
    ensures Issue("confirmPassword", PasswordsDoNotMatch) in issues <==> data.newPassword != data.confirmPassword
  {
    Check(|data.currentPassword| >= 8, Issue("currentPassword", CurrentPasswordRequired))
    + Check(|data.newPassword| >= 8, Issue("newPassword", NewPasswordTooShort))
    + Check(data.newPassword == data.confirmPassword, Issue("confirmPassword", PasswordsDoNotMatch))
  }

  /** The error and success messages of one of the two forms. */
  datatype Messages = Messages(error: string, success: string)

  /** The messages once a submit has finished: exactly one of them is non-empty,
      the success text on success, the action's error or the fallback otherwise. */
  function MessagesAfter(result: ActionResult, successText: string): (m: Messages)
    requires successText != ""
    ensures (m.error != "") != (m.success != "")
    ensures m.success != "" <==> result.Succeeded?
    ensures result.Succeeded? ==> m.success == successText
    ensures result.Failed? ==> m.error == OrElse(result.error, GenericError)
  {
    if result.Succeeded? then Messages("", successText) else Messages(OrElse(result.error, GenericError), "")
  }

  /** The contents `renderContent` picks for a tab. */
  datatype Panel = AccountDetails | ChangeEmailForm | ChangePasswordForm

  const KnownTabs: set<string> := {"account", "change-email", "change-password"}

  /** `renderContent()`: one panel per known tab, nothing (`null`) for any other value. */
  function RenderContent(activeTab: string): (panel: Option<Panel>)
    ensures panel.Some? <==> activeTab in KnownTabs
    ensures panel == Some(AccountDetails) <==> activeTab == "account"
    ensures panel == Some(ChangeEmailForm) <==> activeTab == "change-email"
    ensures panel == Some(ChangePasswordForm) <==> activeTab == "change-password"
  {
    match activeTab
    case "account" => Some(AccountDetails)
    case "change-email" => Some(ChangeEmailForm)
    case "change-password" => Some(ChangePasswordForm)
    case _ => None
  }

  /** The three tab buttons and the value each passes to `setActiveTab`. */
  datatype TabButton = AccountDetailsButton | ChangeEmailButton | ChangePasswordButton

  /** The button that opens each panel: "Account Details", "Change Email" and
      "Change Password" select the tab whose `renderContent` draws that panel. */
  function TabValue(b: TabButton): (tab: string)
    ensures RenderContent(tab) == Some(match b
                                       case AccountDetailsButton => AccountDetails
                                       case ChangeEmailButton => ChangeEmailForm
                                       case ChangePasswordButton => ChangePasswordForm)
  {
    match b
    case AccountDetailsButton => "account"
    case ChangeEmailButton => "change-email"
    case ChangePasswordButton => "change-password"
  }

  datatype Effect =
    | SetActiveTab(tab: string)
    | SetEmailServerError(message: string)
    | SetEmailSuccessMessage(message: string)
    | CallChangeEmail(newEmail: string, password: string)
    | ResetEmailForm
    | InvalidateQueries(queryKey: string)
    | SetPasswordServerError(message: string)
    | SetPasswordSuccessMessage(message: string)
    | CallChangePassword(currentPassword: string, newPassword: string)
    | ResetPasswordForm

  class AccountTabsClientPage {
    var activeTab: string
    var emailServerError: string
    var emailSuccessMessage: string
    var passwordServerError: string
    var passwordSuccessMessage: string
    var effects: seq<Effect>

    constructor ()
      ensures activeTab == "account"
      ensures emailServerError == "" && emailSuccessMessage == ""
      ensures passwordServerError == "" && passwordSuccessMessage == ""
      ensures effects == []
    {
      activeTab := "account";
      emailServerError, emailSuccessMessage := "", "";
      passwordServerError, passwordSuccessMessage := "", "";
      effects := [];
    }

    /** A tab button's `onClick`: the tab is always one that renders a panel. */
    method ClickTab(b: TabButton)
      modifies this
      ensures activeTab == TabValue(b)
      ensures activeTab in KnownTabs
      ensures emailServerError == old(emailServerError) && emailSuccessMessage == old(emailSuccessMessage)
      ensures passwordServerError == old(passwordServerError) && passwordSuccessMessage == old(passwordSuccessMessage)
      ensures effects == old(effects) + [SetActiveTab(TabValue(b))]
    {
      activeTab := TabValue(b);
      effects := effects + [SetActiveTab(activeTab)];
    }

    /** `onEmailSubmit(data)`, where `result` is what `changeEmail(newEmail, password)`
        returned: both messages are cleared first; a success also resets the form and
        invalidates the "currentUser" query. The password form is untouched. */
    method OnEmailSubmit(data: ChangeEmailFormData, result: ActionResult)
      modifies this
      ensures Messages(emailServerError, emailSuccessMessage) == MessagesAfter(result, EmailUpdated)
      ensures activeTab == old(activeTab)
      ensures passwordServerError == old(passwordServerError) && passwordSuccessMessage == old(passwordSuccessMessage)
      ensures effects == old(effects)
        + [SetEmailServerError(""), SetEmailSuccessMessage(""), CallChangeEmail(data.newEmail, data.password)]
        + (if result.Succeeded? then [SetEmailSuccessMessage(EmailUpdated), ResetEmailForm, InvalidateQueries("currentUser")]
           else [SetEmailServerError(MessagesAfter(result, EmailUpdated).error)])
    {
      emailServerError, emailSuccessMessage := "", "";
      effects := effects + [SetEmailServerError(""), SetEmailSuccessMessage("")];
      effects := effects + [CallChangeEmail(data.newEmail, data.password)];
      if result.Succeeded? {
        emailSuccessMessage := EmailUpdated;
        effects := effects + [SetEmailSuccessMessage(EmailUpdated), ResetEmailForm, InvalidateQueries("currentUser")];
      } else {
        emailServerError := OrElse(result.error, GenericError);
        effects := effects + [SetEmailServerError(emailServerError)];
      }
    }

    /** `onPasswordSubmit(data)`, where `result` is what
        `changePassword(currentPassword, newPassword)` returned: as for the email
        form, except that no query is invalidated. */
    method OnPasswordSubmit(data: ChangePasswordFormData, result: ActionResult)
      modifies this
      ensures Messages(passwordServerError, passwordSuccessMessage) == MessagesAfter(result, PasswordUpdated)
      ensures activeTab == old(activeTab)
      ensures emailServerError == old(emailServerError) && emailSuccessMessage == old(emailSuccessMessage)
      ensures effects == old(effects)
        + [SetPasswordServerError(""), SetPasswordSuccessMessage(""), CallChangePassword(data.currentPassword, data.newPassword)]
        + (if result.Succeeded? then [SetPasswordSuccessMessage(PasswordUpdated), ResetPasswordForm]
           else [SetPasswordServerError(MessagesAfter(result, PasswordUpdated).error)])
    {
      passwordServerError, passwordSuccessMessage := "", "";
      effects := effects + [SetPasswordServerError(""), SetPasswordSuccessMessage("")];
      effects := effects + [CallChangePassword(data.currentPassword, data.newPassword)];
      if result.Succeeded? {
        passwordSuccessMessage := PasswordUpdated;
        effects := effects + [SetPasswordSuccessMessage(PasswordUpdated), ResetPasswordForm];
      } else {
        passwordServerError := OrElse(result.error, GenericError);
        effects := effects + [SetPasswordServerError(passwordServerError)];
      }
    }
  }
}
