/** The authoritative page gates: server components that decide, from the result
    of `getCurrentUser` (and the reset link's query parameters), whether to throw
    `redirect(path)` or render a view. The redirect is a returned value here. */
module Pages {
  import opened Outcomes
  import opened Appwrite

  /** The views the gated pages can produce. */
  datatype View =
    | AccountClientPage(initialUser: User)
    | Landing(links: seq<string>)
    | LoginClientPage
    | RegisterClientPage
    | ForgotPasswordClientPage
    | InvalidLink(href: string)
    | ResetPasswordClientPage(secret: string, userId: string)

  datatype PageResult = Redirect(path: string) | Render(view: View)

  const LandingLinks: seq<string> := ["/auth/login", "/auth/register"]

  /** src/app/account/page.tsx: the protected page. Without a user it redirects to
      "/login"; with one it renders the client page for exactly that user. */
  function AccountPage(user: Option<User>): (p: PageResult)
    ensures p.Redirect? <==> user.None?
    ensures p.Redirect? ==> p.path == "/login"
    ensures p.Render? ==> user.Some? && p.view == AccountClientPage(user.value)
  {
    if user.None? then Redirect("/login") else Render(AccountClientPage(user.value))
  }

  /** src/app/page.tsx: a signed-in visitor goes to "/account"; anyone else gets the
      landing view with its sign-in and sign-up links. */
  function RootPage(user: Option<User>): (p: PageResult)
    ensures p.Redirect? <==> user.Some?
    ensures p.Redirect? ==> p.path == "/account"
    ensures p.Render? ==> p.view == Landing(LandingLinks) && "/auth/login" in p.view.links && "/auth/register" in p.view.links
  {
    if user.Some? then Redirect("/account") else Render(Landing(LandingLinks))
  }

  /** The shape shared by the login, register and forgot-password pages: a
      signed-in visitor is sent to "/account", anyone else gets `form`. */
  function GuestOnly(user: Option<User>, form: View): (p: PageResult)
    ensures p.Redirect? <==> user.Some?
    ensures p.Redirect? ==> p.path == "/account"
    ensures p.Render? ==> p.view == form
  {
    if user.Some? then Redirect("/account") else Render(form)
  }

  /** src/app/auth/login/page.tsx */
  function LoginPage(user: Option<User>): (p: PageResult)
    ensures p.Redirect? <==> user.Some?
    ensures p.Redirect? ==> p.path == "/account"
    ensures p.Render? ==> p.view == LoginClientPage
  {
    GuestOnly(user, LoginClientPage)
  }

  /** src/app/auth/register/page.tsx */
  function RegisterPage(user: Option<User>): (p: PageResult)
    ensures p.Redirect? <==> user.Some?
    ensures p.Redirect? ==> p.path == "/account"
    ensures p.Render? ==> p.view == RegisterClientPage
  {
    GuestOnly(user, RegisterClientPage)
  }

  /** src/app/auth/forgot-password/page.tsx */
  function ForgotPasswordPage(user: Option<User>): (p: PageResult)
    ensures p.Redirect? <==> user.Some?
    ensures p.Redirect? ==> p.path == "/account"
    ensures p.Render? ==> p.view == ForgotPasswordClientPage
  {
    GuestOnly(user, ForgotPasswordClientPage)
  }

  /** src/app/auth/reset-password/page.tsx: the user check comes first, whatever the
      query; then a missing or empty `secret` or `userId` gives the static
      invalid-link view (pointing at "/forgot-password"); only a link with both
      renders the form, with exactly those two values. */
  function ResetPasswordPage(user: Option<User>, secret: Option<string>, userId: Option<string>): (p: PageResult)
    ensures user.Some? ==> p == Redirect("/account")
    ensures user.None? ==> p.Render?
    ensures p.Render? && !(Truthy(secret) && Truthy(userId)) ==> p.view == InvalidLink("/forgot-password")
    ensures p.Render? && p.view.ResetPasswordClientPage? ==>
      Truthy(secret) && Truthy(userId) && p.view.secret == secret.value && p.view.userId == userId.value
    ensures user.None? && Truthy(secret) && Truthy(userId) ==> p == Render(ResetPasswordClientPage(secret.value, userId.value))
  {
    if user.Some? then Redirect("/account")
    else if !Truthy(secret) || !Truthy(userId) then Render(InvalidLink("/forgot-password"))
    else Render(ResetPasswordClientPage(secret.value, userId.value))
  }

  /** No gate renders a view that shows or acts on an account without a user, and
      no guest-only view is rendered while a user is present. */
  lemma ViewsMatchAuthentication(user: Option<User>, secret: Option<string>, userId: Option<string>)
    ensures AccountPage(user).Render? <==> user.Some?
    ensures RootPage(user).Render? <==> user.None?
    ensures LoginPage(user).Render? <==> user.None?
    ensures RegisterPage(user).Render? <==> user.None?
    ensures ForgotPasswordPage(user).Render? <==> user.None?
    ensures ResetPasswordPage(user, secret, userId).Render? <==> user.None?
  {
  }
}
