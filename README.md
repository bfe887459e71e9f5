# Session-cookie authentication gate of a Next.js front end over Appwrite

This project models, in Dafny, the authentication core of a Next.js application
that signs users in against the Appwrite identity service and keeps the session
in one HTTP cookie. The model covers these parts:

- **Edge gate** (`Middleware`). The middleware decides on every matched request
  from two inputs: the path, and whether the session cookie is present. It
  redirects a protected path to `/login`, redirects an auth path to `/account`, or
  lets the request through. Its `config.matcher` pattern decides which paths it
  runs on.
- **Cookie store and provider** (`Cookies`, `Appwrite`). The response cookie store
  is a class holding a `map` from cookie name to value and options. The Appwrite
  service is a `Provider` object that logs every request it receives, in order,
  together with the handle that sent it. An abstract `Oracle` answers each request
  with `Ok(value)` or `Err(message)`.
- **Client factories** (`AppwriteServer`). The SDK `Client` is configured by its
  setters. The admin client carries the API key. The session client is bound to
  the cookie's value, and creating it fails with "No session found" when the
  cookie is missing.
- **Server actions** (`ActionsAuth`). `signUp`, `signIn`, `signOut`,
  `getCurrentUser`, `forgotPassword`, `resetPassword`, `changePassword` and
  `changeEmail` are each written twice:
  - a specification function over a `World`, which is the cookie jar plus the
    provider's request log;
  - a method over the live store and provider, proved equal to that function.
- **Page gates** (`Pages`). The six server pages are functions of the
  `getCurrentUser` result, plus the reset link's query parameters for the reset
  page. Each returns `Redirect(path)` or `Render(view)`. The thrown `redirect()` of
  Next.js becomes a returned value.
- **Forms** (`Login`, `Register`, `ForgotPassword`, `ResetPassword`,
  `AccountWithTabs`). Each zod schema is a predicate, with a function listing the
  issues it reports. Each `onSubmit` handler is a class method. It updates the
  component's state fields and appends to an `effects` trace every setter call,
  action call, navigation, form reset and query invalidation it makes, in order.
  The result of the server action it awaits is a parameter.
- **Lifecycle** (`SessionLifecycle`). This module holds properties that span
  several of the parts above:
  - Starting from a browser with no session cookie, or with one the provider
    issued, the session cookie only ever holds a secret the provider issued over
    any sequence of actions, and it always carries the session options. A forged
    or stale cookie the browser arrives with is not removed by the actions; the
    page gate turns it away instead.
  - After a sign-in, the page gate resolves the user the provider names for that
    session.
  - After a sign-out, both gates turn `/account` away.
  - The gate fails closed: an invalid cookie is treated like no cookie at all.

Several pages and components import `getCurrentUser`, `signIn`, `signOut` and
`resetPassword` from `@/lib/auth-actions`. That module is not part of this model.
The model assumes these imports are the same functions as those in
`src/lib/actions-auth.ts`, and uses those.

The email-format check of zod is a parameter `isEmail: string -> bool` of the
schemas and is never interpreted.

## Behaviour worth noting

- **Redirect targets.** The middleware's auth list is `/login`, `/register` and
  `/forgot-password` (src/middleware.ts:12). Both the middleware
  (src/middleware.ts:16) and the account page (src/app/account/page.tsx:17)
  redirect a signed-out browser to `/login`, while the sign-in page lives at
  `/auth/login`. As a result, `/auth/login` with a cookie passes the edge gate
  (`Middleware.RouteMatchingAsWritten`).
- **Prefix and exact matching.** The protected match is a prefix match
  (src/middleware.ts:15), so `/accounts` is protected. The auth match is exact
  (src/middleware.ts:20), so `/login/` is not an auth route.
- **Recovery errors.** The forgot-password form shows the provider's own error
  message when there is one, and the generic text only when it is empty
  (src/components/ForgotPassword.tsx:45; `SessionLifecycle.RecoveryErrorReachesBanner`).
- **Reset parameters.** The `resetPassword` action sends `secret` and `userId`
  to the provider as given, empty strings included
  (src/lib/actions-auth.ts:122-140; `ActionsAuth.ResetPasswordSpec`). Only the
  reset page checks them.
- **Recovery link.** The recovery link points to `/reset-password`
  (src/lib/actions-auth.ts:110-113), while the page is `/auth/reset-password`.
- **Sign-out without a cookie.** `signOut` creates its session client before its
  `try` (src/lib/actions-auth.ts:79-81). Without a cookie it throws "No session
  found": nothing is deleted and no redirect happens (`ActionsAuth.SignOutSpec`).

## Model

| member | source | states |
|---|---|---|
| `Outcomes.OrElse` | src/lib/actions-auth.ts:47 | the JavaScript or-operator on strings: `s` unless it is empty, else the fallback; the result is empty only if both are |
| `Config.SessionCookieName` | src/middleware.ts:5-7 | the cookie name is NEXT_PUBLIC_COOKIE_NAME when set and non-empty, otherwise `_session`; never empty |
| `Middleware.SomeRouteIsPrefix` | src/middleware.ts:15 | `routes.some(r => pathname.startsWith(r))` holds iff some route is a prefix of the path |
| `Middleware.Includes` | src/middleware.ts:20 | `routes.includes(pathname)` holds iff the path is one of the routes (exact match) |
| `Middleware.Decide` | src/middleware.ts:4-25 | redirect to `/login` iff the path starts with `/account` and the cookie is absent; redirect to `/account` iff the path is exactly one of the three auth routes and the cookie is present; pass-through otherwise |
| `Middleware.EdgeGate` | src/middleware.ts:27-29 | a path the matcher excludes always passes through |
| `Middleware.ExcludedRemainder` | src/middleware.ts:28 | the remainders after "/" that the matcher's negative lookahead refuses: those starting with `api`, `_next/static`, `_next/image` or `favicon`, any character, `ico` |
| `Middleware.Matched` | src/middleware.ts:28 | the middleware runs on a path iff it starts with "/" and its remainder is not excluded |
| `Middleware.MatcherAsWritten` | src/middleware.ts:28 | `/api/users`, `/apiary`, `/_next/static/...`, `/_next/image`, `/favicon.ico` and `/favicon-ico` are not matched; `/`, `/account`, `/auth/login` and `/_next/data` are |
| `Middleware.ProtectedAndAuthDisjoint` | src/middleware.ts:11-12 | no path is both protected and an auth route |
| `Middleware.OnlyPresenceMatters` | src/middleware.ts:5-20 | two cookie maps that agree on whether the session cookie exists give the same decision, whatever the values |
| `Middleware.MatcherHidesNoGatedPath` | src/middleware.ts:11-28 | on every path starting with "/", the edge response equals the middleware's decision: the excluded prefixes (`api`, `_next/static`, `_next/image`, `favicon?ico`) never cover a gated path |
| `Middleware.RouteMatchingAsWritten` | src/middleware.ts:11-21 | `/account/x` and `/accounts` without a cookie go to `/login`; `/login` with a cookie goes to `/account`; `/login/`, `/auth/login` and `/account` with a cookie pass |
| `Cookies.CookieStore.Get` | src/lib/appwrite-server.ts:27-30 | returns the cookie exactly when one of that name exists |
| `Cookies.CookieStore.Set` | src/lib/actions-auth.ts:31-40 | replaces or adds exactly that cookie, with the value and options given |
| `Cookies.CookieStore.Delete` | src/lib/actions-auth.ts:84 | removes exactly that cookie |
| `Appwrite.Provider.Acknowledge` | src/lib/actions-auth.ts:85 | appends the request to the log and returns the oracle's outcome for it |
| `Appwrite.Provider.OpenSession` | src/lib/actions-auth.ts:56-59 | appends the session request to the log and returns the oracle's secret or error |
| `Appwrite.Provider.Identify` | src/lib/actions-auth.ts:97 | appends the `get` request to the log and returns the oracle's user or error |
| `AppwriteServer.Client.SetEndpoint` | src/lib/appwrite-server.ts:7 | sets the endpoint and changes nothing else |
| `AppwriteServer.Client.SetProject` | src/lib/appwrite-server.ts:8 | sets the project and changes nothing else |
| `AppwriteServer.Client.SetKey` | src/lib/appwrite-server.ts:9 | sets the API key and changes nothing else |
| `AppwriteServer.Client.SetSession` | src/lib/appwrite-server.ts:36 | binds the session and changes nothing else |
| `AppwriteServer.AdminHandle` | src/lib/appwrite-server.ts:4-19 | the admin configuration has the endpoint, project and API key, and no session |
| `AppwriteServer.SessionHandle` | src/lib/appwrite-server.ts:21-43 | "No session found" iff the cookie is absent; otherwise the session is exactly the cookie's value, and there is never an API key |
| `AppwriteServer.CreateAdminClient` | src/lib/appwrite-server.ts:4-19 | builds a fresh client configured as `AdminHandle`, reading no cookie and never failing |
| `AppwriteServer.CreateSessionClient` | src/lib/appwrite-server.ts:21-43 | fails with `SessionHandle`'s error when the cookie is missing; otherwise builds a fresh client configured as `SessionHandle` |
| `ActionsAuth.Mirror` | src/lib/actions-auth.ts:136-139 | success iff the call succeeded; on failure, the error is the thrown message |
| `ActionsAuth.SignUpSpec` | src/lib/actions-auth.ts:8-50 | account creation precedes the session request, and a failed creation sends no session request; success iff both succeed, and then the configured cookie holds the secret with path "/", httpOnly, sameSite strict and secure; on failure the jar is unchanged and the error is the message or the "unknown error" fallback |
| `ActionsAuth.SignUp` | src/lib/actions-auth.ts:8-50 | the store, the provider log and the result are those of `SignUpSpec` |
| `ActionsAuth.SignInSpec` | src/lib/actions-auth.ts:52-77 | exactly one session request; success iff it is granted, and then the cookie is set to its secret with the session options; on failure the jar is unchanged and the error is the provider's message |
| `ActionsAuth.SignIn` | src/lib/actions-auth.ts:52-77 | the store, the provider log and the result are those of `SignInSpec` |
| `ActionsAuth.SignOutSpec` | src/lib/actions-auth.ts:79-92 | without the cookie: throws "No session found" with the world unchanged; with it: the cookie is deleted, `deleteSessions` is sent with that session, and the redirect to "/" follows whatever the provider answers |
| `ActionsAuth.SignOut` | src/lib/actions-auth.ts:79-92 | the store, the provider log and the ending are those of `SignOutSpec` |
| `ActionsAuth.CurrentUserSpec` | src/lib/actions-auth.ts:94-102 | never fails and never touches the jar; without the cookie it returns null and sends nothing; otherwise it sends one `get` with the cookie's session, returns the provider's user unchanged, and maps every provider error to null |
| `ActionsAuth.GetCurrentUser` | src/lib/actions-auth.ts:94-102 | the provider log and the user are those of `CurrentUserSpec`; the store is not modified |
| `ActionsAuth.RecoveryUrl` | src/lib/actions-auth.ts:110-113 | the production URL iff NODE_ENV is "production", the localhost URL otherwise |
| `ActionsAuth.ForgotPasswordSpec` | src/lib/actions-auth.ts:104-120 | the jar is unchanged; one recovery request with the email and `RecoveryUrl`; success iff the provider succeeds, otherwise its message |
| `ActionsAuth.ForgotPassword` | src/lib/actions-auth.ts:104-120 | the provider log and the result are those of `ForgotPasswordSpec`; the store is not modified |
| `ActionsAuth.ResetPasswordSpec` | src/lib/actions-auth.ts:122-140 | the jar is unchanged; one `updateRecovery(password, secret, userId)` through the admin handle with no check of `secret` or `userId`; the result mirrors the provider |
| `ActionsAuth.ResetPassword` | src/lib/actions-auth.ts:122-140 | the provider log and the result are those of `ResetPasswordSpec` |
| `ActionsAuth.SessionUpdateSpec` | src/lib/actions-auth.ts:142-166 | never touches the jar; without the cookie it fails with "No session found" and sends nothing; otherwise one request with the cookie's session, and the result mirrors the provider |
| `ActionsAuth.ChangePassword` | src/lib/actions-auth.ts:142-151 | the log and result are `SessionUpdateSpec` of `updatePassword(newPassword, oldPassword)` |
| `ActionsAuth.ChangeEmail` | src/lib/actions-auth.ts:153-166 | the log and result are `SessionUpdateSpec` of `updateEmail(newEmail, password)` |
| `Pages.AccountPage` | src/app/account/page.tsx:7-24 | redirects to "/login" iff there is no user; otherwise renders the client page with exactly that user |
| `Pages.RootPage` | src/app/page.tsx:6-49 | redirects to "/account" iff there is a user; otherwise the landing view, which links to "/auth/login" and "/auth/register" |
| `Pages.GuestOnly` | src/app/auth/login/page.tsx:13-18 | redirects to "/account" iff there is a user; otherwise renders the given form |
| `Pages.LoginPage` | src/app/auth/login/page.tsx:7-19 | redirects to "/account" iff there is a user, otherwise renders the login form |
| `Pages.RegisterPage` | src/app/auth/register/page.tsx:6-16 | redirects to "/account" iff there is a user, otherwise renders the registration form |
| `Pages.ForgotPasswordPage` | src/app/auth/forgot-password/page.tsx:6-16 | redirects to "/account" iff there is a user, otherwise renders the forgot-password form |
| `Pages.ResetPasswordPage` | src/app/auth/reset-password/page.tsx:14-53 | a user is redirected to "/account" whatever the query; otherwise a falsy `secret` or `userId` gives the invalid-link view pointing at "/forgot-password", and the form is rendered only with both, passed unchanged |
| `Pages.ViewsMatchAuthentication` | src/app/account/page.tsx:13-23 | the account page renders iff there is a user; the landing, login, register, forgot-password and reset pages (src/app/page.tsx and src/app/auth/{login,register,forgot-password,reset-password}/page.tsx) render iff there is none |
| `Login.LoginIssues` | src/components/Login.tsx:12-17 | no issue iff the email passes the check and the password has at least 6 characters; each failing field has its message |
| `Login.LoginSchema` | src/components/Login.tsx:12-17 | valid iff the email passes the check and the password has at least 6 characters |
| `Login.ServerErrorAfter` | src/components/Login.tsx:42-46 | empty iff the sign-in succeeded; otherwise the action's error, or "Login failed. Please try again." when that is empty |
| `Login.LoginClientPage.constructor` | src/components/Login.tsx:24 | the server error starts empty and nothing has been done |
| `Login.LoginClientPage.OnSubmit` | src/components/Login.tsx:36-47 | clears the error, calls `signIn(email, password)`, then navigates to "/account" on success or shows `ServerErrorAfter` |
| `Register.RegisterIssues` | src/components/Register.tsx:12-28 | no issue iff username ≥ 3, email passes, password ≥ 6, confirmation ≥ 1 and passwords equal; the mismatch issue is on `confirmPassword` iff they differ |
| `Register.RegisterSchema` | src/components/Register.tsx:12-28 | valid iff username ≥ 3, email passes, password ≥ 6, confirmation ≥ 1 and the passwords are equal |
| `Register.ServerErrorAfter` | src/components/Register.tsx:53-57 | empty iff the sign-up succeeded; otherwise the action's error, or "Registration failed. Please try again." |
| `Register.RegisterClientPage.constructor` | src/components/Register.tsx:35 | the server error starts empty and nothing has been done |
| `Register.RegisterClientPage.OnSubmit` | src/components/Register.tsx:47-58 | clears the error, calls `signUp(email, password, username)` in that order, then navigates or shows the error |
| `ForgotPassword.ForgotPasswordIssues` | src/components/ForgotPassword.tsx:11-13 | no issue iff the email passes the check |
| `ForgotPassword.ForgotPasswordSchema` | src/components/ForgotPassword.tsx:11-13 | valid iff the email passes the check |
| `ForgotPassword.StatusAfter` | src/components/ForgotPassword.tsx:38-46 | success flag iff the action succeeded; on success the fixed "If an account with that email exists…" text; otherwise the error or the generic fallback; never empty |
| `ForgotPassword.ForgotPasswordClientPage.constructor` | src/components/ForgotPassword.tsx:19-20 | the status message starts empty and unsuccessful, and nothing has been done |
| `ForgotPassword.ForgotPasswordClientPage.OnSubmit` | src/components/ForgotPassword.tsx:32-47 | clears the message and the flag before calling `forgotPassword(email)`, then sets the flag and message of `StatusAfter` |
| `ResetPassword.ResetPasswordIssues` | src/components/ResetPassword.tsx:16-26 | no issue iff password ≥ 8 and it equals the confirmation; the mismatch issue is on `confirmPassword` |
| `ResetPassword.ResetPasswordSchema` | src/components/ResetPassword.tsx:16-26 | valid iff the password has at least 8 characters and equals the confirmation |
| `ResetPassword.StatusAfter` | src/components/ResetPassword.tsx:54-60 | success flag iff the action succeeded, with the fixed success text; otherwise the error or the fallback |
| `ResetPassword.ResetPasswordClientPage.constructor` | src/components/ResetPassword.tsx:31-36 | keeps the `secret` and `userId` props; the banner starts empty and unsuccessful |
| `ResetPassword.ResetPasswordClientPage.OnSubmit` | src/components/ResetPassword.tsx:48-61 | clears the banner, calls `resetPassword(password, secret, userId)` with the props unchanged, then shows `StatusAfter`, with no navigation |
| `AccountWithTabs.ChangeEmailIssues` | src/components/AccountWithTabs.tsx:20-23 | no issue iff the new email passes and the password has at least 8 characters |
| `AccountWithTabs.ChangeEmailSchema` | src/components/AccountWithTabs.tsx:20-23 | valid iff the new email passes and the password has at least 8 characters |
| `AccountWithTabs.ChangePasswordIssues` | src/components/AccountWithTabs.tsx:25-38 | no issue iff current and new passwords have ≥ 8 characters and the confirmation equals the new one; the mismatch is on `confirmPassword` |
| `AccountWithTabs.ChangePasswordSchema` | src/components/AccountWithTabs.tsx:25-38 | valid iff current and new passwords have ≥ 8 characters and the confirmation equals the new one |
| `AccountWithTabs.MessagesAfter` | src/components/AccountWithTabs.tsx:106-115 | after a submit, exactly one of error and success message is non-empty: the success text iff the action succeeded |
| `AccountWithTabs.RenderContent` | src/components/AccountWithTabs.tsx:147-374 | a panel iff the tab is one of "account", "change-email", "change-password", each with its own panel; nothing for any other value |
| `AccountWithTabs.TabValue` | src/components/AccountWithTabs.tsx:394-424 | "Account Details" selects the tab that draws the details, "Change Email" the one that draws the change-email form, "Change Password" the one that draws the change-password form |
| `AccountWithTabs.AccountTabsClientPage.constructor` | src/components/AccountWithTabs.tsx:75-120 | the tab starts as "account" and all four messages are empty |
| `AccountWithTabs.AccountTabsClientPage.ClickTab` | src/components/AccountWithTabs.tsx:394-424 | sets the clicked button's tab, so the panel drawn is the one the button names; the messages are unchanged |
| `AccountWithTabs.AccountTabsClientPage.OnEmailSubmit` | src/components/AccountWithTabs.tsx:101-116 | clears both email messages, calls `changeEmail(newEmail, password)`, then on success sets the success text, resets the form and invalidates "currentUser"; on failure sets the error |
| `AccountWithTabs.AccountTabsClientPage.OnPasswordSubmit` | src/components/AccountWithTabs.tsx:130-145 | clears both password messages, calls `changePassword(currentPassword, newPassword)`, then on success sets the success text and resets the form with no invalidation; on failure sets the error |
| `SessionLifecycle.StepKeepsCookieIssued` | src/lib/actions-auth.ts:8-166 | any single action keeps the session cookie an issued secret with the session options, and only appends to the request log |
| `SessionLifecycle.RunKeepsCookieIssued` | src/lib/actions-auth.ts:8-166 | starting from a browser with no session cookie or one the provider issued, over any sequence of actions the cookie only ever holds a secret the provider granted to a logged session request, with path "/", httpOnly, strict and secure; no request leaves the log |
| `SessionLifecycle.SignInThenCurrentUser` | src/lib/actions-auth.ts:52-102 | after a granted sign-in, `getCurrentUser` asks about exactly the granted session and returns the provider's user for it |
| `SessionLifecycle.SignOutLocksAccount` | src/lib/actions-auth.ts:79-102 | after any sign-out, with or without a cookie, `getCurrentUser` is null, the account page redirects to "/login", and the middleware redirects "/account" to "/login" |
| `SessionLifecycle.AccountPageFailsClosed` | src/app/account/page.tsx:11-18 | a cookie the provider rejects gives the same redirect to "/login" as no cookie |
| `SessionLifecycle.AccountRendersOnlyProviderUser` | src/app/account/page.tsx:11-23 | the account page renders only with the user the provider returned for the cookie's session |
| `SessionLifecycle.EdgePassesWhatPageRejects` | src/middleware.ts:15-24 | an invalid cookie passes "/account" at the edge, and the page gate redirects it to "/login" |
| `SessionLifecycle.NoSessionNoRequest` | src/lib/appwrite-server.ts:32-34 | without the cookie, change-password and change-email fail with "No session found", `getCurrentUser` is null, and `signOut` throws, all without any request |
| `SessionLifecycle.RecoveryErrorReachesBanner` | src/components/ForgotPassword.tsx:36-46 | when the provider rejects the recovery with a message, the banner shows that message and not the generic one |

## Left out

- Markup, styling, icons, `Link` rendering and the account details panel's fields. Only the view or panel chosen is modelled.
- src/components/Account.tsx is not part of this model. It is query and mutation plumbing around `initialUser` and `signOut`.
- The Appwrite service itself. Every provider call is answered by an abstract oracle, and no provider semantics are modelled. The browser-side client module `./appwrite-client` is not part of this model; its requests are sent through the `BrowserClient` handle.
- `ID.unique()`. It is the caller-supplied `userId` parameter of `SignUp`.
- Environment variables. They are the `Env` parameter. Unset variables asserted with `!` are plain strings.
- The endpoint and project that a new SDK `Client` starts with are SDK internals. The constructor states only that there is no key and no session.
- `async`/`await`, react-query caching, `staleTime` and `useFormStatus` pending flags. These concern timing and concurrency, not state rules.
- The `useQuery` refetch of the current user on the account page.
- Logging, including the password logged by `signUp`.
- Date formatting.
- The Next.js redirect-by-exception mechanism. Redirects are returned values.
- react-hook-form's `handleSubmit`. It calls `onSubmit` only with data the schema accepted. The `OnSubmit` methods do not re-check the schema.
- Form field values and what `reset()` restores. A reset is recorded only as an effect.
- zod's email format check is the uninterpreted parameter `isEmail`.
- String lengths are counted in Dafny characters, not in the UTF-16 code units that zod's `.min` counts. The two differ only for characters outside the Basic Multilingual Plane.
- Every schema issue is listed whenever its check fails, refinement included. Whether zod skips a refinement after other issues, and the order it reports issues in, are library behaviour. Validity does not depend on either.
- Query parameters given as arrays (a repeated `secret` or `userId`) are not modelled. Each parameter is one optional string.
- The `.*` of the matcher pattern is taken to match the whole remainder of the path.
- `SessionLifecycle.Step`: the oracle answers each request the same way whenever it is sent, so repeated requests in a sequence of actions get the same answer.
- A missing error message: an action's `{ success: false, error: error.message }` with no `message` on the thrown value (`undefined`) is modelled as `Failed("")`. Every consumer reads it through `||` with a fallback, so the text shown is the same.
