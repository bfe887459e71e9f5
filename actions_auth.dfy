/** The server actions of src/lib/actions-auth.ts: each one an ordered exchange with
    the provider that may set or delete the session cookie. Every action is given
    as a specification function over a `World` (the cookie jar and the provider's
    request log) and as a method over the live cookie store and provider that is
    proved to follow it. */
module ActionsAuth {
  import opened Outcomes
  import Config
  import opened Cookies
  import opened Appwrite
  import opened AppwriteServer

  /** What an action can change: the response cookies and the requests sent. */
  datatype World = World(jar: map<string, Cookie>, log: seq<Call>)

  /** An action's effect: the world afterwards and the result handed to the browser. */
  datatype Exchange = Exchange(world: World, result: ActionResult)

  /** How `signOut` ends: with `redirect("/")`, or with the error thrown by
      `createSessionClient` before its `try`. */
  datatype SignOutEnd = RedirectedTo(path: string) | Threw(message: string)
  datatype SignOutExchange = SignOutExchange(world: World, end: SignOutEnd)

  /** `getCurrentUser`'s effect: the world afterwards and the user or `null`. */
  datatype Lookup = Lookup(world: World, user: Option<User>)

  const UnknownRegistrationError: string := "An unknown error occurred during registration."
  const ProductionRecoveryUrl: string := "https://yourdomain.com/reset-password"
  const DevelopmentRecoveryUrl: string := "http://localhost:3000/reset-password"

  /** The cookie `signUp` and `signIn` set for a new session. */
  function SessionCookie(secret: string): Cookie
  {
    Cookie(secret, SessionCookieOptions)
  }

  /** `{ success: true }` or `{ success: false, error: error.message }` for one provider call. */
  function Mirror(outcome: Outcome<()>): (r: ActionResult)
    ensures r.Succeeded? <==> outcome.Ok?
    ensures r.Failed? ==> r.error == outcome.message
  {
    if outcome.Ok? then Succeeded else Failed(outcome.message)
  }

  // ---------------------------------------------------------------- signUp

  function CreateAccountCall(env: Config.Env, email: string, password: string, username: string, userId: string): Call
  {
    Call(AdminHandle(env), Create(userId, email, password, username))
  }

  function OpenSessionCall(env: Config.Env, email: string, password: string): Call
  {
    Call(AdminHandle(env), CreateEmailPasswordSession(email, password))
  }

  /** `signUp(email, password, username)` with `userId` standing for `ID.unique()`:
      the account is created first, a session is requested only if that succeeded,
      and the cookie is set only when both succeeded. */
  function SignUpSpec(w: World, o: Oracle, env: Config.Env,
                      email: string, password: string, username: string, userId: string): (x: Exchange)
    ensures x.result.Succeeded? <==>
      o.acknowledge(CreateAccountCall(env, email, password, username, userId)).Ok? &&
      o.openSession(OpenSessionCall(env, email, password)).Ok?
    ensures x.result.Succeeded? ==>
      x.world.jar == w.jar[Config.SessionCookieName(env) := SessionCookie(o.openSession(OpenSessionCall(env, email, password)).value)]
    ensures x.result.Failed? ==> x.world.jar == w.jar && x.result.error != ""
    ensures o.acknowledge(CreateAccountCall(env, email, password, username, userId)).Err? ==>
      x.world.log == w.log + [CreateAccountCall(env, email, password, username, userId)] &&
      x.result == Failed(OrElse(o.acknowledge(CreateAccountCall(env, email, password, username, userId)).message, UnknownRegistrationError))
    ensures o.acknowledge(CreateAccountCall(env, email, password, username, userId)).Ok? ==>
      x.world.log == w.log + [CreateAccountCall(env, email, password, username, userId), OpenSessionCall(env, email, password)]
    ensures o.acknowledge(CreateAccountCall(env, email, password, username, userId)).Ok? &&
            o.openSession(OpenSessionCall(env, email, password)).Err? ==>
      x.result == Failed(OrElse(o.openSession(OpenSessionCall(env, email, password)).message, UnknownRegistrationError))
  {
    var create := CreateAccountCall(env, email, password, username, userId);
    var open := OpenSessionCall(env, email, password);
    match o.acknowledge(create)
    case Err(m) => Exchange(World(w.jar, w.log + [create]), Failed(OrElse(m, UnknownRegistrationError)))
    case Ok(_) =>
      match o.openSession(open)
      case Err(m) => Exchange(World(w.jar, w.log + [create, open]), Failed(OrElse(m, UnknownRegistrationError)))
      case Ok(secret) =>
        Exchange(World(w.jar[Config.SessionCookieName(env) := SessionCookie(secret)], w.log + [create, open]), Succeeded)
  }

  method SignUp(store: CookieStore, provider: Provider, env: Config.Env,
                email: string, password: string, username: string, userId: string) returns (r: ActionResult)
    modifies store, provider
    ensures Exchange(World(store.jar, provider.log), r) ==
      SignUpSpec(World(old(store.jar), old(provider.log)), provider.answers, env, email, password, username, userId)
  {
    var admin := CreateAdminClient(env);
    var created := provider.Acknowledge(Call(admin.Handle(), Create(userId, email, password, username)));
    if created.Err? {
      return Failed(OrElse(created.message, UnknownRegistrationError));
    }
    var session := provider.OpenSession(Call(admin.Handle(), CreateEmailPasswordSession(email, password)));
    if session.Err? {
      return Failed(OrElse(session.message, UnknownRegistrationError));
    }
    store.Set(Config.SessionCookieName(env), session.value, SessionCookieOptions);
    r := Succeeded;
  }

  // ---------------------------------------------------------------- signIn

  /** `signIn(email, password)`: one session request; the cookie is set to the
      session's secret exactly when the provider grants it, and left alone otherwise. */
  function SignInSpec(w: World, o: Oracle, env: Config.Env, email: string, password: string): (x: Exchange)
    ensures x.world.log == w.log + [OpenSessionCall(env, email, password)]
    ensures x.result.Succeeded? <==> o.openSession(OpenSessionCall(env, email, password)).Ok?
    ensures x.result.Succeeded? ==>
      x.world.jar == w.jar[Config.SessionCookieName(env) := SessionCookie(o.openSession(OpenSessionCall(env, email, password)).value)]
    ensures x.result.Failed? ==>
      x.world.jar == w.jar && x.result.error == o.openSession(OpenSessionCall(env, email, password)).message
  {
    var open := OpenSessionCall(env, email, password);
    match o.openSession(open)
    case Err(m) => Exchange(World(w.jar, w.log + [open]), Failed(m))
    case Ok(secret) => Exchange(World(w.jar[Config.SessionCookieName(env) := SessionCookie(secret)], w.log + [open]), Succeeded)
  }

  method SignIn(store: CookieStore, provider: Provider, env: Config.Env, email: string, password: string)
    returns (r: ActionResult)
    modifies store, provider
    ensures Exchange(World(store.jar, provider.log), r) ==
      SignInSpec(World(old(store.jar), old(provider.log)), provider.answers, env, email, password)
  {
    var admin := CreateAdminClient(env);
    var session := provider.OpenSession(Call(admin.Handle(), CreateEmailPasswordSession(email, password)));
    if session.Err? {
      return Failed(session.message);
    }
    store.Set(Config.SessionCookieName(env), session.value, SessionCookieOptions);
    r := Succeeded;
  }

  // ---------------------------------------------------------------- signOut

  /** `signOut()`. Without the cookie, `createSessionClient` throws "No session found"
      outside the `try`: nothing is deleted, nothing is sent, no redirect happens.
      With it, the cookie is deleted before `deleteSessions` is sent, the provider's
      answer is ignored, and the redirect to "/" always follows; so the outcome does
      not depend on the provider at all (the function takes no oracle). */
  function SignOutSpec(w: World, env: Config.Env): (x: SignOutExchange)
    ensures Config.SessionCookieName(env) !in w.jar ==> x == SignOutExchange(w, Threw(NoSessionFound))
    ensures Config.SessionCookieName(env) in w.jar ==>
      && x.end == RedirectedTo("/")
      && x.world.jar == w.jar - {Config.SessionCookieName(env)}
      && x.world.log == w.log + [Call(Server(env.appwriteEndpoint, env.appwriteProjectId, None,
                                             Some(w.jar[Config.SessionCookieName(env)].value)), DeleteSessions)]
  {
    match SessionHandle(env, w.jar)
    case Err(m) => SignOutExchange(w, Threw(m))
    case Ok(h) =>
      SignOutExchange(World(w.jar - {Config.SessionCookieName(env)}, w.log + [Call(h, DeleteSessions)]), RedirectedTo("/"))
  }

  method SignOut(store: CookieStore, provider: Provider, env: Config.Env) returns (end: SignOutEnd)
    modifies store, provider
    ensures SignOutExchange(World(store.jar, provider.log), end) == SignOutSpec(World(old(store.jar), old(provider.log)), env)
  {
    var client := CreateSessionClient(env, store);
    if client.Err? {
      return Threw(client.message);
    }
    // try {
    store.Delete(Config.SessionCookieName(env));
    var ignored := provider.Acknowledge(Call(client.value.Handle(), DeleteSessions));
    // } catch: a failed deleteSessions is swallowed
    end := RedirectedTo("/");
  }

  // ---------------------------------------------------------------- getCurrentUser

  /** `getCurrentUser()`: never fails. A missing cookie gives `null` without any
      request; otherwise the provider is asked once, through a handle bound to the
      cookie's value, and any error it reports becomes `null`. */
  function CurrentUserSpec(w: World, o: Oracle, env: Config.Env): (x: Lookup)
    ensures x.world.jar == w.jar
    ensures Config.SessionCookieName(env) !in w.jar ==> x == Lookup(w, None)
    ensures Config.SessionCookieName(env) in w.jar ==>
      var get := Call(Server(env.appwriteEndpoint, env.appwriteProjectId, None,
                             Some(w.jar[Config.SessionCookieName(env)].value)), Get);
      && x.world.log == w.log + [get]
      && (x.user.Some? <==> o.identify(get).Ok?)
      && (x.user.Some? ==> x.user.value == o.identify(get).value)
  {
    match SessionHandle(env, w.jar)
    case Err(_) => Lookup(w, None)
    case Ok(h) =>
      var get := Call(h, Get);
      match o.identify(get)
      case Err(_) => Lookup(World(w.jar, w.log + [get]), None)
      case Ok(user) => Lookup(World(w.jar, w.log + [get]), Some(user))
  }

  method GetCurrentUser(store: CookieStore, provider: Provider, env: Config.Env) returns (user: Option<User>)
    modifies provider
    ensures Lookup(World(store.jar, provider.log), user) == CurrentUserSpec(World(store.jar, old(provider.log)), provider.answers, env)
  {
    var client := CreateSessionClient(env, store);
    if client.Err? {
      return None;
    }
    var fetched := provider.Identify(Call(client.value.Handle(), Get));
    user := if fetched.Ok? then Some(fetched.value) else None;
  }

  // ---------------------------------------------------------------- forgotPassword

  /** The recovery link base: the production host exactly when NODE_ENV is "production". */
  function RecoveryUrl(env: Config.Env): (url: string)
    ensures url == ProductionRecoveryUrl <==> env.nodeEnv == Some("production")
    ensures url != ProductionRecoveryUrl ==> url == DevelopmentRecoveryUrl
  {
    if env.nodeEnv == Some("production") then ProductionRecoveryUrl else DevelopmentRecoveryUrl
  }

  function RecoveryCall(env: Config.Env, email: string): Call
  {
    Call(BrowserClient, CreateRecovery(email, RecoveryUrl(env)))
  }

  /** `forgotPassword(email)`: one recovery request through the browser-side client;
      the cookie is untouched and the provider's error, if any, is passed on. */
  function ForgotPasswordSpec(w: World, o: Oracle, env: Config.Env, email: string): (x: Exchange)
    ensures x.world == World(w.jar, w.log + [RecoveryCall(env, email)])
    ensures x.result.Succeeded? <==> o.acknowledge(RecoveryCall(env, email)).Ok?
    ensures x.result.Failed? ==> x.result.error == o.acknowledge(RecoveryCall(env, email)).message
  {
    var call := RecoveryCall(env, email);
    Exchange(World(w.jar, w.log + [call]), Mirror(o.acknowledge(call)))
  }

  method ForgotPassword(store: CookieStore, provider: Provider, env: Config.Env, email: string)
    returns (r: ActionResult)
    modifies provider
    ensures Exchange(World(store.jar, provider.log), r) ==
      ForgotPasswordSpec(World(store.jar, old(provider.log)), provider.answers, env, email)
  {
    var outcome := provider.Acknowledge(Call(BrowserClient, CreateRecovery(email, RecoveryUrl(env))));
    r := Mirror(outcome);
  }

  // ---------------------------------------------------------------- resetPassword

  function UpdateRecoveryCall(env: Config.Env, password: string, secret: string, userId: string): Call
  {
    Call(AdminHandle(env), UpdateRecovery(password, secret, userId))
  }

  /** `resetPassword(password, secret, userId)`: sent through the admin client as
      given (empty `secret` or `userId` included); the cookie is untouched. */
  function ResetPasswordSpec(w: World, o: Oracle, env: Config.Env, password: string, secret: string, userId: string): (x: Exchange)
    ensures x.world == World(w.jar, w.log + [UpdateRecoveryCall(env, password, secret, userId)])
    ensures x.result.Succeeded? <==> o.acknowledge(UpdateRecoveryCall(env, password, secret, userId)).Ok?
    ensures x.result.Failed? ==> x.result.error == o.acknowledge(UpdateRecoveryCall(env, password, secret, userId)).message
  {
    var call := UpdateRecoveryCall(env, password, secret, userId);
    Exchange(World(w.jar, w.log + [call]), Mirror(o.acknowledge(call)))
  }

  method ResetPassword(store: CookieStore, provider: Provider, env: Config.Env, password: string, secret: string, userId: string)
    returns (r: ActionResult)
    modifies provider
    ensures Exchange(World(store.jar, provider.log), r) ==
      ResetPasswordSpec(World(store.jar, old(provider.log)), provider.answers, env, password, secret, userId)
  {
    var admin := CreateAdminClient(env);
    var outcome := provider.Acknowledge(Call(admin.Handle(), UpdateRecovery(password, secret, userId)));
    r := Mirror(outcome);
  }

  // ---------------------------------------------------------------- changePassword / changeEmail

  /** An update sent through the session client: "No session found" without any
      request when the cookie is missing, otherwise the provider's outcome for
      `request` sent with the cookie's session. The cookie is never touched. */
  function SessionUpdateSpec(w: World, o: Oracle, env: Config.Env, request: Request): (x: Exchange)
    ensures x.world.jar == w.jar
    ensures Config.SessionCookieName(env) !in w.jar ==> x == Exchange(w, Failed(NoSessionFound))
    ensures Config.SessionCookieName(env) in w.jar ==>
      var call := Call(Server(env.appwriteEndpoint, env.appwriteProjectId, None,
                              Some(w.jar[Config.SessionCookieName(env)].value)), request);
      && x.world.log == w.log + [call]
      && (x.result.Succeeded? <==> o.acknowledge(call).Ok?)
      && (x.result.Failed? ==> x.result.error == o.acknowledge(call).message)
  {
    match SessionHandle(env, w.jar)
    case Err(m) => Exchange(w, Failed(m))
    case Ok(h) => Exchange(World(w.jar, w.log + [Call(h, request)]), Mirror(o.acknowledge(Call(h, request))))
  }

  /** `changePassword(oldPassword, newPassword)` sends `updatePassword({ password: newPassword, oldPassword })`. */
  method ChangePassword(store: CookieStore, provider: Provider, env: Config.Env, oldPassword: string, newPassword: string)
    returns (r: ActionResult)
    modifies provider
    ensures Exchange(World(store.jar, provider.log), r) ==
      SessionUpdateSpec(World(store.jar, old(provider.log)), provider.answers, env, UpdatePassword(newPassword, oldPassword))
  {
    var client := CreateSessionClient(env, store);
    if client.Err? {
      return Failed(client.message);
    }
    var outcome := provider.Acknowledge(Call(client.value.Handle(), UpdatePassword(newPassword, oldPassword)));
    r := Mirror(outcome);
  }

  /** `changeEmail(newEmail, password)` sends `updateEmail({ email: newEmail, password })`. */
  method ChangeEmail(store: CookieStore, provider: Provider, env: Config.Env, newEmail: string, password: string)
    returns (r: ActionResult)
    modifies provider
    ensures Exchange(World(store.jar, provider.log), r) ==
      SessionUpdateSpec(World(store.jar, old(provider.log)), provider.answers, env, UpdateEmail(newEmail, password))
  {
    var client := CreateSessionClient(env, store);
    if client.Err? {
      return Failed(client.message);
    }
    var outcome := provider.Acknowledge(Call(client.value.Handle(), UpdateEmail(newEmail, password)));
    r := Mirror(outcome);
  }
}
