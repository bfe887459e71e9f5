/** Properties of the session cookie across actions and gates: what holds after a
    whole sequence of server actions, and how the edge gate and the page gates
    see the states the actions leave behind. */
module SessionLifecycle {
  import opened Outcomes
  import Config
  import opened Cookies
  import opened Appwrite
  import opened AppwriteServer
  import opened ActionsAuth
  import Middleware
  import Pages
  import ForgotPassword

  /** The server actions a browser can invoke, with their arguments. */
  datatype Action =
    | DoSignUp(email: string, password: string, username: string, userId: string)
    | DoSignIn(email: string, password: string)
    | DoSignOut
    | DoGetCurrentUser
    | DoForgotPassword(email: string)
    | DoResetPassword(password: string, secret: string, userId: string)
    | DoChangePassword(oldPassword: string, newPassword: string)
    | DoChangeEmail(newEmail: string, password: string)

  /** The world after one action. */
  function Step(w: World, o: Oracle, env: Config.Env, a: Action): World
  {
    match a
    case DoSignUp(email, password, username, userId) => SignUpSpec(w, o, env, email, password, username, userId).world
    case DoSignIn(email, password) => SignInSpec(w, o, env, email, password).world
    case DoSignOut => SignOutSpec(w, env).world
    case DoGetCurrentUser => CurrentUserSpec(w, o, env).world
    case DoForgotPassword(email) => ForgotPasswordSpec(w, o, env, email).world
    case DoResetPassword(password, secret, userId) => ResetPasswordSpec(w, o, env, password, secret, userId).world
    case DoChangePassword(oldPassword, newPassword) => SessionUpdateSpec(w, o, env, UpdatePassword(newPassword, oldPassword)).world
    case DoChangeEmail(newEmail, password) => SessionUpdateSpec(w, o, env, UpdateEmail(newEmail, password)).world
  }

  /** The world after a sequence of actions, first to last. */
  function Run(w: World, o: Oracle, env: Config.Env, actions: seq<Action>): World
    decreases |actions|
  {
    if actions == [] then w else Run(Step(w, o, env, actions[0]), o, env, actions[1..])
  }

  /** The session cookie, when there is one, carries the session options and a
      secret that the provider handed out in answer to a logged session request. */
  ghost predicate CookieIssued(w: World, o: Oracle, env: Config.Env)
  {
    var name := Config.SessionCookieName(env);
    name in w.jar ==>
      && w.jar[name].options == SessionCookieOptions
      && exists i :: 0 <= i < |w.log| && w.log[i].request.CreateEmailPasswordSession?
                     && o.openSession(w.log[i]) == Ok(w.jar[name].value)
  }

  /** One action keeps `CookieIssued` and only appends to the request log. */
  lemma StepKeepsCookieIssued(w: World, o: Oracle, env: Config.Env, a: Action)
    requires CookieIssued(w, o, env)
    ensures CookieIssued(Step(w, o, env, a), o, env)
    ensures w.log <= Step(w, o, env, a).log
  {
    var name := Config.SessionCookieName(env);
    var w' := Step(w, o, env, a);
    assert w.log <= w'.log;
    if name in w'.jar {
      if name in w.jar && w'.jar[name] == w.jar[name] {
        var i :| 0 <= i < |w.log| && w.log[i].request.CreateEmailPasswordSession?
                 && o.openSession(w.log[i]) == Ok(w.jar[name].value);
        assert w'.log[i] == w.log[i];
      } else {
        // only a granted session request changes the cookie, and it is the last request sent
        var open := match a
          case DoSignUp(email, password, _, _) => OpenSessionCall(env, email, password)
          case DoSignIn(email, password) => OpenSessionCall(env, email, password)
          case _ => OpenSessionCall(env, "", "");
        assert a.DoSignUp? || a.DoSignIn?;
        assert w'.log[|w'.log| - 1] == open;
      }
    }
  }

  /** Whatever the actions, starting from a world whose cookie (if any) the
      provider issued, the cookie is never anything but an issued secret with the
      session options, and no request is ever dropped from the log. */
  lemma {:induction false} RunKeepsCookieIssued(w: World, o: Oracle, env: Config.Env, actions: seq<Action>)
    requires CookieIssued(w, o, env)
    ensures CookieIssued(Run(w, o, env, actions), o, env)
    ensures w.log <= Run(w, o, env, actions).log
    decreases |actions|
  {
    if actions != [] {
      var w' := Step(w, o, env, actions[0]);
      StepKeepsCookieIssued(w, o, env, actions[0]);
      RunKeepsCookieIssued(w', o, env, actions[1..]);
    }
  }

  /** After a granted sign-in, the authoritative gate asks the provider about
      exactly the session it granted, and resolves the user the provider names. */
  lemma SignInThenCurrentUser(w: World, o: Oracle, env: Config.Env, email: string, password: string)
    requires o.openSession(OpenSessionCall(env, email, password)).Ok?
    ensures
      var secret := o.openSession(OpenSessionCall(env, email, password)).value;
      var get := Call(Server(env.appwriteEndpoint, env.appwriteProjectId, None, Some(secret)), Get);
      var user := CurrentUserSpec(SignInSpec(w, o, env, email, password).world, o, env).user;
      && (user.Some? <==> o.identify(get).Ok?)
      && (user.Some? ==> user.value == o.identify(get).value)
  {
  }

  /** After any sign-out, both gates treat the browser as signed out: the page gate
      finds no user and redirects, and the edge gate redirects "/account" to
      "/login". With the cookie, `signOut` deletes it; without it, `signOut` throws
      and there was no cookie to begin with. */
  lemma SignOutLocksAccount(w: World, o: Oracle, env: Config.Env)
    ensures
      var w' := SignOutSpec(w, env).world;
      && CurrentUserSpec(w', o, env).user == None
      && Pages.AccountPage(CurrentUserSpec(w', o, env).user) == Pages.Redirect("/login")
      && Middleware.Decide("/account", RequestCookies(w'.jar), env) == Middleware.RedirectTo("/login")
  {
    assert Middleware.IsProtected("/account") by { assert "/account"[..8] == "/account"; }
  }

  /** Fail-closed: a cookie the provider does not accept gets the same account page
      as no cookie at all, a redirect to "/login". */
  lemma AccountPageFailsClosed(w: World, o: Oracle, env: Config.Env)
    requires Config.SessionCookieName(env) in w.jar
    requires o.identify(Call(Server(env.appwriteEndpoint, env.appwriteProjectId, None,
                                    Some(w.jar[Config.SessionCookieName(env)].value)), Get)).Err?
    ensures Pages.AccountPage(CurrentUserSpec(w, o, env).user)
         == Pages.AccountPage(CurrentUserSpec(World(w.jar - {Config.SessionCookieName(env)}, w.log), o, env).user)
         == Pages.Redirect("/login")
  {
  }

  /** The account page only ever renders for the user the provider returned for
      the session the cookie holds. */
  lemma AccountRendersOnlyProviderUser(w: World, o: Oracle, env: Config.Env)
    ensures Pages.AccountPage(CurrentUserSpec(w, o, env).user).Render? ==>
      && Config.SessionCookieName(env) in w.jar
      && var get := Call(Server(env.appwriteEndpoint, env.appwriteProjectId, None,
                                Some(w.jar[Config.SessionCookieName(env)].value)), Get);
         o.identify(get).Ok? &&
         Pages.AccountPage(CurrentUserSpec(w, o, env).user).view == Pages.AccountClientPage(o.identify(get).value)
  {
  }

  /** The edge gate checks presence only: any cookie value, valid or not, passes
      "/account" at the edge, and it is the page gate that turns it away. */
  lemma EdgePassesWhatPageRejects(w: World, o: Oracle, env: Config.Env)
    requires Config.SessionCookieName(env) in w.jar
    requires o.identify(Call(Server(env.appwriteEndpoint, env.appwriteProjectId, None,
                                    Some(w.jar[Config.SessionCookieName(env)].value)), Get)).Err?
    ensures Middleware.Decide("/account", RequestCookies(w.jar), env) == Middleware.Next
    ensures Pages.AccountPage(CurrentUserSpec(w, o, env).user) == Pages.Redirect("/login")
  {
  }

  /** The actions that need a session make no request at all without the cookie. */
  lemma NoSessionNoRequest(w: World, o: Oracle, env: Config.Env, request: Request)
    requires Config.SessionCookieName(env) !in w.jar
    ensures SessionUpdateSpec(w, o, env, request) == Exchange(w, Failed(NoSessionFound))
    ensures CurrentUserSpec(w, o, env) == Lookup(w, None)
    ensures SignOutSpec(w, env) == SignOutExchange(w, Threw(NoSessionFound))
  {
  }

  /** The recovery form passes a provider error through to the banner: when the
      provider rejects an address with a message, the visitor sees that message
      instead of the generic "if an account exists" text. */
  lemma RecoveryErrorReachesBanner(w: World, o: Oracle, env: Config.Env, email: string)
    requires o.acknowledge(RecoveryCall(env, email)).Err?
    requires o.acknowledge(RecoveryCall(env, email)).message != ""
    ensures ForgotPassword.StatusAfter(ForgotPasswordSpec(w, o, env, email).result)
         == ForgotPassword.Status(o.acknowledge(RecoveryCall(env, email)).message, false)
  {
  }
}
