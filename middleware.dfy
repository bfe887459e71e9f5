/** The edge gate: a routing decision made on every matched request from the
    path and the mere presence of the session cookie (src/middleware.ts). */
module Middleware {
  import Config

  /** `NextResponse.redirect(new URL(location, request.url))` or `NextResponse.next()`. */
  datatype Response = RedirectTo(location: string) | Next

  const ProtectedRoutes: seq<string> := ["/account"]
  const AuthRoutes: seq<string> := ["/login", "/register", "/forgot-password"]

  /** `s.startsWith(prefix)` */
  predicate StartsWith(s: string, prefix: string)
  {
    |prefix| <= |s| && s[..|prefix|] == prefix
  }

  /** `routes.some((route) => pathname.startsWith(route))` */
  function SomeRouteIsPrefix(routes: seq<string>, pathname: string): (b: bool)
    ensures b <==> exists i :: 0 <= i < |routes| && StartsWith(pathname, routes[i])
  {
    if routes == [] then false
    else if StartsWith(pathname, routes[0]) then true
    else
      var rest := SomeRouteIsPrefix(routes[1..], pathname);
      assert forall i :: 1 <= i < |routes| ==> routes[i] == routes[1..][i - 1];
      rest
  }

  /** `routes.includes(pathname)` */
  function Includes(routes: seq<string>, pathname: string): (b: bool)
    ensures b <==> pathname in routes
  {
    if routes == [] then false
    else routes[0] == pathname || Includes(routes[1..], pathname)
  }

  /** A path the gate treats as protected: prefix match, so "/accounts" is one. */
  predicate IsProtected(pathname: string)
  {
    StartsWith(pathname, "/account")
  }

  /** A path the gate treats as an auth page: exact match, so "/auth/login" is not one. */
  predicate IsAuthRoute(pathname: string)
  {
    pathname == "/login" || pathname == "/register" || pathname == "/forgot-password"
  }

  /** `middleware(request)`: `cookies` holds the request's cookies by name. */
  function Decide(pathname: string, cookies: map<string, string>, env: Config.Env): (r: Response)
    ensures r == RedirectTo("/login") <==> IsProtected(pathname) && Config.SessionCookieName(env) !in cookies
    ensures r == RedirectTo("/account") <==> IsAuthRoute(pathname) && Config.SessionCookieName(env) in cookies
    ensures r == Next <==>
      !(IsProtected(pathname) && Config.SessionCookieName(env) !in cookies) &&
      !(IsAuthRoute(pathname) && Config.SessionCookieName(env) in cookies)
  {
    var session := Config.SessionCookieName(env) in cookies;
    if SomeRouteIsPrefix(ProtectedRoutes, pathname) && !session then RedirectTo("/login")
    else if Includes(AuthRoutes, pathname) && session then RedirectTo("/account")
    else Next
  }

  /** The remainder after the leading "/" that `config.matcher`,
      `/((?!api|_next/static|_next/image|favicon.ico).*)`, refuses. The pattern is a
      regular expression, so the "." of "favicon.ico" stands for any character. */
  predicate ExcludedRemainder(rest: string)
  {
    || StartsWith(rest, "api")
    || StartsWith(rest, "_next/static")
    || StartsWith(rest, "_next/image")
    || (|rest| >= 11 && rest[..7] == "favicon" && rest[8..11] == "ico")
  }

  /** Whether the middleware runs for a request to `pathname` at all. */
  predicate Matched(pathname: string)
  {
    |pathname| >= 1 && pathname[0] == '/' && !ExcludedRemainder(pathname[1..])
  }

  /** The matcher as written: the excluded names are prefixes of the remainder, not
      whole segments, and the "." of "favicon.ico" matches any character. */
  lemma MatcherAsWritten()
    ensures !Matched("/api/users") && !Matched("/apiary")
    ensures !Matched("/_next/static/chunk.js") && !Matched("/_next/image")
    ensures !Matched("/favicon.ico") && !Matched("/favicon-ico")
    ensures Matched("/") && Matched("/account") && Matched("/auth/login") && Matched("/_next/data")
  {
    assert "/apiary"[1..][..3] == "api";
    assert "/api/users"[1..][..3] == "api";
    assert "/_next/static/chunk.js"[1..][..12] == "_next/static";
    assert "/_next/image"[1..][..11] == "_next/image";
    assert Matched("/") by {
      assert "/"[1..] == "";
    }
    assert Matched("/account") by {
      assert "/account"[1..] == "account";
      assert "account"[..3][1] == 'c' != "api"[1];
    }
    assert Matched("/auth/login") by {
      assert "/auth/login"[1..] == "auth/login";
      assert "auth/login"[..3][1] == 'u' != "api"[1];
    }
    assert Matched("/_next/data") by {
      assert "/_next/data"[1..] == "_next/data";
      assert "_next/data"[..3][0] == '_' != "api"[0];
    }
  }

  /** The response a request gets from the edge: unmatched paths are not gated. */
  function EdgeGate(pathname: string, cookies: map<string, string>, env: Config.Env): (r: Response)
    ensures !Matched(pathname) ==> r == Next
  {
    if Matched(pathname) then Decide(pathname, cookies, env) else Next
  }

  /** No path is both protected and an auth page, so at most one redirect applies. */
  lemma ProtectedAndAuthDisjoint(pathname: string)
    ensures !(IsProtected(pathname) && IsAuthRoute(pathname))
  {
    assert IsProtected(pathname) ==> pathname[1] == "/account"[1] == 'a';
  }

  /** The decision reads only whether the cookie exists, never its value or any other cookie. */
  lemma OnlyPresenceMatters(pathname: string, c1: map<string, string>, c2: map<string, string>, env: Config.Env)
    requires (Config.SessionCookieName(env) in c1) == (Config.SessionCookieName(env) in c2)
    ensures Decide(pathname, c1, env) == Decide(pathname, c2, env)
  {
  }

  /** The exclusion pattern never hides a gated path: the edge response equals the
      middleware's own decision on every path that starts with "/". */
  lemma MatcherHidesNoGatedPath(pathname: string, cookies: map<string, string>, env: Config.Env)
    requires |pathname| >= 1 && pathname[0] == '/'
    ensures EdgeGate(pathname, cookies, env) == Decide(pathname, cookies, env)
  {
    var rest := pathname[1..];
    // first letters of the gated paths' remainders ...
    assert IsProtected(pathname) ==> rest[0] == 'a' && rest[1] == 'c';
    assert pathname == "/login" ==> rest[0] == 'l';
    assert pathname == "/register" ==> rest[0] == 'r';
    assert pathname == "/forgot-password" ==> rest[0] == 'f' && rest[1] == 'o';
    // ... differ from those of every excluded remainder
    assert StartsWith(rest, "api") ==> rest[0] == 'a' && rest[1] == 'p';
    assert StartsWith(rest, "_next/static") || StartsWith(rest, "_next/image") ==> rest[0] == '_';
    assert |rest| >= 11 && rest[..7] == "favicon" ==> rest[0] == 'f' && rest[1] == 'a';
  }

  /** Prefix matching protects look-alikes, exact matching lets near-misses of the
      auth pages through, and the real pages under "/auth" are not auth routes. */
  lemma RouteMatchingAsWritten(env: Config.Env)
    ensures Decide("/account/x", map[], env) == RedirectTo("/login")
    ensures Decide("/accounts", map[], env) == RedirectTo("/login")
    ensures Decide("/login", map[Config.SessionCookieName(env) := ""], env) == RedirectTo("/account")
    ensures Decide("/login/", map[Config.SessionCookieName(env) := ""], env) == Next
    ensures Decide("/auth/login", map[Config.SessionCookieName(env) := ""], env) == Next
    ensures Decide("/account", map[Config.SessionCookieName(env) := ""], env) == Next
  {
    assert IsProtected("/account/x") by { assert "/account/x"[..8] == "/account"; }
    assert IsProtected("/accounts") by { assert "/accounts"[..8] == "/account"; }
    assert !IsProtected("/login") by { assert "/login"[1] != "/account"[1]; }
    assert !IsProtected("/login/") by { assert "/login/"[1] != "/account"[1]; }
    assert !IsProtected("/auth/login") by { assert "/auth/login"[2] != "/account"[2]; }
  }
}
