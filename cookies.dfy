/** The response cookie store that `cookies()` hands to server code. */
module Cookies {
  import opened Outcomes

  datatype SameSite = Strict | Lax | NoRestriction

  /** The options object passed to `cookieStore.set`. */
  datatype CookieOptions = CookieOptions(path: string, httpOnly: bool, sameSite: SameSite, secure: bool)

  datatype Cookie = Cookie(value: string, options: CookieOptions)

  /** `{ path: "/", httpOnly: true, sameSite: "strict", secure: true }` */
  const SessionCookieOptions: CookieOptions := CookieOptions("/", true, Strict, true)

  /** The cookies as the browser sends them back on the next request: name to value. */
  function RequestCookies(jar: map<string, Cookie>): (cookies: map<string, string>)
    ensures cookies.Keys == jar.Keys
    ensures forall name :: name in jar ==> cookies[name] == jar[name].value
  {
    map name | name in jar :: jar[name].value
  }

  class CookieStore {
    var jar: map<string, Cookie>

    constructor (initial: map<string, Cookie>)
      ensures jar == initial
    {
      jar := initial;
    }

    /** `cookieStore.get(name)`: the cookie object, or undefined. */
    method Get(name: string) returns (c: Option<Cookie>)
      ensures c.Some? <==> name in jar
      ensures c.Some? ==> c.value == jar[name]
    {
      c := if name in jar then Some(jar[name]) else None;
    }

    /** `cookieStore.set(name, value, options)` */
    method Set(name: string, value: string, options: CookieOptions)
      modifies this
      ensures jar == old(jar)[name := Cookie(value, options)]
    {
      jar := jar[name := Cookie(value, options)];
    }

    /** `cookieStore.delete(name)` */
    method Delete(name: string)
      modifies this
      ensures jar == old(jar) - {name}
    {
      jar := jar - {name};
    }
  }
}
