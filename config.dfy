/** Process environment read by the server code, and what is derived from it. */
module Config {
  import opened Outcomes

  /** The environment variables the core reads. Unset variables that the code
      asserts with `!` are just strings here; `None` is an unset optional one. */
  datatype Env = Env(
    appwriteEndpoint: string,     // NEXT_PUBLIC_APPWRITE_ENDPOINT
    appwriteProjectId: string,    // NEXT_PUBLIC_APPWRITE_PROJECT_ID
    appwriteApiKey: string,       // APPWRITE_API_KEY
    cookieName: Option<string>,   // NEXT_PUBLIC_COOKIE_NAME
    nodeEnv: Option<string>)      // NODE_ENV

  const DefaultCookieName: string := "_session"

  /** `process.env.NEXT_PUBLIC_COOKIE_NAME || "_session"`, the one name used by the
      middleware, the session client and every action that sets or deletes the cookie. */
  function SessionCookieName(env: Env): (name: string)
    ensures name != ""
    ensures Truthy(env.cookieName) ==> name == env.cookieName.value
    ensures !Truthy(env.cookieName) ==> name == DefaultCookieName
  {
    if env.cookieName.Some? then OrElse(env.cookieName.value, DefaultCookieName) else DefaultCookieName
  }
}
