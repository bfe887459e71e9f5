/** Server-side client factories (src/lib/appwrite-server.ts). */
module AppwriteServer {
  import opened Outcomes
  import Config
  import Cookies
  import opened Appwrite

  const NoSessionFound: string := "No session found"

  /** The SDK's `Client`, configured step by step by its setters. */
  class Client {
    var endpoint: string
    var project: string
    var key: Option<string>
    var session: Option<string>

    constructor ()
      ensures key == None && session == None
    {
      endpoint, project, key, session := "", "", None, None;
    }

    /** The configuration every request through this client carries. */
    function Handle(): Handle
      reads this
    {
      Server(endpoint, project, key, session)
    }

    method SetEndpoint(e: string)
      modifies this
      ensures endpoint == e && project == old(project) && key == old(key) && session == old(session)
    {
      endpoint := e;
    }

    method SetProject(p: string)
      modifies this
      ensures project == p && endpoint == old(endpoint) && key == old(key) && session == old(session)
    {
      project := p;
    }

    method SetKey(k: string)
      modifies this
      ensures key == Some(k) && endpoint == old(endpoint) && project == old(project) && session == old(session)
    {
      key := Some(k);
    }

    method SetSession(s: string)
      modifies this
      ensures session == Some(s) && endpoint == old(endpoint) && project == old(project) && key == old(key)
    {
      session := Some(s);
    }
  }

  /** The handle of the admin client: endpoint, project and API key, no session. */
  function AdminHandle(env: Config.Env): (h: Handle)
    ensures h.Server? && h.key == Some(env.appwriteApiKey) && h.session == None
    ensures h.endpoint == env.appwriteEndpoint && h.project == env.appwriteProjectId
  {
    Server(env.appwriteEndpoint, env.appwriteProjectId, Some(env.appwriteApiKey), None)
  }

  /** What `createSessionClient` yields for a cookie jar: the error "No session found"
      exactly when the session cookie is absent, otherwise a handle bound to the
      cookie's value that never carries the API key. */
  function SessionHandle(env: Config.Env, jar: map<string, Cookies.Cookie>): (r: Outcome<Handle>)
    ensures r.Err? <==> Config.SessionCookieName(env) !in jar
    ensures r.Err? ==> r.message == NoSessionFound
    ensures r.Ok? ==> r.value.Server? && r.value.key == None
    ensures r.Ok? ==> r.value.session == Some(jar[Config.SessionCookieName(env)].value)
    ensures r.Ok? ==> r.value.endpoint == env.appwriteEndpoint && r.value.project == env.appwriteProjectId
  {
    var name := Config.SessionCookieName(env);
    if name !in jar then Err(NoSessionFound)
    else Ok(Server(env.appwriteEndpoint, env.appwriteProjectId, None, Some(jar[name].value)))
  }

  /** `createAdminClient()`: reads no cookie and cannot fail. */
  method CreateAdminClient(env: Config.Env) returns (client: Client)
    ensures fresh(client)
    ensures client.Handle() == AdminHandle(env)
  {
    client := new Client();
    client.SetEndpoint(env.appwriteEndpoint);
    client.SetProject(env.appwriteProjectId);
    client.SetKey(env.appwriteApiKey);
  }

  /** `createSessionClient()`: throws before binding anything when the cookie is missing. */
  method CreateSessionClient(env: Config.Env, store: Cookies.CookieStore) returns (r: Outcome<Client>)
    ensures r.Err? ==> SessionHandle(env, store.jar) == Err(r.message)
    ensures r.Ok? ==> fresh(r.value) && SessionHandle(env, store.jar) == Ok(r.value.Handle())
  {
    var client := new Client();
    client.SetEndpoint(env.appwriteEndpoint);
    client.SetProject(env.appwriteProjectId);
    var session := store.Get(Config.SessionCookieName(env));
    if session.None? {
      return Err(NoSessionFound);
    }
    client.SetSession(session.value.value);
    r := Ok(client);
  }
}
