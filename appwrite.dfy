/** The identity provider as the core sees it: requests sent through a configured
    handle, each answered by an abstract oracle with a value or an error message. */
module Appwrite {
  import opened Outcomes

  /** The account record `account.get()` returns. */
  datatype User = User(
    id: string,
    name: string,
    username: Option<string>,
    email: string,
    emailVerification: bool,
    createdAt: string)

  /** The configuration a request is sent with: a server `Client` (endpoint,
      project, optional API key, optional session secret), or the browser-side
      account object of a module this model does not contain. */
  datatype Handle =
    | Server(endpoint: string, project: string, key: Option<string>, session: Option<string>)
    | BrowserClient

  /** The account operations the core invokes, with their arguments. */
  datatype Request =
    | Create(userId: string, email: string, password: string, name: string)
    | CreateEmailPasswordSession(email: string, password: string)
    | Get
    | DeleteSessions
    | UpdatePassword(password: string, oldPassword: string)
    | UpdateEmail(email: string, password: string)
    | CreateRecovery(email: string, url: string)
    | UpdateRecovery(password: string, secret: string, userId: string)

  datatype Call = Call(via: Handle, request: Request)

  /** How the provider answers: `openSession` gives the secret of a new session,
      `identify` the user behind a session, `acknowledge` the outcome of every
      request whose returned value the core does not use. */
  datatype Oracle = Oracle(
    acknowledge: Call -> Outcome<()>,
    openSession: Call -> Outcome<string>,
    identify: Call -> Outcome<User>)

  class Provider {
    /** Every request received, in order. */
    var log: seq<Call>
    const answers: Oracle

    constructor (answers: Oracle)
      ensures log == [] && this.answers == answers
    {
      log := [];
      this.answers := answers;
    }

    method Acknowledge(c: Call) returns (r: Outcome<()>)
      modifies this
      ensures log == old(log) + [c] && r == answers.acknowledge(c)
    {
      log := log + [c];
      r := answers.acknowledge(c);
    }

    method OpenSession(c: Call) returns (r: Outcome<string>)
      modifies this
      ensures log == old(log) + [c] && r == answers.openSession(c)
    {
      log := log + [c];
      r := answers.openSession(c);
    }

    method Identify(c: Call) returns (r: Outcome<User>)
      modifies this
      ensures log == old(log) + [c] && r == answers.identify(c)
    {
      log := log + [c];
      r := answers.identify(c);
    }
  }
}
