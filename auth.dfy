/**
 * The boundary the views talk to: the better-auth client (`authClient`), the
 * Next router, and the session record the client hands back.
 *
 * The client itself is not modelled. A view issues a Request; how the awaited
 * call settles is an Outcome supplied by the caller of the model, and the
 * view's answer to it is a Reaction: at most one write to its `errorMessage`
 * cell and at most one `router.push`.
 */
module Auth {

  datatype Option<T> = None | Some(value: T)

  /** The paths the views push onto the router. */
  datatype Route = HomeRoute | SignInRoute | SignUpRoute {
    function Href(): (h: string)
      ensures |h| >= 1 && h[0] == '/'
    {
      match this
      case HomeRoute => "/"
      case SignInRoute => "/sign-in"
      case SignUpRoute => "/sign-up"
    }
  }

  /** The user inside a session. `name` may be null; `email` is always there. */
  datatype User = User(name: Option<string>, email: string)

  /** `result.data` of a session lookup, and `data` of `useSession()`. */
  datatype Session = Session(user: User)

  /** JavaScript truthiness of a string that may be null: present and non-empty. */
  predicate Truthy(s: Option<string>)
    ensures Truthy(s) <==> s != None && s != Some("")
  {
    s.Some? && s.value != ""
  }

  /** The social providers the sign-in view offers, by the name it passes. */
  datatype Provider = Google | Github {
    function Name(): string {
      match this
      case Google => "google"
      case Github => "github"
    }
  }

  /** A call on `authClient`, carrying exactly the fields the view passes. */
  datatype Request =
    | SignUpEmail(email: string, password: string, name: string)
    | SignInEmail(email: string, password: string)
    | SignInSocial(provider: string)
    | SignOut
    | GetSession

  /**
   * How an awaited `authClient` call settles, as its caller sees it:
   * - Succeeded: the promise resolves and the `onSuccess` callback (if one was passed) runs;
   * - Rejected: the promise resolves and the `onError` callback (if one was passed) runs
   *   with the service's message, `error`;
   * - Settled: the promise resolves and no callback runs;
   * - Threw: the promise rejects; `message` is the thrown value's `message`, if any.
   */
  datatype Outcome =
    | Succeeded
    | Rejected(error: string)
    | Settled
    | Threw(message: Option<string>)

  /** `error?.message || fallback`: the thrown message unless it is missing or empty. */
  function MessageOr(message: Option<string>, fallback: string): (r: string)
    ensures Truthy(message) ==> r == message.value
    ensures !Truthy(message) ==> r == fallback
    ensures fallback != "" ==> r != ""
  {
    if Truthy(message) then message.value else fallback
  }

  /** A handler's answer to an outcome: a write to `errorMessage`, a route to push. */
  datatype Reaction = Reaction(write: Option<string>, push: Option<Route>)

  /** The alert under a credential form: shown exactly when `errorMessage` is non-empty, with that text. */
  function AlertFor(errorMessage: string): (shown: Option<string>)
    ensures shown.Some? <==> errorMessage != ""
    ensures shown.Some? ==> shown.value == errorMessage
  {
    if errorMessage != "" then Some(errorMessage) else None
  }

  /** The `errorMessage` cell after a handler that writes `write`, if anything. */
  function Written(cell: string, write: Option<string>): string {
    if write.Some? then write.value else cell
  }

  /** The router pushes a handler makes: none, or the one route. */
  function Pushed(push: Option<Route>): seq<Route> {
    if push.Some? then [push.value] else []
  }

  /** How `await authClient.getSession()` settles in a mount effect. */
  datatype Lookup =
    | Data(session: Session)  // `result.data` is a session object (truthy)
    | NoData                  // `result.data` is null (falsy)
    | LookupThrew             // the promise rejects; nobody catches it

  /**
   * The `session` cell after the mount effect's `if (result.data) setSession(result.data)`:
   * written only with data, and a cell that holds a session keeps holding one.
   */
  function AfterLookup(cell: Option<Session>, result: Lookup): (r: Option<Session>)
    ensures result.Data? ==> r == Some(result.session)
    ensures !result.Data? ==> r == cell
    ensures cell.Some? ==> r.Some?
    ensures r.None? <==> cell.None? && !result.Data?
  {
    if result.Data? then Some(result.session) else cell
  }
}
