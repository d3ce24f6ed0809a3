/**
 * The root page: the same nullable `session` cell and single mount-time lookup
 * as the home view, "Loading..." while the cell is null, and a line naming the
 * logged-in user once it is not.
 */
module RootPage {
  import opened Auth

  datatype Screen = Loading | LoggedIn(text: string)

  const Greeting := "User is logged in as "

  /** The rendered line: the greeting followed by the name, or by nothing when the name is null. */
  function GreetingFor(user: User): (text: string)
    ensures |text| >= |Greeting| && text[..|Greeting|] == Greeting
    ensures text[|Greeting|..] == if user.name.Some? then user.name.value else ""
  {
    Greeting + (if user.name.Some? then user.name.value else "")
  }

  /** "Loading..." exactly while the cell is null; the greeting for the cell's user otherwise. */
  function ScreenFor(cell: Option<Session>): (s: Screen)
    ensures s.Loading? <==> cell.None?
    ensures s.LoggedIn? ==> s.text == GreetingFor(cell.value.user)
  {
    if cell.None? then Loading else LoggedIn(GreetingFor(cell.value.user))
  }

  class Page {
    var session: Option<Session>
    /** The mount effect's lookup has not settled yet. */
    var pending: bool
    var sent: seq<Request>

    /** One lookup, issued on mount; while it is pending the cell is still null. */
    ghost predicate Valid()
      reads this
    {
      sent == [GetSession] && (pending ==> session.None?)
    }

    /** Mounting: the cell is null and the effect issues its one lookup. */
    constructor ()
      ensures Valid()
      ensures session == None && pending
      ensures Render() == Loading
    {
      session := None;
      pending := true;
      sent := [GetSession];
    }

    function Render(): Screen
      reads this
    {
      ScreenFor(session)
    }

    /** The lookup settles: `if (result.data) setSession(result.data)`. */
    method LookupSettled(result: Lookup)
      requires Valid() && pending
      modifies this`session, this`pending
      ensures Valid() && !pending
      ensures session == AfterLookup(old(session), result)
      ensures Render().Loading? <==> !result.Data?
      ensures result.Data? ==> Render() == LoggedIn(GreetingFor(result.session.user))
    {
      if result.Data? {
        session := Some(result.session);
      }
      pending := false;
    }
  }
}
