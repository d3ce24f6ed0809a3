/**
 * The home view: a nullable `session` cell that the mount effect writes once
 * its single `getSession` lookup settles, "Loading..." while the cell is null,
 * and a sign-out button once it is not.
 */
module HomeView {
  import opened Auth

  datatype Screen = Loading | SignOutButton

  /** "Loading..." exactly while the cell is null; the sign-out button otherwise. */
  function ScreenFor(cell: Option<Session>): (s: Screen)
    ensures s == Loading <==> cell.None?
    ensures s == SignOutButton <==> cell.Some?
  {
    if cell.None? then Loading else SignOutButton
  }

  /** The sign-out button's only navigation: `onSuccess` pushes `/sign-in`; nothing catches a throw. */
  function SignOutPush(outcome: Outcome): (push: Option<Route>)
    ensures push.Some? <==> outcome.Succeeded?
    ensures push.Some? ==> push.value == SignInRoute
  {
    if outcome.Succeeded? then Some(SignInRoute) else None
  }

  class Home {
    var session: Option<Session>
    /** The mount effect's lookup has not settled yet. */
    var pending: bool
    var sent: seq<Request>
    var pushes: seq<Route>

    /**
     * One lookup, issued on mount, and after it only sign-out calls; while the lookup
     * is pending the cell is still null.
     */
    ghost predicate Valid()
      reads this
    {
      && |sent| >= 1 && sent[0] == GetSession
      && (forall i :: 1 <= i < |sent| ==> sent[i] == SignOut)
      && (pending ==> session.None? && |sent| == 1)
    }

    /** Mounting: the cell is null and the effect issues its one lookup. */
    constructor ()
      ensures Valid()
      ensures session == None && pending && sent == [GetSession] && pushes == []
      ensures Render() == Loading
    {
      session := None;
      pending := true;
      sent := [GetSession];
      pushes := [];
    }

    function Render(): Screen
      reads this
    {
      ScreenFor(session)
    }

    /** The lookup settles: `if (result.data) setSession(result.data)`. */
    method LookupSettled(result: Lookup)
      requires Valid() && pending
      modifies this`session, this`pending
      ensures Valid() && !pending
      ensures session == AfterLookup(old(session), result)
      ensures Render() == Loading <==> !result.Data?
    {
      if result.Data? {
        session := Some(result.session);
      }
      pending := false;
    }

    /**
     * The sign-out button, which exists only while the cell holds a session. The cell
     * is never cleared; the only navigation is the success callback's.
     */
    method SignOutClicked(outcome: Outcome)
      requires Valid() && session.Some?
      modifies this`sent, this`pushes
      ensures Valid()
      ensures sent == old(sent) + [SignOut]
      ensures pushes == old(pushes) + Pushed(SignOutPush(outcome))
    {
      sent := sent + [SignOut];
      if outcome.Succeeded? {
        pushes := pushes + [SignInRoute];
      }
    }
  }
}
