/**
 * The dashboard user button: which of three views it shows for the
 * `useSession()` state, the avatar initials and display name, and `handleLogout`.
 */
module UserButton {
  import opened Auth
  import Text

  /** What the component renders. `target` is where the Sign In button's click goes. */
  datatype View =
    | Skeleton
    | SignInButton(target: Route)
    | Menu(initials: string, displayName: string, email: string)

  /**
   * The avatar fallback. With a truthy name: the upper-cased first character of each
   * space-separated word, at most two of them; a name of spaces only gives "", with
   * no fall-back to the email. Without one: the first two characters of the email,
   * upper-cased.
   */
  function Initials(user: User): (r: string)
    ensures |r| <= 2
    ensures Truthy(user.name) ==> r == Text.Take(Text.Upper(Text.WordStarts(user.name.value, ' ')), 2)
    ensures !Truthy(user.name) ==> r == Text.Take(Text.Upper(user.email), 2)
    ensures !Truthy(user.name) ==> |r| == Text.Min(2, |user.email|)
    ensures !Truthy(user.name) ==> forall i :: 0 <= i < |r| ==> r[i] == Text.UpperChar(user.email[i])
  {
    if Truthy(user.name) then
      var name := user.name.value;
      Text.FirstCharsOfSplit(name, ' ');
      Text.Take(Text.Upper(Text.FirstChars(Text.Split(name))), 2)
    else
      Text.TakeUpper(user.email, 2);
      Text.Upper(Text.Take(user.email, 2))
  }

  /** Every initial is an upper-cased character of the name, or of the email when there is no name. */
  lemma InitialsFromUser(user: User)
    ensures Truthy(user.name) ==>
      forall i :: 0 <= i < |Initials(user)| ==>
        exists j :: 0 <= j < |user.name.value| && user.name.value[j] != ' ' && Initials(user)[i] == Text.UpperChar(user.name.value[j])
    ensures !Truthy(user.name) ==>
      forall i :: 0 <= i < |Initials(user)| ==> Initials(user)[i] == Text.UpperChar(user.email[i])
  {
    if Truthy(user.name) {
      var name := user.name.value;
      var starts := Text.WordStarts(name, ' ');
      Text.WordStartsIn(name, ' ');
      forall i | 0 <= i < |Initials(user)|
        ensures exists j :: 0 <= j < |name| && name[j] != ' ' && Initials(user)[i] == Text.UpperChar(name[j])
      {
        assert Initials(user)[i] == Text.UpperChar(starts[i]);
        assert starts[i] in name;
        var j :| 0 <= j < |name| && name[j] == starts[i];
      }
    }
  }

  /** The name shown in the menu: `user.name || 'User'`, so never blank. */
  function DisplayName(user: User): (r: string)
    ensures r != ""
    ensures Truthy(user.name) ==> r == user.name.value
    ensures !Truthy(user.name) ==> r == "User"
  {
    if Truthy(user.name) then user.name.value else "User"
  }

  /**
   * The three-way choice: loading is checked first, so the skeleton shows whatever
   * the session; then no session gives the Sign In button (to `/sign-in`); then the menu.
   */
  function Select(isLoading: bool, session: Option<Session>): (v: View)
    ensures v.Skeleton? <==> isLoading
    ensures v.SignInButton? <==> !isLoading && session.None?
    ensures v.SignInButton? ==> v.target == SignInRoute
    ensures v.Menu? <==> !isLoading && session.Some?
    ensures v.Menu? ==> |v.initials| <= 2 && v.displayName != "" && v.email == session.value.user.email
    ensures v.Menu? ==> v.initials == Initials(session.value.user) && v.displayName == DisplayName(session.value.user)
  {
    if isLoading then Skeleton
    else if session.None? then SignInButton(SignInRoute)
    else
      var user := session.value.user;
      Menu(Initials(user), DisplayName(user), user.email)
  }

  /**
   * `handleLogout`: `signOut` with an `onSuccess` that pushes `/sign-in`, and a catch
   * that pushes it too. A call that resolves without calling `onSuccess` (a service
   * error returned, not thrown) pushes nothing.
   */
  method HandleLogout(outcome: Outcome) returns (request: Request, push: Option<Route>)
    ensures request == SignOut
    ensures push.Some? <==> outcome.Succeeded? || outcome.Threw?
    ensures push.Some? ==> push.value == SignInRoute
  {
    request := SignOut;
    push := None;
    match outcome {
      case Succeeded =>
        push := Some(SignInRoute);
      case Threw(_) =>
        push := Some(SignInRoute);
      case Rejected(_) =>
      case Settled =>
    }
  }
}
