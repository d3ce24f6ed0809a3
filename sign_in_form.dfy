/**
 * The sign-in view: its zod schema, the `errorMessage` state cell, the
 * `onSubmit` handler that awaits `authClient.signIn.email` inside a try/catch,
 * and the two social-provider buttons.
 */
module SignInForm {
  import opened Auth

  /** The form's two fields. */
  datatype Values = Values(email: string, password: string)

  datatype Field = Email | Password

  /** The schema's messages, each shown under its field. */
  datatype Message = InvalidEmail | PasswordTooShort {
    function Text(): (t: string)
      ensures t != ""
    {
      match this
      case InvalidEmail => "Please enter a valid email"
      case PasswordTooShort => "Password must be at least 8 characters"
    }
  }

  /** Each rule has its own message: no two messages share a text. */
  lemma TextDistinct(m1: Message, m2: Message)
    ensures m1 != m2 ==> m1.Text() != m2.Text()
  {
  }

  datatype Issue = Issue(field: Field, message: Message)

  const SignInFailed := "Sign-in failed"

  /**
   * The issues the schema reports for `v`, email first. `isEmail` stands for zod's
   * email check, which this model leaves uninterpreted.
   */
  function Issues(v: Values, isEmail: string -> bool): (issues: seq<Issue>)
    ensures |issues| == 0 <==> isEmail(v.email) && |v.password| >= 8
    ensures Issue(Email, InvalidEmail) in issues <==> !isEmail(v.email)
    ensures Issue(Password, PasswordTooShort) in issues <==> |v.password| < 8
    ensures forall x :: x in issues ==> x in [Issue(Email, InvalidEmail), Issue(Password, PasswordTooShort)]
  {
    (if isEmail(v.email) then [] else [Issue(Email, InvalidEmail)])
    + (if |v.password| >= 8 then [] else [Issue(Password, PasswordTooShort)])
  }

  /** The call `onSubmit` makes: email and password, and nothing else. */
  function SignInRequest(v: Values): (r: Request)
    ensures r.SignInEmail? && r.email == v.email && r.password == v.password
  {
    SignInEmail(v.email, v.password)
  }

  /**
   * What `onSubmit` does once the call settles. The resolved value is never looked
   * at, so every outcome but a throw pushes `/`; a throw writes its message, or
   * "Sign-in failed" when it has none, and pushes nothing.
   */
  function SubmitReaction(outcome: Outcome): (r: Reaction)
    ensures r.push.Some? <==> !outcome.Threw?
    ensures r.push.Some? ==> r.push.value == HomeRoute && r.push.value.Href() == "/" && r.write.None?
    ensures r.write.Some? <==> outcome.Threw?
    ensures outcome.Threw? ==> r.write == Some(MessageOr(outcome.message, SignInFailed)) && r.write.value != ""
  {
    if outcome.Threw? then Reaction(Some(MessageOr(outcome.message, SignInFailed)), None)
    else Reaction(None, Some(HomeRoute))
  }

  /**
   * A service error that is returned rather than thrown (bad credentials, say)
   * still lands on `/`, and no message is shown.
   */
  lemma ServiceErrorStillNavigatesHome(error: string)
    ensures SubmitReaction(Rejected(error)) == Reaction(None, Some(HomeRoute))
  {
  }

  /**
   * The mounted view. `values` is the form state the inputs edit; `sent` and
   * `pushes` record the calls made on `authClient` and the router.
   */
  class SignInView {
    var values: Values
    var errorMessage: string
    var sent: seq<Request>
    var pushes: seq<Route>

    /** Mounting: empty defaults, an empty `errorMessage`, so no alert. */
    constructor ()
      ensures values == Values("", "") && errorMessage == ""
      ensures sent == [] && pushes == []
      ensures Alert().None?
    {
      values := Values("", "");
      errorMessage := "";
      sent := [];
      pushes := [];
    }

    function Alert(): Option<string>
      reads this
    {
      AlertFor(errorMessage)
    }

    /** The visitor edits the fields. */
    method Edit(v: Values)
      modifies this`values
      ensures values == v
    {
      values := v;
    }

    /**
     * `form.handleSubmit(onSubmit)`: `onSubmit` runs only when the schema passes;
     * otherwise no call is made and neither cell nor router is touched.
     */
    method Submit(isEmail: string -> bool, outcome: Outcome)
      modifies this
      ensures values == old(values)
      ensures Issues(values, isEmail) != [] ==>
        sent == old(sent) && errorMessage == old(errorMessage) && pushes == old(pushes)
      ensures Issues(values, isEmail) == [] ==>
        && sent == old(sent) + [SignInRequest(values)]
        && errorMessage == Written(old(errorMessage), SubmitReaction(outcome).write)
        && pushes == old(pushes) + Pushed(SubmitReaction(outcome).push)
    {
      if Issues(values, isEmail) == [] {
        OnSubmit(values, outcome);
      }
    }

    /**
     * `onSubmit`: await the call, then push `/`; the catch writes the message.
     * The failure path writes `errorMessage` only; form values are left alone.
     */
    method OnSubmit(v: Values, outcome: Outcome)
      modifies this
      ensures values == old(values)
      ensures sent == old(sent) + [SignInRequest(v)]
      ensures errorMessage == Written(old(errorMessage), SubmitReaction(outcome).write)
      ensures pushes == old(pushes) + Pushed(SubmitReaction(outcome).push)
    {
      sent := sent + [SignInRequest(v)];
      if outcome.Threw? {
        errorMessage := MessageOr(outcome.message, SignInFailed);
      } else {
        pushes := pushes + [HomeRoute];
      }
    }

    /**
     * The Google and Github buttons: `authClient.signIn.social` with the provider's
     * name, with no validation, no error handling and no navigation of their own.
     */
    method SocialSignIn(provider: Provider)
      modifies this`sent
      ensures sent == old(sent) + [SignInSocial(provider.Name())]
    {
      sent := sent + [SignInSocial(provider.Name())];
    }
  }
}
