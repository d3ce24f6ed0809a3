/**
 * The sign-up view: its zod schema, the `errorMessage` state cell, and the
 * `onSubmit` handler that calls `authClient.signUp.email` with `onSuccess` and
 * `onError` callbacks inside a try/catch.
 */
module SignUpForm {
  import opened Auth

  /** The form's four fields. */
  datatype Values = Values(name: string, email: string, password: string, confirmPassword: string)

  datatype Field = Name | Email | Password | ConfirmPassword

  /** Where a schema issue is recorded: on a field, or on the form object itself. */
  datatype IssuePath = FormRoot | At(field: Field)

  /** The schema's messages, each shown under its field. */
  datatype Message = NameTooShort | InvalidEmail | PasswordTooShort | ConfirmTooShort | Mismatch {
    function Text(): (t: string)
      ensures t != ""
    {
      match this
      case NameTooShort => "Name must be at least 2 characters"
      case InvalidEmail => "Please enter a valid email"
      case PasswordTooShort => "Password must be at least 8 characters"
      case ConfirmTooShort => "Please confirm your password"
      case Mismatch => "Passwords don't match"
    }
  }

  /** Each rule has its own message: no two messages share a text. */
  lemma TextDistinct(m1: Message, m2: Message)
    ensures m1 != m2 ==> m1.Text() != m2.Text()
  {
  }

  datatype Issue = Issue(path: IssuePath, message: Message)

  const SignUpFailed := "Sign-up failed"

  /** Every issue the schema can report: one per field rule, and the refine's. */
  const AllIssues := [Issue(At(Name), NameTooShort), Issue(At(Email), InvalidEmail),
    Issue(At(Password), PasswordTooShort), Issue(At(ConfirmPassword), ConfirmTooShort),
    Issue(At(ConfirmPassword), Mismatch)]

  /** One schema check: no issue when it holds. */
  function Check(ok: bool, issue: Issue): (r: seq<Issue>)
    ensures |r| == if ok then 0 else 1
    ensures forall x :: x in r <==> !ok && x == issue
  {
    if ok then [] else [issue]
  }

  /**
   * The issues the schema reports for `v`: the four field checks in the order the
   * fields are declared, then the cross-field refine, recorded on `confirmPassword`.
   * Field checks that fail do not stop the refine (zod only skips it when a value
   * has the wrong type, which a string field never has here). `isEmail` stands for
   * zod's email check, which this model leaves uninterpreted.
   */
  function Issues(v: Values, isEmail: string -> bool): (issues: seq<Issue>)
    ensures |issues| == 0 <==>
      |v.name| >= 2 && isEmail(v.email) && |v.password| >= 8 && |v.confirmPassword| >= 8
      && v.password == v.confirmPassword
    ensures Issue(At(Name), NameTooShort) in issues <==> |v.name| < 2
    ensures Issue(At(Email), InvalidEmail) in issues <==> !isEmail(v.email)
    ensures Issue(At(Password), PasswordTooShort) in issues <==> |v.password| < 8
    ensures Issue(At(ConfirmPassword), ConfirmTooShort) in issues <==> |v.confirmPassword| < 8
    ensures Issue(At(ConfirmPassword), Mismatch) in issues <==> v.password != v.confirmPassword
    ensures forall x :: x in issues ==> x.path != FormRoot
    ensures forall x :: x in issues && x.message == Mismatch ==> x.path == At(ConfirmPassword)
    ensures forall x :: x in issues ==> x in AllIssues
  {
    Check(|v.name| >= 2, Issue(At(Name), NameTooShort))
    + Check(isEmail(v.email), Issue(At(Email), InvalidEmail))
    + Check(|v.password| >= 8, Issue(At(Password), PasswordTooShort))
    + Check(|v.confirmPassword| >= 8, Issue(At(ConfirmPassword), ConfirmTooShort))
    + Check(v.password == v.confirmPassword, Issue(At(ConfirmPassword), Mismatch))
  }

  /**
   * Passwords of sufficient length that differ, with name and email in order: the
   * mismatch is the only issue, and it is on `confirmPassword`.
   */
  lemma MismatchOnlyOnConfirm(v: Values, isEmail: string -> bool)
    requires |v.name| >= 2 && isEmail(v.email) && |v.password| >= 8 && |v.confirmPassword| >= 8
    requires v.password != v.confirmPassword
    ensures Issues(v, isEmail) == [Issue(At(ConfirmPassword), Mismatch)]
  {
  }

  /**
   * A field whose own rule passes carries no issue: with only the name too short,
   * every issue the schema reports is the name's.
   */
  lemma OnlyFailingFieldReported(v: Values, isEmail: string -> bool)
    requires |v.name| < 2 && isEmail(v.email) && |v.password| >= 8 && v.password == v.confirmPassword
    ensures Issues(v, isEmail) == [Issue(At(Name), NameTooShort)]
    ensures forall x :: x in Issues(v, isEmail) ==> x.path == At(Name)
  {
  }

  /** The call `onSubmit` makes: email, password and name, and nothing else. */
  function SignUpRequest(v: Values): (r: Request)
    ensures r.SignUpEmail? && r.email == v.email && r.password == v.password && r.name == v.name
  {
    SignUpEmail(v.email, v.password, v.name)
  }

  /** The confirmation is never transmitted: the request does not depend on it. */
  lemma ConfirmPasswordNeverSent(v: Values, confirm: string)
    ensures SignUpRequest(v.(confirmPassword := confirm)) == SignUpRequest(v)
  {
  }

  /**
   * What `onSubmit` does once the call settles: the success callback pushes
   * `/sign-in` and writes nothing; the error callback writes the service's message;
   * a throw writes its message or "Sign-up failed"; otherwise nothing happens.
   */
  function SubmitReaction(outcome: Outcome): (r: Reaction)
    ensures r.push.Some? <==> outcome.Succeeded?
    ensures r.push.Some? ==> r.push.value == SignInRoute && r.push.value.Href() == "/sign-in" && r.write.None?
    ensures r.write.Some? <==> outcome.Rejected? || outcome.Threw?
    ensures outcome.Rejected? ==> r.write == Some(outcome.error)
    ensures outcome.Threw? ==> r.write == Some(MessageOr(outcome.message, SignUpFailed)) && r.write.value != ""
  {
    match outcome
    case Succeeded => Reaction(None, Some(SignInRoute))
    case Rejected(m) => Reaction(Some(m), None)
    case Settled => Reaction(None, None)
    case Threw(m) => Reaction(Some(MessageOr(m, SignUpFailed)), None)
  }

  /**
   * The mounted view. `values` is the form state the inputs edit; `sent` and
   * `pushes` record the calls made on `authClient` and the router.
   */
  class SignUpView {
    var values: Values
    var errorMessage: string
    var sent: seq<Request>
    var pushes: seq<Route>

    /** Mounting: empty defaults, an empty `errorMessage`, so no alert. */
    constructor ()
      ensures values == Values("", "", "", "") && errorMessage == ""
      ensures sent == [] && pushes == []
      ensures Alert().None?
    {
      values := Values("", "", "", "");
      errorMessage := "";
      sent := [];
      pushes := [];
    }

    function Alert(): Option<string>
      reads this
    {
      AlertFor(errorMessage)
    }

    /** The visitor edits the fields. */
    method Edit(v: Values)
      modifies this`values
      ensures values == v
    {
      values := v;
    }

    /**
     * `form.handleSubmit(onSubmit)`: `onSubmit` runs only when the schema passes;
     * otherwise no call is made and neither cell nor router is touched.
     */
    method Submit(isEmail: string -> bool, outcome: Outcome)
      modifies this
      ensures values == old(values)
      ensures Issues(values, isEmail) != [] ==>
        sent == old(sent) && errorMessage == old(errorMessage) && pushes == old(pushes)
      ensures Issues(values, isEmail) == [] ==>
        && sent == old(sent) + [SignUpRequest(values)]
        && errorMessage == Written(old(errorMessage), SubmitReaction(outcome).write)
        && pushes == old(pushes) + Pushed(SubmitReaction(outcome).push)
    {
      if Issues(values, isEmail) == [] {
        OnSubmit(values, outcome);
      }
    }

    /** `onSubmit`: the call, its two callbacks and the catch. Form values are left alone. */
    method OnSubmit(v: Values, outcome: Outcome)
      modifies this
      ensures values == old(values)
      ensures sent == old(sent) + [SignUpRequest(v)]
      ensures errorMessage == Written(old(errorMessage), SubmitReaction(outcome).write)
      ensures pushes == old(pushes) + Pushed(SubmitReaction(outcome).push)
    {
      sent := sent + [SignUpRequest(v)];
      match outcome {
        case Succeeded =>
          pushes := pushes + [SignInRoute];
        case Rejected(m) =>
          errorMessage := m;
        case Settled =>
        case Threw(m) =>
          errorMessage := MessageOr(m, SignUpFailed);
      }
    }
  }
}
