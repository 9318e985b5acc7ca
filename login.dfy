/** The sign-in form (`src/components/reusable/Login.jsx`): checks that both
    fields are filled, posts them, stores the session and sends the user to
    the home page of their role. */
module Login {
  import opened JsValues
  import opened Http
  import opened Routes
  import opened AuthStore

  const EmptyFieldsMessage: string := "Please fill in all fields"
  const SuccessToast: string := "Login Successful"
  const RejectedFallback: string := "Invalid credentials"

  /** The body of a successful `/api/login` reply, and its HTTP status. */
  datatype LoginReply = LoginReply(token: string, user: Record, status: int)

  /** The pop-up message a submission shows. */
  datatype Toast = SuccessToastShown(text: string) | ErrorToastShown(message: Value)

  /** The page a signed-in user is sent to: one per staff role, and the
      customer home for any other role. */
  function LandingPath(role: Value): (p: string)
    ensures p in Groups
  {
    if role == Str("admin") then "/admin"
    else if role == Str("manager") then "/manager"
    else if role == Str("accountant") then "/accountant"
    else if role == Str("loan-committee") then "/loan-committee"
    else "/customer"
  }

  /** Every role's landing page is shown to that role. */
  lemma LandingPageShownToItsRole(r: string)
    requires r in {"admin", "manager", "accountant", "loan-committee", "customer"}
    ensures Access(LandingPath(Str(r)), Str(r)) == Render
  {
  }

  /** A user whose role is none of the five lands on the customer home and is
      turned away from it. */
  lemma UnknownRoleTurnedAway(role: Value)
    requires Truthy(role)
    requires role !in {Str("admin"), Str("manager"), Str("accountant"), Str("loan-committee"), Str("customer")}
    ensures LandingPath(role) == "/customer"
    ensures Access(LandingPath(role), role) == RedirectToHome
  {
  }

  /** A user stored without a role comes back after a reload with the role
      text "undefined": signed in as far as the guard can tell, yet shown no
      guarded page. */
  lemma {:induction false} ReloadWithoutRoleTurnedAway(entries: map<string, string>, codec: Codec, u: Record, t: string, path: string)
    requires RoundTrips(codec)
    requires "role" !in u && path in Groups
    ensures Access(path, Hydrate(PersistAuth(entries, codec, u, t), codec).role) == RedirectToHome
  {
    MissingRoleReloadsAsText(entries, codec, u, t);
  }

  /** The login form's state: its two fields, the inline error and the busy flag. */
  class LoginForm {
    var username: string
    var password: string
    var error: string
    var loading: bool
    const auth: AuthStore

    constructor(auth: AuthStore)
      ensures this.auth == auth
      ensures username == "" && password == "" && error == "" && !loading
    {
      this.auth := auth;
      username, password, error, loading := "", "", "", false;
    }

    /** `handleSubmit`. `landing` is the page navigated to after the delay,
        `None` when the submission does not sign in. A rejected sign-in only
        shows a toast: the form stays busy. */
    method Submit(outcome: Response<LoginReply>) returns (landing: Option<string>, toast: Option<Toast>)
      modifies this, auth, auth.storage
      ensures username == old(username) && password == old(password)
      ensures username == "" || password == "" ==>
                error == EmptyFieldsMessage && loading == old(loading) && landing.None? && toast.None? &&
                auth.Snapshot() == old(auth.Snapshot()) && auth.storage.entries == old(auth.storage.entries)
      ensures username != "" && password != "" && outcome.Success? ==>
                var reply := outcome.body;
                !loading && error == old(error) &&
                auth.Snapshot() == Session(Some(reply.user), Some(reply.token), Get(reply.user, "role")) &&
                auth.storage.entries ==
                  PersistAuth(old(auth.storage.entries), auth.codec, reply.user, reply.token)["auth_token" := reply.token] &&
                landing == Some(LandingPath(Get(reply.user, "role"))) &&
                toast == (if reply.status == 200 then Some(SuccessToastShown(SuccessToast)) else None)
      ensures username != "" && password != "" && outcome.Failure? ==>
                loading && error == old(error) && landing.None? &&
                auth.Snapshot() == old(auth.Snapshot()) && auth.storage.entries == old(auth.storage.entries) &&
                toast == Some(ErrorToastShown(
                  if outcome.error.reply.Some? then Get(outcome.error.reply.value.data, "message") else Str(RejectedFallback)))
    {
      if username == "" || password == "" {
        error := EmptyFieldsMessage;
        return None, None;
      }
      loading := true;
      match outcome {
        case Success(reply) =>
          auth.SetAuthData(reply.user, reply.token);
          auth.storage.SetItem("auth_token", reply.token);
          loading := false;
          toast := if reply.status == 200 then Some(SuccessToastShown(SuccessToast)) else None;
          landing := Some(LandingPath(Get(reply.user, "role")));
        case Failure(e) =>
          toast := Some(ErrorToastShown(if e.reply.Some? then Get(e.reply.value.data, "message") else Str(RejectedFallback)));
          landing := None;
      }
    }
  }
}
