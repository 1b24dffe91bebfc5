/** The sign-in form's submit handler: field validation, the request it makes
    through the authentication context, and the error and loading state it leaves. */
module LoginScreen {
  import opened Wrappers
  import opened Text
  import opened Errors
  import opened AuthService
  import opened AuthContext

  datatype Form = Form(email: string, password: string, error: string, loading: bool)

  const Blank := Form("", "", "", false)

  const MissingFields := "Enter email and password"

  /** While the request is in flight: error cleared, loading set. */
  function SubmitPending(f: Form): (r: Form)
    ensures r.error == "" && r.loading && r.email == f.email && r.password == f.password
  {
    f.(error := "", loading := true)
  }

  /** What `handleSubmit` leads to: the form, the authentication state and storage,
      the request sent (if any), and whether `onLogin` was called. */
  datatype Submitted = Submitted(form: Form, auth: AuthState, store: Stored, sent: Option<LoginPayload>, onLogin: bool)

  /** `handleSubmit`, given the reply the login request will settle with. */
  function Submit(f: Form, auth: AuthState, store: Stored, reply: Reply<LoginData>): (r: Submitted)
    ensures r.form.email == f.email && r.form.password == f.password
    ensures f.email == "" || f.password == "" ==>
      r == Submitted(f.(error := MissingFields), auth, store, None, false)
    ensures f.email != "" && f.password != "" ==>
      && r.sent == Some(LoginPayload(Trim(f.email), f.password))
      && !r.form.loading
      && (r.onLogin <==> SignIn(auth, Trim(f.email), f.password, reply, store).outcome.Ok?)
    ensures r.onLogin ==> r.form.error == "" && r.auth.isAuthenticated && r.auth.token.Some?
    ensures f.email != "" && f.password != "" && !r.onLogin ==>
      var failure := SignIn(auth, Trim(f.email), f.password, reply, store).outcome.failure;
      && r.form.error == TruthyOr([failure.serverMessage, failure.message], "Login failed")
      && r.form.error != ""
      && r.auth == auth && r.store == store
  {
    if f.email == "" || f.password == "" then
      Submitted(f.(error := MissingFields), auth, store, None, false)
    else
      var pending := SubmitPending(f);
      var step := SignIn(auth, Trim(f.email), f.password, reply, store);
      match step.outcome
      case Ok(_) => Submitted(pending.(loading := false), step.state, step.store, step.sent, true)
      case Err(failure) =>
        Submitted(pending.(error := ErrorText(failure, "Login failed"), loading := false), step.state, step.store, step.sent, false)
  }

  /** Validation looks at the raw field, so an e-mail of only spaces passes it and
      is sent as the empty string. */
  lemma BlankEmailIsSentEmpty(auth: AuthState, store: Stored, reply: Reply<LoginData>)
    ensures Submit(Blank.(email := "  ", password := "pw"), auth, store, reply).sent == Some(LoginPayload("", "pw"))
  {
    assert Trim("  ") == "" by {
      assert AllSpace("  ") by { assert "  "[0] == ' ' && "  "[1] == ' '; }
    }
  }

  /** A successful submit leaves a session a restart restores unchanged; a refused
      one is a fixed point: submitting the form it leaves with the same answer
      sends the same request and leaves everything as it was. */
  lemma SubmitOutcomes(f: Form, auth: AuthState, store: Stored, reply: Reply<LoginData>)
    ensures var r := Submit(f, auth, store, reply);
      r.onLogin ==> Hydrate(r.store) == r.auth
    ensures var r := Submit(f, auth, store, reply);
      !r.onLogin ==> Submit(r.form, r.auth, r.store, reply) == r
  {
    var r := Submit(f, auth, store, reply);
    if r.onLogin {
      LoginSurvivesRestart(auth, Trim(f.email), f.password, reply, store);
    }
  }
}
