/** The authentication context: the session state the screens read, hydrated from
    storage at start-up and replaced by `login` and `logout`. */
module AuthContext {
  import opened Wrappers
  import opened Errors
  import opened AuthService

  datatype AuthState = AuthState(isLoading: bool, isAuthenticated: bool, token: Option<string>, user: Option<AuthUser>)

  /** Before storage has been read: loading, signed out, nothing known. */
  const Initial := AuthState(true, false, None, None)

  /** Start-up: signed in exactly when the stored token is non-empty. */
  function Hydrate(stored: Stored): (st: AuthState)
    ensures !st.isLoading
    ensures st.isAuthenticated <==> Truthy(stored.token)
    ensures st.token == stored.token && st.user == stored.user
    ensures st.(isLoading := true) == Initial <==> stored == Cleared
  {
    AuthState(false, Truthy(stored.token), stored.token, stored.user)
  }

  /** What a context action leads to: the state, the storage, the action's own
      outcome (a rejection propagates to the caller) and the login request sent. */
  datatype AuthStep = AuthStep(state: AuthState, store: Stored, outcome: Reply<Unit>, sent: Option<LoginPayload>)

  /** `login(email, password)`. */
  function SignIn(st: AuthState, email: string, password: string, reply: Reply<LoginData>, store: Stored): (r: AuthStep)
    ensures r.sent == Some(LoginPayload(email, password))
    ensures r.outcome.Ok? <==> Login(LoginPayload(email, password), reply, store).result.Ok?
    ensures r.outcome.Ok? ==>
      var s := Login(LoginPayload(email, password), reply, store).result.value;
      r.state == AuthState(false, true, Some(s.token), s.user)
    ensures r.outcome.Err? ==> r.state == st && r.store == store
    ensures r.outcome.Err? ==> r.outcome.failure == Login(LoginPayload(email, password), reply, store).result.failure
  {
    var run := Login(LoginPayload(email, password), reply, store);
    match run.result
    case Ok(s) => AuthStep(AuthState(false, true, Some(s.token), s.user), run.store, Ok(Unit), Some(run.sent))
    case Err(f) => AuthStep(st, run.store, Err(f), Some(run.sent))
  }

  /** `logout()`: storage cleared, state signed out. */
  function SignOut(st: AuthState, store: Stored): (r: AuthStep)
    ensures r.state == AuthState(false, false, None, None) && r.store == Cleared
    ensures r.outcome.Ok? && r.sent == None
  {
    AuthStep(AuthState(false, false, None, None), Cleared, Ok(Unit), None)
  }

  /** A session survives a restart: hydrating from what a successful login stored
      gives the state that login set. */
  lemma LoginSurvivesRestart(st: AuthState, email: string, password: string, reply: Reply<LoginData>, store: Stored)
    requires SignIn(st, email, password, reply, store).outcome.Ok?
    ensures Hydrate(SignIn(st, email, password, reply, store).store) == SignIn(st, email, password, reply, store).state
  {
  }

  /** After logging out, a restart comes up signed out. */
  lemma LogoutSurvivesRestart(st: AuthState, store: Stored)
    ensures !Hydrate(SignOut(st, store).store).isAuthenticated
  {
  }
}
