/** The login request and the stored session. The key-value storage behind the
    session is abstract: what was last saved under the token and user keys. */
module AuthService {
  import opened Wrappers
  import opened Errors

  /** The signed-in user as the server describes them; `branchName` is `user.branch?.name`,
      `branchId` is `user.branch?.id` and `flatBranchId` is a top-level `user.branchId`. */
  datatype AuthUser = AuthUser(
    id: Option<string>,
    email: Option<string>,
    firstName: Option<string>,
    lastName: Option<string>,
    branchName: Option<string>,
    branchId: Option<string>,
    flatBranchId: Option<string>)

  /** `user?.branch?.id || user?.branchId`: the branch id the live and history
      screens send with their by-date and by-id requests. */
  function BranchParam(user: Option<AuthUser>): (b: Option<string>)
    ensures user.None? ==> b.None?
    ensures user.Some? && Truthy(user.value.branchId) ==> b == user.value.branchId
    ensures user.Some? && !Truthy(user.value.branchId) ==> b == user.value.flatBranchId
  {
    if user.None? then None else OrElse(user.value.branchId, user.value.flatBranchId)
  }

  /** What storage holds under the token and user keys. An absent or empty saved
      user reads back as `null`. */
  datatype Stored = Stored(token: Option<string>, user: Option<AuthUser>)

  const Cleared := Stored(None, None)

  /** The body posted to `/auth/login`. */
  datatype LoginPayload = LoginPayload(email: string, password: string)

  /** The login response in any of the shapes the server uses: the token at the top
      level, as `accessToken`, or nested under `data`; the user likewise. */
  datatype LoginData = LoginData(
    token: Option<string>,
    accessToken: Option<string>,
    nestedToken: Option<string>,
    user: Option<AuthUser>,
    nestedUser: Option<AuthUser>)

  /** A resolved login: the token, always non-empty, and the user if any. */
  datatype Session = Session(token: string, user: Option<AuthUser>)

  /** What `login` leads to: its result, the storage after it, and the request it sent. */
  datatype LoginRun = LoginRun(result: Reply<Session>, store: Stored, sent: LoginPayload)

  const MissingToken := "Invalid login response: missing token"

  /** `login(payload)`, given the reply to the POST. */
  function Login(payload: LoginPayload, reply: Reply<LoginData>, store: Stored): (r: LoginRun)
    ensures r.sent == payload
    ensures reply.Err? ==> r.result == Err(reply.failure) && r.store == store
    ensures reply.Ok? && FirstTruthy([reply.value.token, reply.value.accessToken, reply.value.nestedToken]).None? ==>
      r.result == Err(Failure(None, Some(MissingToken))) && r.store == store
    ensures reply.Ok? && FirstTruthy([reply.value.token, reply.value.accessToken, reply.value.nestedToken]).Some? ==>
      && r.result.Ok?
      && r.result.value.token == FirstTruthy([reply.value.token, reply.value.accessToken, reply.value.nestedToken]).value
      && r.result.value.user == FirstSome([reply.value.user, reply.value.nestedUser])
    ensures r.result.Ok? ==> r.result.value.token != "" && r.store == Stored(Some(r.result.value.token), r.result.value.user)
  {
    match reply
    case Err(f) => LoginRun(Err(f), store, payload)
    case Ok(data) =>
      var token := FirstTruthy([data.token, data.accessToken, data.nestedToken]);
      assert [data.user, data.nestedUser][1..] == [data.nestedUser] && [data.nestedUser][1..] == [];
      var user := data.user.Or(data.nestedUser);
      if token.None? then LoginRun(Err(Failure(None, Some(MissingToken))), store, payload)
      else LoginRun(Ok(Session(token.value, user)), Stored(Some(token.value), user), payload)
  }

  /** Storage is written only by a login that returns a session. */
  lemma StoreChangesOnlyOnSuccess(payload: LoginPayload, reply: Reply<LoginData>, store: Stored)
    ensures Login(payload, reply, store).store != store ==> Login(payload, reply, store).result.Ok?
  {
  }
}
