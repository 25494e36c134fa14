/** The auth gateway of lib/auth.ts: wrappers around the identity provider that
    turn its failures into result records, and the `isAdmin` role predicate. */
module Auth {
  import opened Common

  /** The claims of a session's access token, restricted to list-valued claims. */
  type Claims = map<string, seq<string>>

  /** The user object the identity provider resolves with. `session` is
      `signInUserSession`: its access token's payload, or `None` when the
      provider hands back a user whose session is null (a pending challenge). */
  datatype CognitoUser = CognitoUser(email: string, session: Option<Claims>)

  /** The JWTs of the current session (`Auth.currentSession()`). */
  datatype Tokens = Tokens(idJwt: string, accessJwt: string)

  datatype AuthUser = AuthUser(email: string, groups: seq<string>)

  /** `{ user, error }`: exactly one of the two is non-null. */
  datatype UserResult = UserResult(user: Option<AuthUser>, error: Option<Exception>)

  /** `{ error }` of `signOut`. */
  datatype SignOutResult = SignOutResult(error: Option<Exception>)

  const GroupsClaim: string := "cognito:groups"
  const AdminGroup: string := "Admin"

  /** The TypeError raised by reading `accessToken` through a null `signInUserSession`. */
  const NullSessionError: Exception := Error("Cannot read properties of null (reading 'accessToken')")

  /** `payload['cognito:groups'] || []`. */
  function GroupsOf(claims: Claims): (groups: seq<string>)
    ensures GroupsClaim in claims ==> groups == claims[GroupsClaim]
    ensures GroupsClaim !in claims ==> groups == []
  {
    if GroupsClaim in claims then claims[GroupsClaim] else []
  }

  /** The body shared by `signIn` and `getCurrentUser`: read the user the
      provider resolved with, or catch what it threw. */
  function ReadUser(provided: Outcome<CognitoUser>): UserResult
  {
    match provided
    case Throw(e) => UserResult(None, Some(e))
    case Ok(u) =>
      match u.session
      case None => UserResult(None, Some(NullSessionError))
      case Some(claims) => UserResult(Some(AuthUser(u.email, GroupsOf(claims))), None)
  }

  /** `signIn`: never throws; `attempt` is what `Auth.signIn(email, password)` did. */
  function SignIn(attempt: Outcome<CognitoUser>): (r: UserResult)
    ensures r.user.Some? <==> r.error.None?
    ensures r.user.Some? <==> attempt.Ok? && attempt.value.session.Some?
    ensures r.user.Some? ==> r.user.value.email == attempt.value.email
    ensures r.user.Some? ==> r.user.value.groups == GroupsOf(attempt.value.session.value)
    ensures attempt.Throw? ==> r.error == Some(attempt.exn)
  {
    ReadUser(attempt)
  }

  /** `signOut`: never throws; `outcome` is what `Auth.signOut()` did. */
  function SignOut(outcome: Outcome<()>): (r: SignOutResult)
    ensures r.error.None? <==> outcome.Ok?
    ensures outcome.Throw? ==> r.error == Some(outcome.exn)
  {
    match outcome
    case Ok(_) => SignOutResult(None)
    case Throw(e) => SignOutResult(Some(e))
  }

  /** `getCurrentUser`: never throws; `current` is what
      `Auth.currentAuthenticatedUser()` did. */
  function GetCurrentUser(current: Outcome<CognitoUser>): (r: UserResult)
    ensures r.user.Some? <==> r.error.None?
    ensures r.user.Some? <==> current.Ok? && current.value.session.Some?
    ensures r.user.Some? ==> r.user.value.email == current.value.email
    ensures r.user.Some? ==> r.user.value.groups == GroupsOf(current.value.session.value)
    ensures current.Throw? ==> r.error == Some(current.exn)
  {
    ReadUser(current)
  }

  /** `isAdmin`: `user?.groups.includes('Admin') || false`, derived from what the
      provider says now. */
  function IsAdmin(current: Outcome<CognitoUser>): (r: bool)
    ensures r <==> current.Ok? && current.value.session.Some?
                   && AdminGroup in GroupsOf(current.value.session.value)
  {
    var result := GetCurrentUser(current);
    result.user.Some? && AdminGroup in result.user.value.groups
  }

  /** Fails closed: no user means no admin. */
  lemma NoUserIsNotAdmin(current: Outcome<CognitoUser>)
    requires GetCurrentUser(current).user.None?
    ensures !IsAdmin(current)
  {
  }

  /** A session without a groups claim belongs to nobody's admin group. */
  lemma MissingGroupsClaimIsNotAdmin(email: string, claims: Claims)
    requires GroupsClaim !in claims
    ensures GetCurrentUser(Ok(CognitoUser(email, Some(claims)))).user.value.groups == []
    ensures !IsAdmin(Ok(CognitoUser(email, Some(claims))))
  {
  }

  /** The group name is compared exactly: "admin" or "Admins" do not count. */
  lemma AdminMatchIsExact(email: string)
    ensures !IsAdmin(Ok(CognitoUser(email, Some(map[GroupsClaim := ["admin", "Admins"]]))))
    ensures IsAdmin(Ok(CognitoUser(email, Some(map[GroupsClaim := ["Editors", "Admin"]]))))
  {
    var bad := ["admin", "Admins"];
    assert bad[0] != AdminGroup && bad[1] != AdminGroup;
    var good := ["Editors", "Admin"];
    assert good[1] == AdminGroup;
  }
}
