/**
 * The HTTP handlers of the user service's auth blueprint, without Flask.
 *
 * A handler is a function of the store's state and the request: the decoded
 * JWT claims of the caller, and the JSON body (`None` when it is missing or
 * empty, which the handlers treat alike). It answers with a status code and
 * an error text, and with the next state. The state changes only when the
 * handler reaches its service call.
 */
module AuthRoutes {
  import opened Common
  import opened Crypto
  import opened AuthModels
  import opened AuthSchemas
  import opened AuthService

  const NO_DATA := "No data provided"
  const VALIDATION_FAILED := "Validation failed"
  const REFRESH_REQUIRED := "Refresh token required"
  const INSUFFICIENT := "Insufficient permissions"
  const LOGOUT_FAILED := "Logout failed"
  const ADMIN := "admin"

  /**
   * Status code and `error` text of a response. The success payloads are the
   * service results, which the handlers pass on unchanged.
   */
  datatype Reply = Reply(status: int, error: Option<string>)

  datatype Routed = Routed(reply: Reply, db: Db)

  /** A JSON value as far as the refresh and logout handlers look at it. */
  datatype JsonValue = JString(s: string) | JNull | JOther

  const FORBIDDEN := Reply(403, Some(INSUFFICIENT))

  // ------------------------------------------------------------ decisions

  /** `'admin' in claims.get('roles', [])`. */
  predicate IsAdmin(roles: Option<seq<string>>)
  {
    ADMIN in roles.GetOr([])
  }

  lemma IsAdminIff(roles: Option<seq<string>>)
    ensures IsAdmin(roles) <==> roles.Some? && exists i :: 0 <= i < |roles.value| && roles.value[i] == ADMIN
    ensures !IsAdmin(None)
  {
  }

  /** The answer before the service call, if the body is missing or fails validation. */
  function Intake<T>(v: Option<Validated<T>>): (r: Option<Reply>)
    ensures r.None? <==> v.Some? && v.value.Model?
    ensures v.None? ==> r == Some(Reply(400, Some(NO_DATA)))
    ensures v.Some? && v.value.Errors? ==> r == Some(Reply(400, Some(VALIDATION_FAILED)))
  {
    match v
    case None => Some(Reply(400, Some(NO_DATA)))
    case Some(Errors(_)) => Some(Reply(400, Some(VALIDATION_FAILED)))
    case Some(Model(_)) => None
  }

  /** A service result as a response: `okStatus` on success, `errStatus` with the service's message otherwise. */
  function Answer<T>(r: Result<T>, okStatus: int, errStatus: int): (reply: Reply)
    requires okStatus != errStatus
    ensures reply.status == okStatus <==> r.Ok?
    ensures reply.status == errStatus <==> r.Err?
    ensures r.Ok? ==> reply.error.None?
    ensures r.Err? ==> reply.error == Some(r.error)
  {
    if r.Ok? then Reply(okStatus, None) else Reply(errStatus, Some(r.error))
  }

  // -------------------------------------------------------------- handlers

  /** POST /auth/register. */
  function RegisterRoute(d: Db, body: Option<UserCreateForm>, emailStr: string -> Option<string>, salt: nat, now: Time)
    : (r: Routed)
    requires Consistent(d)
    ensures Consistent(r.db)
    ensures r.reply.status in {201, 400}
    ensures body.None? ==> r == Routed(Reply(400, Some(NO_DATA)), d)
    ensures body.Some? && ValidateUserCreate(body.value, emailStr).Errors? ==> r == Routed(Reply(400, Some(VALIDATION_FAILED)), d)
    ensures body.Some? && ValidateUserCreate(body.value, emailStr).Model? ==>
      var u := ValidateUserCreate(body.value, emailStr).value;
      var s := Register(d, u.email, u.username, u.password, u.firstName, u.lastName, salt, now);
      r == Routed(Answer(s.result, 201, 400), s.db)
  {
    var v := if body.Some? then Some(ValidateUserCreate(body.value, emailStr)) else None;
    match Intake(v)
    case Some(reply) => Routed(reply, d)
    case None =>
      var u := v.value.value;
      var s := Register(d, u.email, u.username, u.password, u.firstName, u.lastName, salt, now);
      Routed(Answer(s.result, 201, 400), s.db)
  }

  datatype LoginForm = LoginForm(email: Option<string>, password: Option<string>)

  /** POST /auth/login: every failure of the service is 401. */
  function LoginRoute(d: Db, body: Option<LoginForm>, emailStr: string -> Option<string>,
                      accessToken: string, refreshToken: string, now: Time): (r: Routed)
    requires Consistent(d) && FreshPair(d, accessToken, refreshToken)
    ensures Consistent(r.db)
    ensures r.reply.status in {200, 400, 401}
    ensures r.reply.status != 200 ==> r.db == d
    ensures r.reply.status == 400 <==> body.None? || ValidateLogin(body.value.email, body.value.password, emailStr).Errors?
    ensures r.reply.status == 200 ==>
      var l := ValidateLogin(body.value.email, body.value.password, emailStr).value;
      r.db == Login(d, l.email, l.password, accessToken, refreshToken, now).db
    ensures r.reply == Reply(401, Some(INVALID_CREDENTIALS)) <==>
      && body.Some? && ValidateLogin(body.value.email, body.value.password, emailStr).Model?
      && var l := ValidateLogin(body.value.email, body.value.password, emailStr).value;
      && Login(d, l.email, l.password, accessToken, refreshToken, now).result == Err(INVALID_CREDENTIALS)
    ensures body.Some? && ValidateLogin(body.value.email, body.value.password, emailStr).Model? ==>
      var l := ValidateLogin(body.value.email, body.value.password, emailStr).value;
      var s := Login(d, l.email, l.password, accessToken, refreshToken, now);
      r == Routed(Answer(s.result, 200, 401), s.db)
  {
    var v := if body.Some? then Some(ValidateLogin(body.value.email, body.value.password, emailStr)) else None;
    match Intake(v)
    case Some(reply) => Routed(reply, d)
    case None =>
      var l := v.value.value;
      var s := Login(d, l.email, l.password, accessToken, refreshToken, now);
      Routed(Answer(s.result, 200, 401), s.db)
  }

  /** `not data or 'refresh_token' not in data`. */
  predicate LacksRefreshToken(body: Option<map<string, JsonValue>>)
  {
    body.None? || "refresh_token" !in body.value
  }

  /** POST /auth/refresh: the key is checked before validation and before the service call. */
  function RefreshRoute(d: Db, body: Option<map<string, JsonValue>>,
                        accessToken: string, refreshToken: string, now: Time): (r: Routed)
    requires Consistent(d) && FreshPair(d, accessToken, refreshToken)
    ensures Consistent(r.db)
    ensures r.reply.status in {200, 400, 401}
    ensures LacksRefreshToken(body) ==> r == Routed(Reply(400, Some(REFRESH_REQUIRED)), d)
    ensures r.reply.status == 400 <==> LacksRefreshToken(body) || !body.value["refresh_token"].JString?
    ensures r.reply.status != 200 ==> r.db == d
    ensures r.reply.status == 200 <==>
      !LacksRefreshToken(body) && body.value["refresh_token"].JString?
      && RefreshAccepted(d, body.value["refresh_token"].s, now)
    ensures r.reply.status == 200 ==>
      r.db == Refresh(d, body.value["refresh_token"].s, accessToken, refreshToken, now).db
  {
    if LacksRefreshToken(body) then Routed(Reply(400, Some(REFRESH_REQUIRED)), d)
    else match body.value["refresh_token"]
      case JString(token) =>
        var s := Refresh(d, token, accessToken, refreshToken, now);
        Routed(Answer(s.result, 200, 401), s.db)
      case _ => Routed(Reply(400, Some(VALIDATION_FAILED)), d)
  }

  /**
   * POST /auth/logout. The body is not validated: a `refresh_token` that is
   * not a string reaches the hash inside `logout_user`, whose own handler
   * reports "Logout failed: ..." as a failure, and the route answers 400.
   */
  function LogoutRoute(d: Db, body: Option<map<string, JsonValue>>): (r: Routed)
    requires Consistent(d)
    ensures Consistent(r.db)
    ensures r.reply.status in {200, 400}
    ensures LacksRefreshToken(body) ==> r == Routed(Reply(400, Some(REFRESH_REQUIRED)), d)
    ensures r.reply.status == 200 <==> !LacksRefreshToken(body) && body.value["refresh_token"].JString?
    ensures !LacksRefreshToken(body) && !body.value["refresh_token"].JString? ==> r == Routed(Reply(400, Some(LOGOUT_FAILED)), d)
    ensures r.reply.status == 200 ==> r.db == Logout(d, body.value["refresh_token"].s).db
    ensures r.reply.status != 200 ==> r.db == d
  {
    if LacksRefreshToken(body) then Routed(Reply(400, Some(REFRESH_REQUIRED)), d)
    else match body.value["refresh_token"]
      case JString(token) =>
        var s := Logout(d, token);
        Routed(Answer(s.result, 200, 400), s.db)
      case _ => Routed(Reply(400, Some(LOGOUT_FAILED)), d)
  }

  /** GET /auth/me: the caller's user with its role names, or 404. */
  function MeRoute(d: Db, claims: JwtClaims): (r: (Reply, Option<UserDict>))
    ensures r.0.status == 404 <==> claims.sub !in UserIds(d.users)
    ensures r.0.status == 404 ==> r.0.error == Some(USER_NOT_FOUND) && r.1.None?
    ensures r.0.status != 404 ==> r.0.status == 200 && r.1.Some? && r.1.value.id == claims.sub
    ensures r.1.Some? ==> r.1.value.roles == Some(RoleNames(UserRolesOf(d, claims.sub)))
    ensures FindUser(d.users, claims.sub).Some? ==>
      r.1 == Some(ToDict(FindUser(d.users, claims.sub).value, true, d.userRoles, d.roles))
  {
    match FindUser(d.users, claims.sub)
    case None => (Reply(404, Some(USER_NOT_FOUND)), None)
    case Some(u) => (Reply(200, None), Some(ToDict(u, true, d.userRoles, d.roles)))
  }

  datatype PasswordChangeForm = PasswordChangeForm(currentPassword: Option<string>, newPassword: Option<string>)

  /** POST /auth/change-password. */
  function ChangePasswordRoute(d: Db, claims: JwtClaims, body: Option<PasswordChangeForm>, salt: nat, now: Time)
    : (r: Routed)
    requires Consistent(d)
    ensures Consistent(r.db)
    ensures r.reply.status in {200, 400}
    ensures r.reply.status == 400 ==> r.db == d
    ensures r.reply.status == 200 <==>
      && body.Some? && ValidatePasswordChange(body.value.currentPassword, body.value.newPassword).Model?
      && var p := ValidatePasswordChange(body.value.currentPassword, body.value.newPassword).value;
      && UpdatePassword(d, claims.sub, p.currentPassword, p.newPassword, salt, now).result.Ok?
    ensures r.reply.status == 200 ==>
      var p := ValidatePasswordChange(body.value.currentPassword, body.value.newPassword).value;
      r.db == UpdatePassword(d, claims.sub, p.currentPassword, p.newPassword, salt, now).db
  {
    var v := if body.Some? then Some(ValidatePasswordChange(body.value.currentPassword, body.value.newPassword)) else None;
    match Intake(v)
    case Some(reply) => Routed(reply, d)
    case None =>
      var p := v.value.value;
      var s := UpdatePassword(d, claims.sub, p.currentPassword, p.newPassword, salt, now);
      Routed(Answer(s.result, 200, 400), s.db)
  }

  // ----------------------------------------------------- role endpoints

  /** GET /roles: admin only. */
  function ListRolesRoute(d: Db, claims: JwtClaims): (r: (Reply, seq<Role>))
    ensures r.0 == FORBIDDEN <==> !IsAdmin(claims.roles)
    ensures r.0.status == 403 ==> r.1 == []
    ensures r.0.status != 403 ==> r.0.status == 200 && r.1 == GetAllRoles(d)
  {
    if !IsAdmin(claims.roles) then (FORBIDDEN, []) else (Reply(200, None), GetAllRoles(d))
  }

  datatype RoleCreateForm = RoleCreateForm(name: Option<string>, description: Option<string>, permissions: Option<Permissions>)

  /** POST /roles: the gate comes before the body is read. */
  function CreateRoleRoute(d: Db, claims: JwtClaims, body: Option<RoleCreateForm>, now: Time): (r: Routed)
    requires Consistent(d)
    ensures Consistent(r.db)
    ensures r.reply.status in {201, 400, 403}
    ensures r.reply.status == 403 <==> !IsAdmin(claims.roles)
    ensures !IsAdmin(claims.roles) ==> r == Routed(FORBIDDEN, d)
    ensures r.reply.status != 201 ==> r.db == d
    ensures r.reply.status == 201 <==>
      && IsAdmin(claims.roles) && body.Some?
      && ValidateRoleCreate(body.value.name, body.value.description, body.value.permissions).Model?
      && var c := ValidateRoleCreate(body.value.name, body.value.description, body.value.permissions).value;
      && (forall k :: 0 <= k < |d.roles| ==> d.roles[k].name != c.name)
    ensures r.reply.status == 201 ==>
      var c := ValidateRoleCreate(body.value.name, body.value.description, body.value.permissions).value;
      r.db == CreateRole(d, c.name, c.description, Some(c.permissions), now).db
  {
    if !IsAdmin(claims.roles) then Routed(FORBIDDEN, d)
    else
      var v := if body.Some? then Some(ValidateRoleCreate(body.value.name, body.value.description, body.value.permissions)) else None;
      match Intake(v)
      case Some(reply) => Routed(reply, d)
      case None =>
        var c := v.value.value;
        var s := CreateRole(d, c.name, c.description, Some(c.permissions), now);
        Routed(Answer(s.result, 201, 400), s.db)
  }

  /** POST /users/<user_id>/roles/<role_id>. */
  function AssignRoleRoute(d: Db, claims: JwtClaims, userId: Id, roleId: Id, now: Time): (r: Routed)
    requires Consistent(d)
    ensures Consistent(r.db)
    ensures r.reply.status in {200, 400, 403}
    ensures !IsAdmin(claims.roles) ==> r == Routed(FORBIDDEN, d)
    ensures IsAdmin(claims.roles) ==>
      var s := AssignRole(d, userId, roleId, now); r == Routed(Answer(s.result, 200, 400), s.db)
  {
    if !IsAdmin(claims.roles) then Routed(FORBIDDEN, d)
    else
      var s := AssignRole(d, userId, roleId, now);
      Routed(Answer(s.result, 200, 400), s.db)
  }

  /** DELETE /users/<user_id>/roles/<role_id>. */
  function RemoveRoleRoute(d: Db, claims: JwtClaims, userId: Id, roleId: Id): (r: Routed)
    requires Consistent(d)
    ensures Consistent(r.db)
    ensures r.reply.status in {200, 400, 403}
    ensures !IsAdmin(claims.roles) ==> r == Routed(FORBIDDEN, d)
    ensures IsAdmin(claims.roles) ==>
      var s := RemoveRole(d, userId, roleId); r == Routed(Answer(s.result, 200, 400), s.db)
  {
    if !IsAdmin(claims.roles) then Routed(FORBIDDEN, d)
    else
      var s := RemoveRole(d, userId, roleId);
      Routed(Answer(s.result, 200, 400), s.db)
  }

  // --------------------------------------------------------------- facts

  /**
   * The admin gate: each of the four role endpoints answers 403 exactly when
   * the caller's `roles` claim lacks "admin", and then the store is as before.
   */
  lemma AdminGate(d: Db, claims: JwtClaims, body: Option<RoleCreateForm>, userId: Id, roleId: Id, now: Time)
    requires Consistent(d)
    ensures ListRolesRoute(d, claims).0.status == 403 <==> !IsAdmin(claims.roles)
    ensures CreateRoleRoute(d, claims, body, now).reply.status == 403 <==> !IsAdmin(claims.roles)
    ensures AssignRoleRoute(d, claims, userId, roleId, now).reply.status == 403 <==> !IsAdmin(claims.roles)
    ensures RemoveRoleRoute(d, claims, userId, roleId).reply.status == 403 <==> !IsAdmin(claims.roles)
    ensures !IsAdmin(claims.roles) ==>
      && CreateRoleRoute(d, claims, body, now).db == d
      && AssignRoleRoute(d, claims, userId, roleId, now).db == d
      && RemoveRoleRoute(d, claims, userId, roleId).db == d
  {
  }

  /**
   * Roles are read from the token, not from the store: a caller whose access
   * token was minted while they held "admin" passes the gate after the role
   * was taken away, at every moment until the token expires.
   */
  lemma GateTrustsClaims(d: Db, email: string, password: string, a: string, r: string, now: Time, roleId: Id, later: Time)
    requires Consistent(d) && FreshPair(d, a, r)
    requires Login(d, email, password, a, r, now).result.Ok?
    requires ADMIN in RoleNames(UserRolesOf(d, FindUserByEmail(d.users, email).value.id))
    requires now <= later < now + ACCESS_TOKEN_LIFETIME
    ensures var d1 := Login(d, email, password, a, r, now).db;
            var d2 := RemoveRole(d1, FindUserByEmail(d.users, email).value.id, roleId).db;
            && DecodeToken(a, d2.issued, later).Some?
            && ListRolesRoute(d2, DecodeToken(a, d2.issued, later).value).0.status == 200
  {
    LoginClaimsRoles(d, email, password, a, r, now);
  }
}
