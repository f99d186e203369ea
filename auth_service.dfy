/**
 * The user service's authentication and role flows (`AuthService`,
 * `RoleService`) over its four tables.
 *
 * Each flow is one atomic step. `Register`, `Login`, `Refresh`, ... are the
 * steps as functions from the store's state `Db` to a result and the next
 * state; the class `AuthStore` holds the tables as fields and its methods
 * perform the same steps by updating them in place. Lemmas at the end relate
 * several steps: single use of refresh tokens, logout, idempotent seeding,
 * role assignment.
 */
module AuthService {
  import opened Common
  import opened Crypto
  import opened AuthModels

  // -------------------------------------------------------------- messages

  const EMAIL_TAKEN := "Email already registered"
  const USERNAME_TAKEN := "Username already taken"
  const REGISTERED := "User registered successfully"
  const INVALID_CREDENTIALS := "Invalid email or password"
  const DEACTIVATED := "Account is deactivated"
  /** `decode_token` raised; the source appends the exception text, which is not modelled. */
  const REFRESH_FAILED := "Token refresh failed"
  const INVALID_REFRESH := "Invalid or expired refresh token"
  const USER_UNAVAILABLE := "User not found or inactive"
  const LOGGED_OUT := "Logged out successfully"
  const USER_NOT_FOUND := "User not found"
  const WRONG_PASSWORD := "Current password is incorrect"
  const PASSWORD_UPDATED := "Password updated successfully"
  const ROLES_SEEDED := "Default roles created successfully"
  const ROLE_EXISTS := "Role already exists"
  const ROLE_CREATED := "Role created successfully"
  const ROLE_NOT_FOUND := "Role not found"
  const ALREADY_ASSIGNED := "User already has this role"
  const ASSIGNED := "Role assigned successfully"
  const NOT_ASSIGNED := "User does not have this role"
  const REMOVED := "Role removed successfully"

  const TOKEN_TYPE := "bearer"
  const DEFAULT_ROLE := "user"

  // ----------------------------------------------------------------- state

  /** The four tables, the JWT key's record of what it signed, and the id allocator. */
  datatype Db = Db(
    users: seq<User>,
    roles: seq<Role>,
    userRoles: seq<UserRole>,
    refreshTokens: seq<RefreshToken>,
    issued: map<string, JwtClaims>,
    nextId: nat)

  datatype Step<T> = Step(result: Result<T>, db: Db)

  datatype Registered = Registered(user: UserDict, message: string)

  datatype LoginResponse = LoginResponse(
    accessToken: string, refreshToken: string, tokenType: string, expiresIn: int, user: UserDict)

  datatype TokenResponse = TokenResponse(accessToken: string, refreshToken: string, tokenType: string, expiresIn: int)

  datatype RoleCreated = RoleCreated(role: Role, message: string)

  /** Primary keys and unique columns of the four tables. */
  ghost predicate KeysUnique(d: Db)
  {
    UsersUnique(d.users) && RolesUnique(d.roles) && PairsUnique(d.userRoles) && TokensUnique(d.refreshTokens)
  }

  /** Every id in use was drawn from the allocator. */
  ghost predicate IdsAllocated(d: Db)
  {
    && (forall u :: u in d.users ==> u.id < d.nextId)
    && (forall ro :: ro in d.roles ==> ro.id < d.nextId)
    && (forall t :: t in d.refreshTokens ==> t.id < d.nextId)
  }

  /** The foreign keys of user_roles. */
  ghost predicate LinksResolve(d: Db)
  {
    forall ur :: ur in d.userRoles ==> ur.userId in UserIds(d.users) && ur.roleId in RoleIds(d.roles)
  }

  /** A stored hash is the hash of a token the key signed. */
  ghost predicate HashesSigned(d: Db)
  {
    forall t :: t in d.refreshTokens ==> t.tokenHash.preimage in d.issued
  }

  /** The database's constraints, plus the facts the flows rely on to respect them. */
  ghost predicate Consistent(d: Db)
  {
    KeysUnique(d) && IdsAllocated(d) && LinksResolve(d) && HashesSigned(d)
  }

  lemma AddUserKeeps(d: Db, u: User)
    requires Consistent(d) && u.id == d.nextId
    requires forall k :: 0 <= k < |d.users| ==> !ClashesWith(d.users[k], u.email, u.username)
    ensures Consistent(d.(users := d.users + [u], nextId := d.nextId + 1))
  {
    var d' := d.(users := d.users + [u], nextId := d.nextId + 1);
    assert UserIds(d.users) <= UserIds(d'.users);
  }

  lemma AddLinkKeeps(d: Db, ur: UserRole)
    requires Consistent(d) && ur.userId in UserIds(d.users) && ur.roleId in RoleIds(d.roles)
    requires forall k :: 0 <= k < |d.userRoles| ==> !IsPair(d.userRoles[k], ur.userId, ur.roleId)
    ensures Consistent(d.(userRoles := d.userRoles + [ur]))
  {
  }

  lemma AddRoleKeeps(d: Db, ro: Role)
    requires Consistent(d) && ro.id == d.nextId
    requires forall k :: 0 <= k < |d.roles| ==> d.roles[k].name != ro.name
    ensures Consistent(d.(roles := d.roles + [ro], nextId := d.nextId + 1))
  {
    var d' := d.(roles := d.roles + [ro], nextId := d.nextId + 1);
    assert RoleIds(d.roles) <= RoleIds(d'.roles);
  }

  lemma AddTokenKeeps(d: Db, row: RefreshToken, issued: map<string, JwtClaims>)
    requires Consistent(d) && row.id == d.nextId
    requires row.tokenHash.preimage in issued && row.tokenHash.preimage !in d.issued
    requires d.issued.Keys <= issued.Keys
    ensures Consistent(d.(refreshTokens := d.refreshTokens + [row], issued := issued, nextId := d.nextId + 1))
  {
  }

  /** Setting a row's revoked flag keeps every constraint. */
  lemma RevokeKeepsConsistent(d: Db, j: nat)
    requires Consistent(d) && j < |d.refreshTokens|
    ensures Consistent(d.(refreshTokens := d.refreshTokens[j := Revoke(d.refreshTokens[j])]))
  {
    var ts := d.refreshTokens[j := Revoke(d.refreshTokens[j])];
    forall t | t in ts ensures t.id < d.nextId && t.tokenHash.preimage in d.issued {
      var i :| 0 <= i < |ts| && ts[i] == t;
      assert t.id == d.refreshTokens[i].id && t.tokenHash == d.refreshTokens[i].tokenHash;
    }
  }

  /** Replacing a user by one with the same key columns keeps every constraint. */
  lemma ReplaceUserKeeps(d: Db, k: nat, u: User)
    requires Consistent(d) && k < |d.users|
    requires u.id == d.users[k].id && u.email == d.users[k].email && u.username == d.users[k].username
    ensures Consistent(d.(users := d.users[k := u]))
  {
    var us := d.users[k := u];
    assert UserIds(us) == UserIds(d.users) by {
      forall x | x in UserIds(d.users) ensures x in UserIds(us) {
        var v :| v in d.users && v.id == x;
        var i :| 0 <= i < |d.users| && d.users[i] == v;
        assert us[i].id == x;
      }
      forall x | x in UserIds(us) ensures x in UserIds(d.users) {
        var v :| v in us && v.id == x;
        var i :| 0 <= i < |us| && us[i] == v;
        assert d.users[i].id == x;
      }
    }
    forall v | v in us ensures v.id < d.nextId {
      var i :| 0 <= i < |us| && us[i] == v;
      assert v.id == d.users[i].id;
    }
  }

  /** Deleting one association row keeps every constraint. */
  lemma RemoveLinkKeeps(d: Db, k: nat)
    requires Consistent(d) && k < |d.userRoles|
    ensures Consistent(d.(userRoles := RemoveAt(d.userRoles, k)))
  {
    var urs := RemoveAt(d.userRoles, k);
    assert urs == d.userRoles[..k] + d.userRoles[k + 1..];
    forall i, j | 0 <= i < j < |urs|
      ensures urs[i].userId != urs[j].userId || urs[i].roleId != urs[j].roleId
    {
      assert urs[i] == d.userRoles[if i < k then i else i + 1];
      assert urs[j] == d.userRoles[if j < k then j else j + 1];
    }
  }

  const EmptyDb := Db([], [], [], [], map[], 0)

  // --------------------------------------------------------------- lookups

  /** `User.query.get(id)`. */
  function FindUser(users: seq<User>, id: Id): (r: Option<User>)
    ensures r.Some? ==> r.value in users && r.value.id == id
    ensures r.None? <==> forall k :: 0 <= k < |users| ==> users[k].id != id
    ensures r.Some? <==> id in UserIds(users)
  {
    match FirstIndex(users, (u: User) => u.id == id)
    case Some(k) => Some(users[k])
    case None => None
  }

  /** `Role.query.filter_by(name=name).first()`. */
  function FindRoleByName(roles: seq<Role>, name: string): (r: Option<Role>)
    ensures r.Some? ==> r.value in roles && r.value.name == name
    ensures r.None? <==> forall k :: 0 <= k < |roles| ==> roles[k].name != name
  {
    match FirstIndex(roles, (ro: Role) => ro.name == name)
    case Some(k) => Some(roles[k])
    case None => None
  }

  /** The roles of user `uid` as the store holds them. */
  function UserRolesOf(d: Db, uid: Id): seq<Role>
  {
    GetRoles(uid, d.userRoles, d.roles)
  }

  // -------------------------------------------------------------- register

  predicate ClashesWith(u: User, email: string, username: string)
  {
    u.email == email || u.username == username
  }

  /**
   * The OR-query of `register_user` and its message: the first clashing user
   * decides; "Email already registered" when that user's email is the input.
   */
  function RegisterConflict(users: seq<User>, email: string, username: string): (r: Option<string>)
    ensures r.None? <==> forall k :: 0 <= k < |users| ==> !ClashesWith(users[k], email, username)
    ensures r.Some? ==> r.value == EMAIL_TAKEN || r.value == USERNAME_TAKEN
    ensures r == Some(USERNAME_TAKEN) ==> exists k :: 0 <= k < |users| && users[k].username == username
    ensures r == Some(EMAIL_TAKEN) ==> exists k :: 0 <= k < |users| && users[k].email == email
    ensures r.Some? ==>
      exists k :: 0 <= k < |users| && ClashesWith(users[k], email, username)
        && (forall j :: 0 <= j < k ==> !ClashesWith(users[j], email, username))
        && (r.value == EMAIL_TAKEN <==> users[k].email == email)
  {
    match FirstIndex(users, (u: User) => ClashesWith(u, email, username))
    case None => None
    case Some(k) => Some(if users[k].email == email then EMAIL_TAKEN else USERNAME_TAKEN)
  }

  /**
   * The first clashing user decides the message, not whether the email is
   * taken: when the user holding the username was stored before the user
   * holding the email, the report is "Username already taken".
   */
  lemma RegisterConflictFirstMatch(a: User, b: User, email: string, username: string)
    requires a.username == username && a.email != email
    requires b.email == email
    ensures RegisterConflict([a, b], email, username) == Some(USERNAME_TAKEN)
    ensures RegisterConflict([b, a], email, username) == Some(EMAIL_TAKEN)
  {
    assert ClashesWith([a, b][0], email, username);
    assert ClashesWith([b, a][0], email, username);
  }

  /** The row `register_user` adds; the id column's default is the next fresh id. */
  function NewUser(id: Id, email: string, username: string, password: string,
                   firstName: Option<string>, lastName: Option<string>, salt: nat, now: Time): (u: User)
    ensures u.id == id && u.email == email && u.username == username
    ensures CheckPassword(u, password)
    ensures u.isActive && !u.isVerified
  {
    User(id, email, username, HashPassword(password, salt), firstName, lastName, true, false, now, now)
  }

  /** The association rows registration adds: one to the role named "user", if that role exists. */
  function DefaultLinks(roles: seq<Role>, uid: Id, now: Time): (links: seq<UserRole>)
    ensures |links| <= 1
    ensures |links| == 1 <==> FindRoleByName(roles, DEFAULT_ROLE).Some?
    ensures |links| == 1 ==> links[0] == UserRole(uid, FindRoleByName(roles, DEFAULT_ROLE).value.id, now)
  {
    match FindRoleByName(roles, DEFAULT_ROLE)
    case Some(ro) => [UserRole(uid, ro.id, now)]
    case None => []
  }

  /** `AuthService.register_user`. */
  function Register(d: Db, email: string, username: string, password: string,
                    firstName: Option<string>, lastName: Option<string>, salt: nat, now: Time): (s: Step<Registered>)
    requires Consistent(d)
    ensures Consistent(s.db)
  {
    match RegisterConflict(d.users, email, username)
    case Some(msg) => Step(Err(msg), d)
    case None =>
      var u := NewUser(d.nextId, email, username, password, firstName, lastName, salt, now);
      var d1 := d.(users := d.users + [u], nextId := d.nextId + 1);
      AddUserKeeps(d, u);
      var links := DefaultLinks(d.roles, u.id, now);
      var d' := d1.(userRoles := d.userRoles + links);
      NoLinksOfFreshUser(d);
      if |links| == 1 then
        AddLinkKeeps(d1, links[0]);
        Step(Ok(Registered(ToDict(u, true, d'.userRoles, d'.roles), REGISTERED)), d')
      else
        Step(Ok(Registered(ToDict(u, true, d'.userRoles, d'.roles), REGISTERED)), d')
  }

  /**
   * Registration is refused, with nothing changed, exactly when a stored user
   * has the e-mail or the username; otherwise it appends the new user, with
   * its password hashed, and its link to the role "user" when that role exists.
   */
  lemma RegisterSpec(d: Db, email: string, username: string, password: string,
                     firstName: Option<string>, lastName: Option<string>, salt: nat, now: Time)
    requires Consistent(d)
    ensures var s := Register(d, email, username, password, firstName, lastName, salt, now);
      && (s.result.Err? <==> exists k :: 0 <= k < |d.users| && ClashesWith(d.users[k], email, username))
      && (s.result.Err? ==> s.db == d && Some(s.result.error) == RegisterConflict(d.users, email, username))
      && (s.result.Ok? ==>
        && |s.db.users| == |d.users| + 1
        && s.db.users[..|d.users|] == d.users
        && var u := s.db.users[|d.users|];
        && u.email == email && u.username == username && CheckPassword(u, password)
        && u.isActive && !u.isVerified && u.firstName == firstName && u.lastName == lastName
        && u.id !in UserIds(d.users)
        && s.db.userRoles == d.userRoles + DefaultLinks(d.roles, u.id, now)
        && s.db.roles == d.roles && s.db.refreshTokens == d.refreshTokens && s.db.issued == d.issued
        && s.result.value.user == ToDict(u, true, s.db.userRoles, s.db.roles)
        && s.result.value.user.roles == Some(if FindRoleByName(d.roles, DEFAULT_ROLE).Some? then [DEFAULT_ROLE] else [])
        && s.result.value.message == REGISTERED)
  {
    if RegisterConflict(d.users, email, username).None? {
      var u := NewUser(d.nextId, email, username, password, firstName, lastName, salt, now);
      var links := DefaultLinks(d.roles, u.id, now);
      var d' := d.(users := d.users + [u], nextId := d.nextId + 1, userRoles := d.userRoles + links);
      assert (d.users + [u])[..|d.users|] == d.users;
      NewUserRoles(d, d', u, links);
    }
  }

  /** No association row refers to the id the allocator hands out next. */
  lemma NoLinksOfFreshUser(d: Db)
    requires Consistent(d)
    ensures forall k :: 0 <= k < |d.userRoles| ==> d.userRoles[k].userId != d.nextId
    ensures d.nextId !in UserIds(d.users)
  {
    forall k | 0 <= k < |d.userRoles| ensures d.userRoles[k].userId != d.nextId {
      assert d.userRoles[k] in d.userRoles;
    }
  }

  /** The role `FindRole` returns for the id of a stored role is that role. */
  lemma FindRoleOfMember(roles: seq<Role>, ro: Role)
    requires RolesUnique(roles) && ro in roles
    ensures FindRole(roles, ro.id) == Some(ro)
  {
    assert ro.id in RoleIds(roles);
    var f := FindRole(roles, ro.id).value;
    var i :| 0 <= i < |roles| && roles[i] == f;
    var j :| 0 <= j < |roles| && roles[j] == ro;
    assert roles[i].id == roles[j].id;
  }

  /** The user registration creates has exactly the roles of `links`. */
  lemma NewUserRoles(d: Db, d': Db, u: User, links: seq<UserRole>)
    requires Consistent(d) && u.id == d.nextId
    requires links == DefaultLinks(d.roles, u.id, if |links| == 1 then links[0].assignedAt else 0)
    requires d'.userRoles == d.userRoles + links && d'.roles == d.roles
    ensures RoleNames(GetRoles(u.id, d'.userRoles, d'.roles))
         == if FindRoleByName(d.roles, DEFAULT_ROLE).Some? then [DEFAULT_ROLE] else []
  {
    NoLinksOfFreshUser(d);
    GetRolesUnassigned(u.id, d.userRoles, d.roles);
    if |links| == 1 {
      var ro := FindRoleByName(d.roles, DEFAULT_ROLE).value;
      GetRolesAppend(u.id, d.userRoles, links[0], d.roles);
      FindRoleOfMember(d.roles, ro);
      assert GetRoles(u.id, d'.userRoles, d'.roles) == [ro];
    } else {
      assert d'.userRoles == d.userRoles;
    }
  }

  // ----------------------------------------------------------------- login

  /** A freshly minted pair: two distinct strings the key has never signed. */
  ghost predicate FreshPair(d: Db, accessToken: string, refreshToken: string)
  {
    accessToken != refreshToken && accessToken !in d.issued && refreshToken !in d.issued
  }

  /** The refresh-token row stored for a token minted at `now`. */
  function NewRow(id: Id, uid: Id, refreshToken: string, now: Time): (t: RefreshToken)
    ensures t.tokenHash == Sha256(refreshToken) && !t.isRevoked
    ensures t.expiresAt == now + REFRESH_TOKEN_LIFETIME && t.userId == uid
  {
    RefreshToken(id, uid, Sha256(refreshToken), now + REFRESH_TOKEN_LIFETIME, false, now)
  }

  /**
   * Minting an access and a refresh token for `u` at `now` and storing the
   * refresh token's hash: the step shared by login and refresh.
   */
  function IssueTokens(d: Db, u: User, accessToken: string, refreshToken: string, now: Time): (d': Db)
    requires Consistent(d) && FreshPair(d, accessToken, refreshToken)
    ensures Consistent(d')
    ensures d'.refreshTokens == d.refreshTokens + [NewRow(d.nextId, u.id, refreshToken, now)]
    ensures d'.issued == d.issued[accessToken := AccessClaims(u.id, u.email, u.username, RoleNames(UserRolesOf(d, u.id)), now)]
                                 [refreshToken := RefreshClaims(u.id, now)]
    ensures d'.users == d.users && d'.roles == d.roles && d'.userRoles == d.userRoles
  {
    var access := AccessClaims(u.id, u.email, u.username, RoleNames(UserRolesOf(d, u.id)), now);
    var row := NewRow(d.nextId, u.id, refreshToken, now);
    var d' := d.(refreshTokens := d.refreshTokens + [row],
                 issued := d.issued[accessToken := access][refreshToken := RefreshClaims(u.id, now)],
                 nextId := d.nextId + 1);
    AddTokenKeeps(d, row, d'.issued);
    d'
  }

  /** `AuthService.authenticate_user`. */
  function Login(d: Db, email: string, password: string, accessToken: string, refreshToken: string, now: Time)
    : (s: Step<LoginResponse>)
    requires Consistent(d) && FreshPair(d, accessToken, refreshToken)
    ensures Consistent(s.db)
    ensures s.result.Err? ==> s.db == d
    // one message for an unknown email and for a wrong password
    ensures s.result == Err(INVALID_CREDENTIALS) <==>
      FindUserByEmail(d.users, email).None? || !CheckPassword(FindUserByEmail(d.users, email).value, password)
    // the account state is looked at only once the credentials pass
    ensures s.result == Err(DEACTIVATED) <==>
      FindUserByEmail(d.users, email).Some? && CheckPassword(FindUserByEmail(d.users, email).value, password)
      && !FindUserByEmail(d.users, email).value.isActive
    ensures s.result.Err? ==> s.result.error == INVALID_CREDENTIALS || s.result.error == DEACTIVATED
    ensures s.result.Ok? ==>
      var u := FindUserByEmail(d.users, email).value;
      && s.db == IssueTokens(d, u, accessToken, refreshToken, now)
      && s.result.value == LoginResponse(accessToken, refreshToken, TOKEN_TYPE, ACCESS_TOKEN_LIFETIME,
                                         ToDict(u, true, d.userRoles, d.roles))
  {
    match FindUserByEmail(d.users, email)
    case None => Step(Err(INVALID_CREDENTIALS), d)
    case Some(u) =>
      if !CheckPassword(u, password) then Step(Err(INVALID_CREDENTIALS), d)
      else if !u.isActive then Step(Err(DEACTIVATED), d)
      else
        Step(Ok(LoginResponse(accessToken, refreshToken, TOKEN_TYPE, ACCESS_TOKEN_LIFETIME, ToDict(u, true, d.userRoles, d.roles))),
             IssueTokens(d, u, accessToken, refreshToken, now))
  }

  /** `User.query.filter_by(email=email).first()`. */
  function FindUserByEmail(users: seq<User>, email: string): (r: Option<User>)
    ensures r.Some? ==> r.value in users && r.value.email == email
    ensures r.None? <==> forall k :: 0 <= k < |users| ==> users[k].email != email
  {
    match FirstIndex(users, (u: User) => u.email == email)
    case Some(k) => Some(users[k])
    case None => None
  }

  // --------------------------------------------------------------- refresh

  predicate RowFor(t: RefreshToken, uid: Id, h: Digest)
  {
    t.userId == uid && t.tokenHash == h
  }

  /**
   * Every condition under which `refresh_access_token` succeeds: the token
   * decodes, a stored row has its subject and its hash and is valid, and the
   * subject is an active user.
   */
  ghost predicate RefreshAccepted(d: Db, token: string, now: Time)
  {
    && DecodeToken(token, d.issued, now).Some?
    && var uid := DecodeToken(token, d.issued, now).value.sub;
    && (exists j :: 0 <= j < |d.refreshTokens| && RowFor(d.refreshTokens[j], uid, Sha256(token))
                    && IsValid(d.refreshTokens[j], now))
    && FindUser(d.users, uid).Some? && FindUser(d.users, uid).value.isActive
  }

  /** `AuthService.refresh_access_token`: validate, revoke the consumed row, store the successor. */
  function Refresh(d: Db, token: string, accessToken: string, refreshToken: string, now: Time): (s: Step<TokenResponse>)
    requires Consistent(d) && FreshPair(d, accessToken, refreshToken)
    ensures Consistent(s.db)
    ensures s.result.Err? ==> s.db == d
    ensures s.result.Ok? <==> RefreshAccepted(d, token, now)
    ensures s.result.Err? ==> s.result.error in {REFRESH_FAILED, INVALID_REFRESH, USER_UNAVAILABLE}
    ensures s.result.Ok? ==>
      && s.result.value == TokenResponse(accessToken, refreshToken, TOKEN_TYPE, ACCESS_TOKEN_LIFETIME)
      && exists j :: 0 <= j < |d.refreshTokens| && d.refreshTokens[j].tokenHash == Sha256(token)
           && IsValid(d.refreshTokens[j], now)
           && s.db.refreshTokens == d.refreshTokens[j := Revoke(d.refreshTokens[j])]
                                  + [NewRow(d.nextId, d.refreshTokens[j].userId, refreshToken, now)]
    ensures s.result.Ok? ==> s.db.users == d.users && s.db.roles == d.roles && s.db.userRoles == d.userRoles
  {
    match DecodeToken(token, d.issued, now)
    case None => Step(Err(REFRESH_FAILED), d)
    case Some(claims) =>
      var uid := claims.sub;
      match FirstIndex(d.refreshTokens, (t: RefreshToken) => RowFor(t, uid, Sha256(token)))
      case None => Step(Err(INVALID_REFRESH), d)
      case Some(j) =>
        if !IsValid(d.refreshTokens[j], now) then
          OnlyRowFor(d, uid, Sha256(token), j);
          Step(Err(INVALID_REFRESH), d)
        else match FindUser(d.users, uid)
          case None => Step(Err(USER_UNAVAILABLE), d)
          case Some(u) =>
            if !u.isActive then Step(Err(USER_UNAVAILABLE), d)
            else
              var d1 := d.(refreshTokens := d.refreshTokens[j := Revoke(d.refreshTokens[j])]);
              RevokeKeepsConsistent(d, j);
              Step(Ok(TokenResponse(accessToken, refreshToken, TOKEN_TYPE, ACCESS_TOKEN_LIFETIME)),
                   IssueTokens(d1, u, accessToken, refreshToken, now))
  }

  /** With unique hashes, the first row with a hash is the only one. */
  lemma OnlyRowFor(d: Db, uid: Id, h: Digest, j: nat)
    requires Consistent(d) && j < |d.refreshTokens| && RowFor(d.refreshTokens[j], uid, h)
    ensures forall i :: 0 <= i < |d.refreshTokens| && RowFor(d.refreshTokens[i], uid, h) ==> i == j
  {
  }

  // ---------------------------------------------------------------- logout

  /** `AuthService.logout_user`: revoke the row with the token's hash, if there is one; always succeed. */
  function Logout(d: Db, token: string): (s: Step<string>)
    requires Consistent(d)
    ensures Consistent(s.db)
    ensures s.result == Ok(LOGGED_OUT)
    ensures s.db.users == d.users && s.db.roles == d.roles && s.db.userRoles == d.userRoles
    ensures s.db.issued == d.issued && s.db.nextId == d.nextId
    ensures (forall j :: 0 <= j < |d.refreshTokens| ==> d.refreshTokens[j].tokenHash != Sha256(token)) ==> s.db == d
    ensures forall j :: 0 <= j < |d.refreshTokens| && d.refreshTokens[j].tokenHash == Sha256(token) ==>
      s.db.refreshTokens == d.refreshTokens[j := Revoke(d.refreshTokens[j])]
  {
    match FirstIndex(d.refreshTokens, (t: RefreshToken) => t.tokenHash == Sha256(token))
    case None => Step(Ok(LOGGED_OUT), d)
    case Some(j) =>
      RevokeKeepsConsistent(d, j);
      Step(Ok(LOGGED_OUT), d.(refreshTokens := d.refreshTokens[j := Revoke(d.refreshTokens[j])]))
  }

  // ------------------------------------------------------- change password

  /** `AuthService.update_user_password`. */
  function UpdatePassword(d: Db, userId: Id, current: string, newPassword: string, salt: nat, now: Time): (s: Step<string>)
    requires Consistent(d)
    ensures Consistent(s.db)
    ensures s.result == Err(USER_NOT_FOUND) <==> FindUser(d.users, userId).None?
    ensures s.result == Err(WRONG_PASSWORD) <==>
      FindUser(d.users, userId).Some? && !CheckPassword(FindUser(d.users, userId).value, current)
    ensures s.result.Err? ==> s.db == d
    ensures s.result.Ok? ==> s.result.value == PASSWORD_UPDATED
    ensures s.result.Ok? ==>
      && s.db.roles == d.roles && s.db.userRoles == d.userRoles && s.db.refreshTokens == d.refreshTokens
      && s.db.issued == d.issued && s.db.nextId == d.nextId
      && |s.db.users| == |d.users|
      && forall k :: 0 <= k < |d.users| ==>
           s.db.users[k] == if d.users[k].id == userId
                            then SetPassword(d.users[k], newPassword, salt).(updatedAt := now)
                            else d.users[k]
  {
    match FirstIndex(d.users, (u: User) => u.id == userId)
    case None => Step(Err(USER_NOT_FOUND), d)
    case Some(k) =>
      if !CheckPassword(d.users[k], current) then Step(Err(WRONG_PASSWORD), d)
      else
        var u' := SetPassword(d.users[k], newPassword, salt).(updatedAt := now);
        ReplaceUserKeeps(d, k, u');
        Step(Ok(PASSWORD_UPDATED), d.(users := d.users[k := u']))
  }

  // ---------------------------------------------------------- default roles

  datatype RoleSpec = RoleSpec(name: string, description: string, permissions: Permissions)

  /** The three roles `create_default_roles` seeds, in its order. */
  function DefaultRoles(): (specs: seq<RoleSpec>)
    ensures |specs| == 3
    ensures specs[0].name == "admin" && specs[1].name == "user" && specs[2].name == "analyst"
  {
    [ RoleSpec("admin", "Administrator with full system access",
               map["users" := ["create", "read", "update", "delete"],
                   "roles" := ["create", "read", "update", "delete"],
                   "system" := ["manage", "configure"]]),
      RoleSpec("user", "Standard user with basic access",
               map["profile" := ["read", "update"], "llm" := ["use"], "analytics" := ["view"]]),
      RoleSpec("analyst", "Data analyst with analytics access",
               map["profile" := ["read", "update"],
                   "analytics" := ["create", "read", "update", "delete"],
                   "reports" := ["create", "read", "update", "delete"]]) ]
  }

  /** One iteration of the seeding loop: insert the role only when no role has its name. */
  function SeedOne(d: Db, spec: RoleSpec, now: Time): (d': Db)
  {
    if FindRoleByName(d.roles, spec.name).Some? then d
    else d.(roles := d.roles + [Role(d.nextId, spec.name, Some(spec.description), spec.permissions, now)],
            nextId := d.nextId + 1)
  }

  /** The seeding loop over `specs`. */
  function Seed(d: Db, specs: seq<RoleSpec>, now: Time): (d': Db)
    decreases |specs|
  {
    if |specs| == 0 then d else Seed(SeedOne(d, specs[0], now), specs[1..], now)
  }

  lemma SeedOneKeeps(d: Db, spec: RoleSpec, now: Time)
    requires Consistent(d)
    ensures var d' := SeedOne(d, spec, now);
      && Consistent(d')
      && |d.roles| <= |d'.roles| && d'.roles[..|d.roles|] == d.roles
      && d'.users == d.users && d'.userRoles == d.userRoles && d'.refreshTokens == d.refreshTokens
      && d'.issued == d.issued
      && FindRoleByName(d'.roles, spec.name).Some?
      && (forall n :: FindRoleByName(d.roles, n).Some? ==> FindRoleByName(d'.roles, n) == FindRoleByName(d.roles, n))
      && (forall k :: |d.roles| <= k < |d'.roles| ==> d'.roles[k].name == spec.name)
  {
    if FindRoleByName(d.roles, spec.name).None? {
      var ro := Role(d.nextId, spec.name, Some(spec.description), spec.permissions, now);
      AddRoleKeeps(d, ro);
      assert (d.roles + [ro])[..|d.roles|] == d.roles;
      assert (d.roles + [ro])[|d.roles|] == ro;
      forall n | FindRoleByName(d.roles, n).Some?
        ensures FindRoleByName(d.roles + [ro], n) == FindRoleByName(d.roles, n)
      {
        FirstIndexAppend(d.roles, ro, (r: Role) => r.name == n);
      }
    }
  }

  /** Seeding keeps every constraint and every existing role as it is, permissions included. */
  lemma {:induction false} SeedKeeps(d: Db, specs: seq<RoleSpec>, now: Time)
    requires Consistent(d)
    ensures var d' := Seed(d, specs, now);
      && Consistent(d')
      && |d.roles| <= |d'.roles| && d'.roles[..|d.roles|] == d.roles
      && d'.users == d.users && d'.userRoles == d.userRoles && d'.refreshTokens == d.refreshTokens
      && d'.issued == d.issued
    decreases |specs|
  {
    if |specs| > 0 {
      var d1 := SeedOne(d, specs[0], now);
      SeedOneKeeps(d, specs[0], now);
      SeedKeeps(d1, specs[1..], now);
      var d' := Seed(d1, specs[1..], now);
      assert d'.roles[..|d.roles|] == d'.roles[..|d1.roles|][..|d.roles|];
    }
  }

  /** A name that is present keeps resolving to the same role while seeding. */
  lemma {:induction false} SeedKeepsLookups(d: Db, specs: seq<RoleSpec>, now: Time, n: string)
    requires Consistent(d) && FindRoleByName(d.roles, n).Some?
    ensures FindRoleByName(Seed(d, specs, now).roles, n) == FindRoleByName(d.roles, n)
    decreases |specs|
  {
    if |specs| > 0 {
      SeedOneKeeps(d, specs[0], now);
      SeedKeepsLookups(SeedOne(d, specs[0], now), specs[1..], now, n);
    }
  }

  /** After seeding every spec's name is present. */
  lemma {:induction false} SeedCovers(d: Db, specs: seq<RoleSpec>, now: Time)
    requires Consistent(d)
    ensures forall i :: 0 <= i < |specs| ==> FindRoleByName(Seed(d, specs, now).roles, specs[i].name).Some?
    decreases |specs|
  {
    if |specs| > 0 {
      var d1 := SeedOne(d, specs[0], now);
      SeedOneKeeps(d, specs[0], now);
      SeedCovers(d1, specs[1..], now);
      SeedKeepsLookups(d1, specs[1..], now, specs[0].name);
      forall i | 1 <= i < |specs| ensures FindRoleByName(Seed(d, specs, now).roles, specs[i].name).Some? {
        assert specs[i] == specs[1..][i - 1];
      }
    }
  }

  /** Seeding adds only roles named by a spec. */
  lemma {:induction false} SeedAddsOnlySpecs(d: Db, specs: seq<RoleSpec>, now: Time)
    requires Consistent(d)
    ensures var d' := Seed(d, specs, now);
      forall k :: |d.roles| <= k < |d'.roles| ==> exists i :: 0 <= i < |specs| && d'.roles[k].name == specs[i].name
    decreases |specs|
  {
    if |specs| > 0 {
      var d1 := SeedOne(d, specs[0], now);
      SeedOneKeeps(d, specs[0], now);
      SeedKeeps(d1, specs[1..], now);
      SeedAddsOnlySpecs(d1, specs[1..], now);
      var d' := Seed(d1, specs[1..], now);
      forall k | |d.roles| <= k < |d'.roles|
        ensures exists i :: 0 <= i < |specs| && d'.roles[k].name == specs[i].name
      {
        if k < |d1.roles| {
          assert d'.roles[k] == d'.roles[..|d1.roles|][k] == d1.roles[k];
          assert d'.roles[k].name == specs[0].name;
        } else {
          var i :| 0 <= i < |specs[1..]| && d'.roles[k].name == specs[1..][i].name;
          assert specs[1..][i] == specs[i + 1];
        }
      }
    }
  }

  /** Seeding when every spec's name is already present changes nothing. */
  lemma {:induction false} SeedPresent(d: Db, specs: seq<RoleSpec>, now: Time)
    requires forall i :: 0 <= i < |specs| ==> FindRoleByName(d.roles, specs[i].name).Some?
    ensures Seed(d, specs, now) == d
    decreases |specs|
  {
    if |specs| > 0 {
      assert SeedOne(d, specs[0], now) == d;
      forall i | 0 <= i < |specs[1..]| ensures FindRoleByName(d.roles, specs[1..][i].name).Some? {
        assert specs[1..][i] == specs[i + 1];
      }
      SeedPresent(d, specs[1..], now);
    }
  }

  /** `create_default_roles` is idempotent: a second run, at any time, leaves the first run's state. */
  lemma SeedIdempotent(d: Db, now: Time, later: Time)
    requires Consistent(d)
    ensures Seed(Seed(d, DefaultRoles(), now), DefaultRoles(), later) == Seed(d, DefaultRoles(), now)
  {
    SeedCovers(d, DefaultRoles(), now);
    SeedPresent(Seed(d, DefaultRoles(), now), DefaultRoles(), later);
  }

  /** On an empty roles table seeding stores exactly the three defaults, in order. */
  lemma SeedFromEmpty(d: Db, now: Time)
    requires Consistent(d) && d.roles == []
    ensures |Seed(d, DefaultRoles(), now).roles| == 3
    ensures RoleNames(Seed(d, DefaultRoles(), now).roles) == ["admin", "user", "analyst"]
    ensures forall i :: 0 <= i < 3 ==>
      && Seed(d, DefaultRoles(), now).roles[i].permissions == DefaultRoles()[i].permissions
      && Seed(d, DefaultRoles(), now).roles[i].description == Some(DefaultRoles()[i].description)
  {
    var specs := DefaultRoles();
    var d1 := SeedOne(d, specs[0], now);
    assert |d1.roles| == 1;
    var d2 := SeedOne(d1, specs[1], now);
    assert FindRoleByName(d1.roles, "user").None? by { assert d1.roles[0].name == "admin"; assert "admin" != "user"; }
    var d3 := SeedOne(d2, specs[2], now);
    assert FindRoleByName(d2.roles, "analyst").None? by {
      assert d2.roles[0].name == "admin" && d2.roles[1].name == "user";
      assert "admin" != "analyst" && "user" != "analyst";
    }
    assert specs[1..][1..][1..] == [];
    assert Seed(d, specs, now) == d3;
  }

  // ----------------------------------------------------------- role admin

  /** `RoleService.create_role`: an exact-name duplicate is rejected; `permissions or {}`. */
  function CreateRole(d: Db, name: string, description: Option<string>, permissions: Option<Permissions>, now: Time)
    : (s: Step<RoleCreated>)
    requires Consistent(d)
    ensures Consistent(s.db)
    ensures s.result.Err? <==> exists k :: 0 <= k < |d.roles| && d.roles[k].name == name
    ensures s.result.Err? ==> s.db == d && s.result.error == ROLE_EXISTS
    ensures s.result.Ok? ==>
      && var ro := s.result.value.role;
      && ro.name == name && ro.description == description && ro.permissions == permissions.GetOr(map[])
      && ro.id !in RoleIds(d.roles)
      && s.db == d.(roles := d.roles + [ro], nextId := d.nextId + 1)
      && s.result.value.message == ROLE_CREATED
  {
    if FindRoleByName(d.roles, name).Some? then Step(Err(ROLE_EXISTS), d)
    else
      var ro := Role(d.nextId, name, description, permissions.GetOr(map[]), now);
      AddRoleKeeps(d, ro);
      Step(Ok(RoleCreated(ro, ROLE_CREATED)), d.(roles := d.roles + [ro], nextId := d.nextId + 1))
  }

  /** `RoleService.get_all_roles`. */
  function GetAllRoles(d: Db): (rs: seq<Role>)
    ensures forall ro :: ro in rs <==> ro in d.roles
  {
    d.roles
  }

  /** `RoleService.get_role_by_id`: the role with that id, or `None` ("not found", no exception). */
  function GetRoleById(d: Db, id: Id): (r: Option<Role>)
    requires Consistent(d)
    ensures r.Some? <==> exists k :: 0 <= k < |d.roles| && d.roles[k].id == id
    ensures r.Some? ==> r.value.id == id && r.value in d.roles
  {
    FindRole(d.roles, id)
  }

  predicate IsPair(ur: UserRole, userId: Id, roleId: Id)
  {
    ur.userId == userId && ur.roleId == roleId
  }

  /** `RoleService.assign_role_to_user`: user checked before role, then the pair. */
  function AssignRole(d: Db, userId: Id, roleId: Id, now: Time): (s: Step<string>)
    requires Consistent(d)
    ensures Consistent(s.db)
    ensures s.result == Err(USER_NOT_FOUND) <==> FindUser(d.users, userId).None?
    ensures s.result == Err(ROLE_NOT_FOUND) <==> FindUser(d.users, userId).Some? && FindRole(d.roles, roleId).None?
    ensures s.result == Err(ALREADY_ASSIGNED) <==>
      FindUser(d.users, userId).Some? && FindRole(d.roles, roleId).Some?
      && exists k :: 0 <= k < |d.userRoles| && IsPair(d.userRoles[k], userId, roleId)
    ensures s.result.Err? ==> s.db == d
    ensures s.result.Ok? ==>
      s.result.value == ASSIGNED && s.db == d.(userRoles := d.userRoles + [UserRole(userId, roleId, now)])
  {
    if FindUser(d.users, userId).None? then Step(Err(USER_NOT_FOUND), d)
    else if FindRole(d.roles, roleId).None? then Step(Err(ROLE_NOT_FOUND), d)
    else if FirstIndex(d.userRoles, (ur: UserRole) => IsPair(ur, userId, roleId)).Some? then Step(Err(ALREADY_ASSIGNED), d)
    else
      AddLinkKeeps(d, UserRole(userId, roleId, now));
      Step(Ok(ASSIGNED), d.(userRoles := d.userRoles + [UserRole(userId, roleId, now)]))
  }

  /** `RoleService.remove_role_from_user`: deletes exactly the pair's row. */
  function RemoveRole(d: Db, userId: Id, roleId: Id): (s: Step<string>)
    requires Consistent(d)
    ensures Consistent(s.db)
    ensures s.result.Err? <==> forall k :: 0 <= k < |d.userRoles| ==> !IsPair(d.userRoles[k], userId, roleId)
    ensures s.result.Err? ==> s.db == d && s.result.error == NOT_ASSIGNED
    ensures s.result.Ok? ==>
      && s.result.value == REMOVED
      && s.db.users == d.users && s.db.roles == d.roles && s.db.refreshTokens == d.refreshTokens
      && s.db.issued == d.issued && s.db.nextId == d.nextId
      && (exists k :: 0 <= k < |d.userRoles| && IsPair(d.userRoles[k], userId, roleId)
            && s.db.userRoles == RemoveAt(d.userRoles, k))
    ensures s.result.Ok? ==> forall k :: 0 <= k < |s.db.userRoles| ==> !IsPair(s.db.userRoles[k], userId, roleId)
  {
    match FirstIndex(d.userRoles, (ur: UserRole) => IsPair(ur, userId, roleId))
    case None => Step(Err(NOT_ASSIGNED), d)
    case Some(k) =>
      RemoveLinkKeeps(d, k);
      OnlyPair(d, userId, roleId, k);
      Step(Ok(REMOVED), d.(userRoles := RemoveAt(d.userRoles, k)))
  }

  /** With a composite key, the first row of a pair is its only row. */
  lemma OnlyPair(d: Db, userId: Id, roleId: Id, k: nat)
    requires Consistent(d) && k < |d.userRoles| && IsPair(d.userRoles[k], userId, roleId)
    ensures forall i :: 0 <= i < |RemoveAt(d.userRoles, k)| ==> !IsPair(RemoveAt(d.userRoles, k)[i], userId, roleId)
  {
    var urs := RemoveAt(d.userRoles, k);
    forall i | 0 <= i < |urs| ensures !IsPair(urs[i], userId, roleId) {
      if i < k {
        assert urs[i] == d.userRoles[i];
      } else {
        assert urs[i] == d.userRoles[i + 1];
      }
    }
  }

  // ------------------------------------------------------ multi-step facts

  /**
   * Single use: once a refresh with `token` succeeds, replaying the same
   * token fails, at any later time and whatever tokens the replay would mint.
   */
  lemma RefreshSingleUse(d: Db, token: string, a1: string, r1: string, a2: string, r2: string, now: Time, later: Time)
    requires Consistent(d) && FreshPair(d, a1, r1)
    requires Refresh(d, token, a1, r1, now).result.Ok?
    requires FreshPair(Refresh(d, token, a1, r1, now).db, a2, r2)
    ensures Refresh(Refresh(d, token, a1, r1, now).db, token, a2, r2, later).result.Err?
  {
    var d1 := Refresh(d, token, a1, r1, now).db;
    var j :| 0 <= j < |d.refreshTokens| && d.refreshTokens[j].tokenHash == Sha256(token)
           && IsValid(d.refreshTokens[j], now)
           && d1.refreshTokens == d.refreshTokens[j := Revoke(d.refreshTokens[j])]
                                 + [NewRow(d.nextId, d.refreshTokens[j].userId, r1, now)];
    assert token in d.issued;
    assert Sha256(r1) != Sha256(token);
    forall i | 0 <= i < |d1.refreshTokens| && d1.refreshTokens[i].tokenHash == Sha256(token)
      ensures !IsValid(d1.refreshTokens[i], later)
    {
      assert i < |d.refreshTokens|;
      assert i == j;
    }
  }

  /** A successful refresh stores the successor's row last and signs the successor for the token's user. */
  lemma RefreshStoresSuccessor(d: Db, token: string, a: string, r: string, now: Time)
    requires Consistent(d) && FreshPair(d, a, r)
    requires Refresh(d, token, a, r, now).result.Ok?
    ensures var d1 := Refresh(d, token, a, r, now).db;
      var uid := DecodeToken(token, d.issued, now).value.sub;
      && |d1.refreshTokens| == |d.refreshTokens| + 1
      && d1.refreshTokens[|d.refreshTokens|] == NewRow(d.nextId, uid, r, now)
      && r in d1.issued && d1.issued[r] == RefreshClaims(uid, now)
      && d1.users == d.users
  {
    var uid := DecodeToken(token, d.issued, now).value.sub;
    var j := FirstIndex(d.refreshTokens, (t: RefreshToken) => RowFor(t, uid, Sha256(token))).value;
    assert d.refreshTokens[j].userId == uid;
  }

  /** The successor token of a refresh itself refreshes while its row and its signature are current. */
  lemma RotatedTokenRefreshes(d: Db, token: string, a1: string, r1: string, a2: string, r2: string, now: Time, later: Time)
    requires Consistent(d) && FreshPair(d, a1, r1)
    requires Refresh(d, token, a1, r1, now).result.Ok?
    requires FreshPair(Refresh(d, token, a1, r1, now).db, a2, r2)
    requires now <= later < now + REFRESH_TOKEN_LIFETIME
    ensures Refresh(Refresh(d, token, a1, r1, now).db, r1, a2, r2, later).result.Ok?
  {
    var d1 := Refresh(d, token, a1, r1, now).db;
    var uid := DecodeToken(token, d.issued, now).value.sub;
    RefreshStoresSuccessor(d, token, a1, r1, now);
    var n := |d.refreshTokens|;
    assert DecodeToken(r1, d1.issued, later) == Some(RefreshClaims(uid, now));
    assert RowFor(d1.refreshTokens[n], uid, Sha256(r1)) && IsValid(d1.refreshTokens[n], later);
  }

  /** After logout with a token, refreshing with it fails. */
  lemma LogoutThenRefreshFails(d: Db, token: string, a: string, r: string, later: Time)
    requires Consistent(d)
    requires FreshPair(Logout(d, token).db, a, r)
    ensures Refresh(Logout(d, token).db, token, a, r, later).result.Err?
  {
    var d1 := Logout(d, token).db;
    forall i | 0 <= i < |d1.refreshTokens| && d1.refreshTokens[i].tokenHash == Sha256(token)
      ensures !IsValid(d1.refreshTokens[i], later)
    {
      assert d1.refreshTokens == d.refreshTokens[i := Revoke(d.refreshTokens[i])];
    }
  }

  /** After a successful assignment the user has the role, by name. */
  lemma AssignGrantsRole(d: Db, userId: Id, roleId: Id, now: Time)
    requires Consistent(d)
    requires AssignRole(d, userId, roleId, now).result.Ok?
    ensures HasRole(userId, FindRole(d.roles, roleId).value.name, AssignRole(d, userId, roleId, now).db.userRoles, d.roles)
  {
    var d1 := AssignRole(d, userId, roleId, now).db;
    var n := |d.userRoles|;
    assert AssignsRoleNamed(d1.userRoles[n], userId, FindRole(d.roles, roleId).value.name, d.roles);
    HasRoleIff(userId, FindRole(d.roles, roleId).value.name, d1.userRoles, d.roles);
  }

  /** The access token a login returns carries the user's role names at that moment. */
  lemma LoginClaimsRoles(d: Db, email: string, password: string, a: string, r: string, now: Time)
    requires Consistent(d) && FreshPair(d, a, r)
    requires Login(d, email, password, a, r, now).result.Ok?
    ensures var u := FindUserByEmail(d.users, email).value;
            var s := Login(d, email, password, a, r, now);
            && DecodeToken(a, s.db.issued, now) == Some(AccessClaims(u.id, u.email, u.username, RoleNames(UserRolesOf(d, u.id)), now))
            && s.result.value.user.roles == Some(RoleNames(UserRolesOf(d, u.id)))
  {
  }

  // ----------------------------------------------------------------- store

  /** The store the flows share: the four tables and the JWT key's record, updated in place. */
  class AuthStore {
    var users: seq<User>
    var roles: seq<Role>
    var userRoles: seq<UserRole>
    var refreshTokens: seq<RefreshToken>
    var issued: map<string, JwtClaims>
    var nextId: nat

    function State(): Db
      reads this
    {
      Db(users, roles, userRoles, refreshTokens, issued, nextId)
    }

    ghost predicate Valid()
      reads this
    {
      Consistent(State())
    }

    /** An empty database, as `db.create_all()` leaves it. */
    constructor ()
      ensures Valid() && State() == EmptyDb
    {
      users, roles, userRoles, refreshTokens, issued, nextId := [], [], [], [], map[], 0;
    }

    method RegisterUser(email: string, username: string, password: string,
                        firstName: Option<string>, lastName: Option<string>, salt: nat, now: Time)
      returns (r: Result<Registered>)
      requires Valid()
      modifies this
      ensures Valid()
      ensures var s := Register(old(State()), email, username, password, firstName, lastName, salt, now);
              r == s.result && State() == s.db
    {
      ghost var d := State();
      ghost var s := Register(d, email, username, password, firstName, lastName, salt, now);
      var existing := FirstIndex(users, (u: User) => ClashesWith(u, email, username));
      if existing.Some? {
        var k := existing.value;
        if users[k].email == email {
          return Err(EMAIL_TAKEN);
        } else {
          return Err(USERNAME_TAKEN);
        }
      }
      var user := NewUser(nextId, email, username, password, firstName, lastName, salt, now);
      users := users + [user];
      nextId := nextId + 1;
      var defaultRole := FindRoleByName(roles, DEFAULT_ROLE);
      if defaultRole.Some? {
        userRoles := userRoles + [UserRole(user.id, defaultRole.value.id, now)];
      }
      assert userRoles == d.userRoles + DefaultLinks(d.roles, user.id, now);
      assert State() == s.db;
      r := Ok(Registered(ToDict(user, true, userRoles, roles), REGISTERED));
    }

    method AuthenticateUser(email: string, password: string, accessToken: string, refreshToken: string, now: Time)
      returns (r: Result<LoginResponse>)
      requires Valid() && FreshPair(State(), accessToken, refreshToken)
      modifies this
      ensures Valid()
      ensures var s := Login(old(State()), email, password, accessToken, refreshToken, now);
              r == s.result && State() == s.db
    {
      var found := FindUserByEmail(users, email);
      if found.None? || !CheckPassword(found.value, password) {
        return Err(INVALID_CREDENTIALS);
      }
      var user := found.value;
      if !user.isActive {
        return Err(DEACTIVATED);
      }
      var response := LoginResponse(accessToken, refreshToken, TOKEN_TYPE, ACCESS_TOKEN_LIFETIME, ToDict(user, true, userRoles, roles));
      StoreTokens(user, accessToken, refreshToken, now);
      r := Ok(response);
    }

    /** Records the signed pair and adds the refresh token's row. */
    method StoreTokens(user: User, accessToken: string, refreshToken: string, now: Time)
      requires Valid() && FreshPair(State(), accessToken, refreshToken)
      modifies this
      ensures State() == IssueTokens(old(State()), user, accessToken, refreshToken, now)
      ensures Valid()
    {
      var names := RoleNames(GetRoles(user.id, userRoles, roles));
      issued := issued[accessToken := AccessClaims(user.id, user.email, user.username, names, now)];
      issued := issued[refreshToken := RefreshClaims(user.id, now)];
      refreshTokens := refreshTokens + [NewRow(nextId, user.id, refreshToken, now)];
      nextId := nextId + 1;
    }

    method RefreshAccessToken(token: string, accessToken: string, refreshToken: string, now: Time)
      returns (r: Result<TokenResponse>)
      requires Valid() && FreshPair(State(), accessToken, refreshToken)
      modifies this
      ensures Valid()
      ensures var s := Refresh(old(State()), token, accessToken, refreshToken, now);
              r == s.result && State() == s.db
    {
      var decoded := DecodeToken(token, issued, now);
      if decoded.None? {
        return Err(REFRESH_FAILED);
      }
      var uid := decoded.value.sub;
      var stored := FirstIndex(refreshTokens, (t: RefreshToken) => RowFor(t, uid, Sha256(token)));
      if stored.None? || !IsValid(refreshTokens[stored.value], now) {
        return Err(INVALID_REFRESH);
      }
      var user := FindUser(users, uid);
      if user.None? || !user.value.isActive {
        return Err(USER_UNAVAILABLE);
      }
      var j := stored.value;
      RevokeKeepsConsistent(State(), j);
      refreshTokens := refreshTokens[j := Revoke(refreshTokens[j])];
      StoreTokens(user.value, accessToken, refreshToken, now);
      r := Ok(TokenResponse(accessToken, refreshToken, TOKEN_TYPE, ACCESS_TOKEN_LIFETIME));
    }

    method LogoutUser(token: string) returns (r: Result<string>)
      requires Valid()
      modifies this
      ensures Valid()
      ensures var s := Logout(old(State()), token); r == s.result && State() == s.db
    {
      var stored := FirstIndex(refreshTokens, (t: RefreshToken) => t.tokenHash == Sha256(token));
      if stored.Some? {
        var j := stored.value;
        RevokeKeepsConsistent(State(), j);
        refreshTokens := refreshTokens[j := Revoke(refreshTokens[j])];
      }
      r := Ok(LOGGED_OUT);
    }

    /** `AuthService.get_user_by_id`. */
    function GetUserById(id: Id): (u: Option<User>)
      reads this
      ensures u.Some? <==> exists k :: 0 <= k < |users| && users[k].id == id
      ensures u.Some? ==> u.value in users && u.value.id == id
    {
      FindUser(users, id)
    }

    method UpdateUserPassword(userId: Id, current: string, newPassword: string, salt: nat, now: Time)
      returns (r: Result<string>)
      requires Valid()
      modifies this
      ensures Valid()
      ensures var s := UpdatePassword(old(State()), userId, current, newPassword, salt, now);
              r == s.result && State() == s.db
    {
      var found := FirstIndex(users, (u: User) => u.id == userId);
      if found.None? {
        return Err(USER_NOT_FOUND);
      }
      var k := found.value;
      if !CheckPassword(users[k], current) {
        return Err(WRONG_PASSWORD);
      }
      ghost var before := State();
      users := users[k := SetPassword(users[k], newPassword, salt).(updatedAt := now)];
      assert State() == UpdatePassword(before, userId, current, newPassword, salt, now).db;
      r := Ok(PASSWORD_UPDATED);
    }

    /** `create_default_roles`: seeds the three default roles, skipping a name that is present. */
    method CreateDefaultRoles(now: Time) returns (r: Result<string>)
      requires Valid()
      modifies this
      ensures Valid()
      ensures State() == Seed(old(State()), DefaultRoles(), now)
      ensures r == Ok(ROLES_SEEDED)
    {
      SeedRoles(DefaultRoles(), now);
      r := Ok(ROLES_SEEDED);
    }

    /** The loop of `create_default_roles` over `specs`. */
    method SeedRoles(specs: seq<RoleSpec>, now: Time)
      requires Valid()
      modifies this
      ensures Valid()
      ensures State() == Seed(old(State()), specs, now)
    {
      var i := 0;
      while i < |specs|
        invariant 0 <= i <= |specs|
        invariant Valid()
        invariant Seed(old(State()), specs, now) == Seed(State(), specs[i..], now)
      {
        SeedRole(specs[i], now);
        assert specs[i..][1..] == specs[i + 1..];
        i := i + 1;
      }
    }

    /** One iteration of that loop: add the spec's role unless a role of that name exists. */
    method SeedRole(spec: RoleSpec, now: Time)
      requires Valid()
      modifies this
      ensures Valid()
      ensures State() == SeedOne(old(State()), spec, now)
    {
      ghost var before := State();
      var existing := FindRoleByName(roles, spec.name);
      if existing.None? {
        var role := Role(nextId, spec.name, Some(spec.description), spec.permissions, now);
        AddRoleKeeps(before, role);
        roles := roles + [role];
        nextId := nextId + 1;
      }
    }

    method CreateRoleRow(name: string, description: Option<string>, permissions: Option<Permissions>, now: Time)
      returns (r: Result<RoleCreated>)
      requires Valid()
      modifies this
      ensures Valid()
      ensures var s := CreateRole(old(State()), name, description, permissions, now); r == s.result && State() == s.db
    {
      var existing := FindRoleByName(roles, name);
      if existing.Some? {
        return Err(ROLE_EXISTS);
      }
      var role := Role(nextId, name, description, permissions.GetOr(map[]), now);
      ghost var before := State();
      roles := roles + [role];
      nextId := nextId + 1;
      assert State() == CreateRole(before, name, description, permissions, now).db;
      r := Ok(RoleCreated(role, ROLE_CREATED));
    }

    method AssignRoleToUser(userId: Id, roleId: Id, now: Time) returns (r: Result<string>)
      requires Valid()
      modifies this
      ensures Valid()
      ensures var s := AssignRole(old(State()), userId, roleId, now); r == s.result && State() == s.db
    {
      var user := FindUser(users, userId);
      var role := FindRole(roles, roleId);
      if user.None? {
        return Err(USER_NOT_FOUND);
      }
      if role.None? {
        return Err(ROLE_NOT_FOUND);
      }
      var existing := FirstIndex(userRoles, (ur: UserRole) => IsPair(ur, userId, roleId));
      if existing.Some? {
        return Err(ALREADY_ASSIGNED);
      }
      ghost var before := State();
      userRoles := userRoles + [UserRole(userId, roleId, now)];
      assert State() == AssignRole(before, userId, roleId, now).db;
      r := Ok(ASSIGNED);
    }

    method RemoveRoleFromUser(userId: Id, roleId: Id) returns (r: Result<string>)
      requires Valid()
      modifies this
      ensures Valid()
      ensures var s := RemoveRole(old(State()), userId, roleId); r == s.result && State() == s.db
    {
      var existing := FirstIndex(userRoles, (ur: UserRole) => IsPair(ur, userId, roleId));
      if existing.None? {
        return Err(NOT_ASSIGNED);
      }
      ghost var before := State();
      userRoles := RemoveAt(userRoles, existing.value);
      assert State() == RemoveRole(before, userId, roleId).db;
      r := Ok(REMOVED);
    }
  }
}
