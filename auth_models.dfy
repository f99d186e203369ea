/**
 * The user service's four tables (users, roles, user_roles, refresh_tokens),
 * their uniqueness and key constraints, and the entity predicates the flows
 * are built from.
 *
 * Rows are values. The service's in-place field updates (`set_password`,
 * `revoke`) are the row-update functions `SetPassword` and `Revoke`, which
 * the store applies to the row it holds.
 */
module AuthModels {
  import opened Common
  import opened Crypto

  datatype User = User(
    id: Id,
    email: string,
    username: string,
    passwordHash: PasswordHash,
    firstName: Option<string>,
    lastName: Option<string>,
    isActive: bool,
    isVerified: bool,
    createdAt: Time,
    updatedAt: Time)

  /** A role's JSON permission map: resource category to allowed actions. */
  type Permissions = map<string, seq<string>>

  datatype Role = Role(
    id: Id,
    name: string,
    description: Option<string>,
    permissions: Permissions,
    createdAt: Time)

  /** One row of the association table; (userId, roleId) is its primary key. */
  datatype UserRole = UserRole(userId: Id, roleId: Id, assignedAt: Time)

  datatype RefreshToken = RefreshToken(
    id: Id,
    userId: Id,
    tokenHash: Digest,
    expiresAt: Time,
    isRevoked: bool,
    createdAt: Time)

  /** `User.to_dict(include_roles)`; `roles` is `None` when the dictionary has no `roles` key. */
  datatype UserDict = UserDict(
    id: Id,
    email: string,
    username: string,
    firstName: Option<string>,
    lastName: Option<string>,
    isActive: bool,
    isVerified: bool,
    createdAt: Time,
    updatedAt: Time,
    roles: Option<seq<string>>)

  // ------------------------------------------------------------ passwords

  /** `User.set_password`: stores a fresh salted hash of `password` and changes nothing else. */
  function SetPassword(u: User, password: string, salt: nat): (r: User)
    ensures CheckPassword(r, password)
    ensures forall other :: other != password ==> !CheckPassword(r, other)
    ensures r.(passwordHash := u.passwordHash) == u
  {
    u.(passwordHash := HashPassword(password, salt))
  }

  /** `User.check_password`. */
  predicate CheckPassword(u: User, password: string)
  {
    VerifyHash(password, u.passwordHash)
  }

  // ---------------------------------------------------------------- roles

  function UserIds(users: seq<User>): set<Id>
  {
    set u | u in users :: u.id
  }

  function RoleIds(roles: seq<Role>): set<Id>
  {
    set ro | ro in roles :: ro.id
  }

  /** `Role.query.get(id)`. */
  function FindRole(roles: seq<Role>, id: Id): (r: Option<Role>)
    ensures r.Some? ==> r.value in roles && r.value.id == id
    ensures r.None? <==> forall k :: 0 <= k < |roles| ==> roles[k].id != id
    ensures r.Some? <==> id in RoleIds(roles)
  {
    match FirstIndex(roles, (ro: Role) => ro.id == id)
    case Some(k) => Some(roles[k])
    case None => None
  }

  /** `User.get_roles`: the role of each association row of user `uid`, in association order. */
  function GetRoles(uid: Id, userRoles: seq<UserRole>, roles: seq<Role>): (r: seq<Role>)
    ensures |r| <= |userRoles|
    ensures forall k :: 0 <= k < |r| ==> r[k] in roles
  {
    if |userRoles| == 0 then []
    else
      var rest := GetRoles(uid, userRoles[1..], roles);
      if userRoles[0].userId == uid then
        match FindRole(roles, userRoles[0].roleId)
        case Some(ro) => [ro] + rest
        case None => rest
      else rest
  }

  /** The names of `rs`, in order (`[role.name for role in ...]`). */
  function RoleNames(rs: seq<Role>): (names: seq<string>)
    ensures |names| == |rs|
    ensures forall k :: 0 <= k < |rs| ==> names[k] == rs[k].name
  {
    seq(|rs|, k requires 0 <= k < |rs| => rs[k].name)
  }

  /** `any(role.name == role_name for role in rs)`. */
  predicate AnyNamed(rs: seq<Role>, name: string)
  {
    |rs| > 0 && (rs[0].name == name || AnyNamed(rs[1..], name))
  }

  /** `User.has_role`. */
  predicate HasRole(uid: Id, name: string, userRoles: seq<UserRole>, roles: seq<Role>)
  {
    AnyNamed(GetRoles(uid, userRoles, roles), name)
  }

  /** The loop of `User.has_permission`: true at the first role whose permission map has the key. */
  predicate AnyHasKey(rs: seq<Role>, permission: string)
  {
    |rs| > 0 && (permission in rs[0].permissions || AnyHasKey(rs[1..], permission))
  }

  /** `User.has_permission`: a membership test on the keys of each role's permission map. */
  predicate HasPermission(uid: Id, permission: string, userRoles: seq<UserRole>, roles: seq<Role>)
  {
    AnyHasKey(GetRoles(uid, userRoles, roles), permission)
  }

  /** Association row `ur` belongs to `uid` and points at a role named `name`. */
  predicate AssignsRoleNamed(ur: UserRole, uid: Id, name: string, roles: seq<Role>)
  {
    ur.userId == uid && FindRole(roles, ur.roleId).Some? && FindRole(roles, ur.roleId).value.name == name
  }

  /** Association row `ur` belongs to `uid` and points at a role whose permission map has key `p`. */
  predicate AssignsRoleWithKey(ur: UserRole, uid: Id, p: string, roles: seq<Role>)
  {
    ur.userId == uid && FindRole(roles, ur.roleId).Some? && p in FindRole(roles, ur.roleId).value.permissions
  }

  lemma {:induction false} HasRoleIff(uid: Id, name: string, userRoles: seq<UserRole>, roles: seq<Role>)
    ensures HasRole(uid, name, userRoles, roles)
        <==> exists k :: 0 <= k < |userRoles| && AssignsRoleNamed(userRoles[k], uid, name, roles)
  {
    if |userRoles| > 0 {
      HasRoleIff(uid, name, userRoles[1..], roles);
      var rest := GetRoles(uid, userRoles[1..], roles);
      if AssignsRoleNamed(userRoles[0], uid, name, roles) {
        assert AnyNamed(GetRoles(uid, userRoles, roles), name);
      } else {
        assert AnyNamed(GetRoles(uid, userRoles, roles), name) == AnyNamed(rest, name);
        if exists k :: 0 <= k < |userRoles| && AssignsRoleNamed(userRoles[k], uid, name, roles) {
          var k :| 0 <= k < |userRoles| && AssignsRoleNamed(userRoles[k], uid, name, roles);
          assert userRoles[1..][k - 1] == userRoles[k];
        }
        if exists k :: 0 <= k < |userRoles[1..]| && AssignsRoleNamed(userRoles[1..][k], uid, name, roles) {
          var k :| 0 <= k < |userRoles[1..]| && AssignsRoleNamed(userRoles[1..][k], uid, name, roles);
          assert userRoles[k + 1] == userRoles[1..][k];
        }
      }
    }
  }

  lemma {:induction false} HasPermissionIff(uid: Id, p: string, userRoles: seq<UserRole>, roles: seq<Role>)
    ensures HasPermission(uid, p, userRoles, roles)
        <==> exists k :: 0 <= k < |userRoles| && AssignsRoleWithKey(userRoles[k], uid, p, roles)
  {
    if |userRoles| > 0 {
      HasPermissionIff(uid, p, userRoles[1..], roles);
      var rest := GetRoles(uid, userRoles[1..], roles);
      if AssignsRoleWithKey(userRoles[0], uid, p, roles) {
        assert AnyHasKey(GetRoles(uid, userRoles, roles), p);
      } else {
        assert AnyHasKey(GetRoles(uid, userRoles, roles), p) == AnyHasKey(rest, p);
        if exists k :: 0 <= k < |userRoles| && AssignsRoleWithKey(userRoles[k], uid, p, roles) {
          var k :| 0 <= k < |userRoles| && AssignsRoleWithKey(userRoles[k], uid, p, roles);
          assert userRoles[1..][k - 1] == userRoles[k];
        }
        if exists k :: 0 <= k < |userRoles[1..]| && AssignsRoleWithKey(userRoles[1..][k], uid, p, roles) {
          var k :| 0 <= k < |userRoles[1..]| && AssignsRoleWithKey(userRoles[1..][k], uid, p, roles);
          assert userRoles[k + 1] == userRoles[1..][k];
        }
      }
    }
  }

  /**
   * The action lists are never consulted: a user holding only a role with
   * `{"users": ["read"]}` has permission "users" but not "read".
   */
  lemma HasPermissionIgnoresActions(uid: Id, roleId: Id, t: Time)
    ensures var roles := [Role(roleId, "reader", None, map["users" := ["read"]], t)];
            var userRoles := [UserRole(uid, roleId, t)];
            HasPermission(uid, "users", userRoles, roles) && !HasPermission(uid, "read", userRoles, roles)
  {
    var roles := [Role(roleId, "reader", None, map["users" := ["read"]], t)];
    var userRoles := [UserRole(uid, roleId, t)];
    assert GetRoles(uid, userRoles, roles) == roles;
    assert roles[1..] == [];
    assert "users" in roles[0].permissions;
    assert "read" !in roles[0].permissions by {
      assert roles[0].permissions.Keys == {"users"};
      assert "read" != "users" by { assert "read"[0] != "users"[0]; }
    }
    assert HasPermission(uid, "users", userRoles, roles);
    assert !AnyHasKey(roles, "read");
  }

  /** A user with no association rows has no roles. */
  lemma {:induction false} GetRolesUnassigned(uid: Id, userRoles: seq<UserRole>, roles: seq<Role>)
    requires forall k :: 0 <= k < |userRoles| ==> userRoles[k].userId != uid
    ensures GetRoles(uid, userRoles, roles) == []
  {
    if |userRoles| > 0 {
      GetRolesUnassigned(uid, userRoles[1..], roles);
    }
  }

  /** Appending an association row of `uid` to an existing role appends that role to the user's roles. */
  lemma {:induction false} GetRolesAppend(uid: Id, userRoles: seq<UserRole>, ur: UserRole, roles: seq<Role>)
    ensures GetRoles(uid, userRoles + [ur], roles)
         == GetRoles(uid, userRoles, roles)
          + (if ur.userId == uid && FindRole(roles, ur.roleId).Some? then [FindRole(roles, ur.roleId).value] else [])
  {
    if |userRoles| == 0 {
      assert [ur][1..] == [];
    } else {
      assert (userRoles + [ur])[1..] == userRoles[1..] + [ur];
      GetRolesAppend(uid, userRoles[1..], ur, roles);
    }
  }

  // ------------------------------------------------------------ to_dict

  /** `User.to_dict(include_roles)`: the public fields, plus `roles` (names in association order) only when asked. */
  function ToDict(u: User, includeRoles: bool, userRoles: seq<UserRole>, roles: seq<Role>): (d: UserDict)
    ensures d.roles.Some? <==> includeRoles
    ensures includeRoles ==> d.roles.value == RoleNames(GetRoles(u.id, userRoles, roles))
    ensures d.id == u.id && d.email == u.email && d.username == u.username
    ensures d.isActive == u.isActive && d.isVerified == u.isVerified
    ensures d.firstName == u.firstName && d.lastName == u.lastName
    ensures d.createdAt == u.createdAt && d.updatedAt == u.updatedAt
  {
    UserDict(u.id, u.email, u.username, u.firstName, u.lastName, u.isActive, u.isVerified, u.createdAt, u.updatedAt,
             if includeRoles then Some(RoleNames(GetRoles(u.id, userRoles, roles))) else None)
  }

  // ------------------------------------------------------- refresh tokens

  /** `RefreshToken.is_expired`: strictly past `expires_at`. */
  predicate IsExpired(t: RefreshToken, now: Time)
  {
    now > t.expiresAt
  }

  /** `RefreshToken.is_valid`. */
  predicate IsValid(t: RefreshToken, now: Time)
  {
    !t.isRevoked && !IsExpired(t, now)
  }

  /** `RefreshToken.revoke`: sets the flag and touches no other field. */
  function Revoke(t: RefreshToken): (r: RefreshToken)
    ensures r.isRevoked
    ensures r.(isRevoked := t.isRevoked) == t
    ensures forall now :: !IsValid(r, now)
  {
    t.(isRevoked := true)
  }

  lemma ExpiryBoundary(t: RefreshToken)
    ensures !IsExpired(t, t.expiresAt) && IsExpired(t, t.expiresAt + 1)
    ensures !t.isRevoked ==> IsValid(t, t.expiresAt)
  {
  }

  lemma ValidIff(t: RefreshToken, now: Time)
    ensures IsValid(t, now) <==> !t.isRevoked && now <= t.expiresAt
  {
  }

  lemma RevokeIdempotent(t: RefreshToken)
    ensures Revoke(Revoke(t)) == Revoke(t)
  {
  }

  // ---------------------------------------------------------- constraints

  /** Primary key `id`, unique `email`, unique `username` (users table). */
  ghost predicate UsersUnique(users: seq<User>)
  {
    forall i, j :: 0 <= i < j < |users| ==>
      users[i].id != users[j].id && users[i].email != users[j].email && users[i].username != users[j].username
  }

  /** Primary key `id`, unique `name` (roles table). */
  ghost predicate RolesUnique(roles: seq<Role>)
  {
    forall i, j :: 0 <= i < j < |roles| ==> roles[i].id != roles[j].id && roles[i].name != roles[j].name
  }

  /** Composite primary key (user_id, role_id) of the association table. */
  ghost predicate PairsUnique(userRoles: seq<UserRole>)
  {
    forall i, j :: 0 <= i < j < |userRoles| ==>
      userRoles[i].userId != userRoles[j].userId || userRoles[i].roleId != userRoles[j].roleId
  }

  /** Primary key `id`, unique `token_hash` (refresh_tokens table). */
  ghost predicate TokensUnique(tokens: seq<RefreshToken>)
  {
    forall i, j :: 0 <= i < j < |tokens| ==> tokens[i].id != tokens[j].id && tokens[i].tokenHash != tokens[j].tokenHash
  }
}
