/**
 * The foreign primitives the user service relies on, as symbolic terms.
 *
 * bcrypt, SHA-256 and the JWT library are not modelled by their algorithms.
 * Each is a free constructor or a lookup that has exactly the properties the
 * services rely on:
 * - a bcrypt hash verifies the password it was derived from and no other
 *   (real bcrypt reads only the first 72 bytes of the encoded password, and
 *   this term does not model that limit);
 * - SHA-256 is injective;
 * - a token string decodes only if the signing key issued it, and only before
 *   its `exp` claim.
 */
module Crypto {
  import opened Common

  // ---------------------------------------------------------------- bcrypt

  /** `bcrypt.hashpw(password, salt)`: a salted one-way hash, kept as the term that produced it. */
  datatype PasswordHash = Bcrypt(salt: nat, derivedFrom: string)

  function HashPassword(password: string, salt: nat): (h: PasswordHash)
    ensures h.salt == salt
  {
    Bcrypt(salt, password)
  }

  /** `bcrypt.checkpw(password, hash)`. */
  predicate VerifyHash(password: string, h: PasswordHash)
  {
    h.derivedFrom == password
  }

  lemma CheckHashedPassword(password: string, other: string, salt: nat)
    ensures VerifyHash(password, HashPassword(password, salt))
    ensures other != password ==> !VerifyHash(other, HashPassword(password, salt))
  {
  }

  // --------------------------------------------------------------- SHA-256

  /** `hashlib.sha256(s.encode()).hexdigest()`. */
  datatype Digest = Sha256Hex(preimage: string)

  function Sha256(s: string): (d: Digest)
    ensures d.preimage == s
  {
    Sha256Hex(s)
  }

  lemma Sha256Injective(s: string, t: string)
    ensures Sha256(s) == Sha256(t) ==> s == t
  {
  }

  // ------------------------------------------------------------------- JWT

  /** `JWT_ACCESS_TOKEN_EXPIRES = timedelta(minutes=30)`, also the `expires_in` the services report. */
  const ACCESS_TOKEN_LIFETIME: int := 30 * MINUTE

  /** `JWT_REFRESH_TOKEN_EXPIRES = timedelta(days=7)`, also the lifetime of a stored refresh-token row. */
  const REFRESH_TOKEN_LIFETIME: int := 7 * DAY

  datatype TokenKind = AccessKind | RefreshKind

  /**
   * The payload of a signed token. An access token also carries the
   * additional claims `email`, `username` and `roles`; a refresh token
   * carries only its subject.
   */
  datatype JwtClaims = JwtClaims(
    kind: TokenKind,
    sub: Id,
    exp: Time,
    email: Option<string>,
    username: Option<string>,
    roles: Option<seq<string>>)

  /** `create_access_token(identity, additional_claims=...)` at `now`. */
  function AccessClaims(sub: Id, email: string, username: string, roles: seq<string>, now: Time): (c: JwtClaims)
    ensures c.kind == AccessKind && c.sub == sub && c.exp == now + ACCESS_TOKEN_LIFETIME
    ensures c.roles == Some(roles)
  {
    JwtClaims(AccessKind, sub, now + ACCESS_TOKEN_LIFETIME, Some(email), Some(username), Some(roles))
  }

  /** `create_refresh_token(identity)` at `now`. */
  function RefreshClaims(sub: Id, now: Time): (c: JwtClaims)
    ensures c.kind == RefreshKind && c.sub == sub && c.exp == now + REFRESH_TOKEN_LIFETIME
    ensures c.roles.None?
  {
    JwtClaims(RefreshKind, sub, now + REFRESH_TOKEN_LIFETIME, None, None, None)
  }

  /**
   * `decode_token(token)`: the signing key's record `issued` maps every token
   * string it has signed to its payload. Any other string, and a signed token
   * at or after its `exp`, fails to decode. The token type is not checked.
   */
  function DecodeToken(token: string, issued: map<string, JwtClaims>, now: Time): (r: Option<JwtClaims>)
    ensures r.Some? <==> token in issued && now < issued[token].exp
    ensures r.Some? ==> r.value == issued[token]
  {
    if token in issued && now < issued[token].exp then Some(issued[token]) else None
  }
}
