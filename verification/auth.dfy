/** The credential helpers: bearer-token extraction from the Authorization
    header (section 2.1 of RFC 6750), token issue and verification against a
    configured signing secret (the token is a JSON Web Token, RFC 7519), and
    resolution of a token to the live user row.

    Signing and verification are left abstract: `Jwt` carries the configured
    secret and the two library calls as function values. */
module Auth {
  import opened Prelude
  import opened Store

  /** The claims a token carries. */
  datatype Payload = Payload(userId: Id, email: string, role: string, tenantId: Id, tenantSlug: string)

  /** The signing configuration: the secret read from the environment (absent
      when unset), `sign(payload, secret)` and `verify(token, secret)`, which
      yields `None` for a token that is malformed, forged or expired. */
  datatype Jwt = Jwt(secret: Option<string>,
                     sign: (Payload, string) -> string,
                     verify: (string, string) -> Option<Payload>)

  const SECRET_MISSING: string := "JWT_SECRET is not defined"
  /** Stands for the error the library throws on a rejected token; every
      caller replaces it by INVALID_TOKEN, so its text is never observed. */
  const TOKEN_REJECTED: string := "token rejected by the library"
  const INVALID_TOKEN: string := "Invalid token"
  const BEARER: string := "Bearer "

  /** A secret counts as configured when it is a non-empty string. */
  predicate Configured(jwt: Jwt)
  {
    Truthy(jwt.secret)
  }

  /** Issues a token for `p`; throws when no secret is configured. */
  function GenerateToken(jwt: Jwt, p: Payload): (r: Result<string>)
    ensures r.Err? <==> !Configured(jwt)
    ensures r.Err? ==> r.message == SECRET_MISSING
    ensures r.Ok? ==> r.value == jwt.sign(p, jwt.secret.value)
  {
    if !Truthy(jwt.secret) then Err(SECRET_MISSING)
    else Ok(jwt.sign(p, jwt.secret.value))
  }

  /** Checks a token and returns its claims; throws when no secret is
      configured or when the library rejects the token. */
  function VerifyToken(jwt: Jwt, token: string): (r: Result<Payload>)
    ensures !Configured(jwt) ==> r == Err(SECRET_MISSING)
    ensures r.Ok? <==> Configured(jwt) && jwt.verify(token, jwt.secret.value).Some?
    ensures r.Ok? ==> Some(r.value) == jwt.verify(token, jwt.secret.value)
  {
    if !Truthy(jwt.secret) then Err(SECRET_MISSING)
    else match jwt.verify(token, jwt.secret.value)
         case None => Err(TOKEN_REJECTED)
         case Some(p) => Ok(p)
  }

  /** A token issued under a configured secret verifies to the claims it was
      issued for, whenever the library's verify accepts its own signature. */
  lemma IssueThenVerify(jwt: Jwt, p: Payload)
    requires Configured(jwt)
    requires jwt.verify(jwt.sign(p, jwt.secret.value), jwt.secret.value) == Some(p)
    ensures GenerateToken(jwt, p).Ok?
    ensures VerifyToken(jwt, GenerateToken(jwt, p).value) == Ok(p)
  {
  }

  /** The credential of an `Authorization: Bearer <token>` header: present
      exactly when the header starts with "Bearer " (case-sensitive, space
      included), and then the header with those seven characters dropped. */
  function GetAuthToken(header: Option<string>): (r: Option<string>)
    ensures r.Some? <==> header.Some? && BEARER <= header.value
    ensures r.Some? ==> header.value == BEARER + r.value
  {
    if !Truthy(header) || !(BEARER <= header.value) then None
    else Some(header.value[|BEARER|..])
  }

  /** Round trip: the token put after "Bearer " is the token read back. */
  lemma BearerRoundTrip(t: string)
    ensures GetAuthToken(Some(BEARER + t)) == Some(t)
  {
    assert BEARER <= BEARER + t;
  }

  /** The scheme name is matched case-sensitively, and the space is part of
      the prefix. */
  lemma BearerPrefixIsExact(t: string)
    ensures GetAuthToken(Some("bearer " + t)) == None
    ensures GetAuthToken(Some("Bearer")) == None
    ensures GetAuthToken(None) == None
  {
    assert ("bearer " + t)[0] == 'b';
  }

  /** The identity behind a request: the live user row and the token claims. */
  datatype Identity = Identity(account: Account, payload: Payload)

  /** Verifies the token, then loads the user named by its `userId`. Any
      failure, whether of the secret, the token or the lookup, surfaces as the
      single error "Invalid token". The claims are returned as issued: they
      are not refreshed from the user row. */
  function GetCurrentUser(jwt: Jwt, db: Db, token: string): (r: Result<Identity>)
    ensures r.Err? ==> r.message == INVALID_TOKEN
    ensures r.Ok? <==> VerifyToken(jwt, token).Ok? && FindUserById(db, VerifyToken(jwt, token).value.userId).Some?
    ensures r.Ok? ==> r.value.payload == VerifyToken(jwt, token).value
    ensures r.Ok? ==> r.value.account.user in db.users && r.value.account.user.id == r.value.payload.userId
    ensures r.Ok? ==> r.value.account == FindUserById(db, r.value.payload.userId).value
  {
    match VerifyToken(jwt, token)
    case Err(_) => Err(INVALID_TOKEN)
    case Ok(p) =>
      match FindUserById(db, p.userId)
      case None => Err(INVALID_TOKEN)
      case Some(a) => Ok(Identity(a, p))
  }

  /** A rejected token and a deleted user cannot be told apart. */
  lemma BadTokenLikeMissingUser(jwt: Jwt, db: Db, bad: string, orphan: string)
    requires VerifyToken(jwt, bad).Err?
    requires VerifyToken(jwt, orphan).Ok?
    requires forall u :: u in db.users ==> u.id != VerifyToken(jwt, orphan).value.userId
    ensures GetCurrentUser(jwt, db, bad) == GetCurrentUser(jwt, db, orphan) == Err(INVALID_TOKEN)
  {
  }
}
