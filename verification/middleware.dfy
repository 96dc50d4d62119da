/** The guard combinators wrapped around route handlers: authentication
    (401), role membership on the token's role claim (403) and the tenant-slug
    check (403). A guard either answers the request itself, leaving the store
    as it was, or passes the request to the inner handler. */
module Middleware {
  import opened Prelude
  import opened Store
  import opened Auth
  import opened Http

  /** What serving a request produces: the response and the store after it. */
  datatype Outcome = Outcome(response: Response, db: Db)

  /** A route handler behind a guard receives the request, the live user row,
      the token claims and the store. */
  type Handler = (Request, Account, Payload, Db) -> Outcome

  const NO_TOKEN: string := "No token provided"
  const INSUFFICIENT_PERMISSIONS: string := "Insufficient permissions"
  const TENANT_DENIED: string := "Access denied to this tenant"

  /** The decision `withAuth` makes before calling its handler. */
  function Authenticate(jwt: Jwt, db: Db, req: Request): (r: Result<Identity>)
    ensures r.Err? ==> r.message == NO_TOKEN || r.message == INVALID_TOKEN
    ensures r == Err(NO_TOKEN) <==> !Truthy(GetAuthToken(req.authorization))
    ensures r.Ok? <==>
              && Truthy(GetAuthToken(req.authorization))
              && VerifyToken(jwt, GetAuthToken(req.authorization).value).Ok?
              && FindUserById(db, VerifyToken(jwt, GetAuthToken(req.authorization).value).value.userId).Some?
    ensures r.Ok? ==> r.value.payload == VerifyToken(jwt, GetAuthToken(req.authorization).value).value
    ensures r.Ok? ==> r.value.account.user in db.users && r.value.account.user.id == r.value.payload.userId
    ensures r.Ok? ==> r.value.account == FindUserById(db, r.value.payload.userId).value
  {
    var token := GetAuthToken(req.authorization);
    if !Truthy(token) then Err(NO_TOKEN)
    else GetCurrentUser(jwt, db, token.value)
  }

  /** The 401 answer for a failed authentication. */
  function Unauthorized(message: string, db: Db): Outcome
  {
    Outcome(Response(401, Error(message)), db)
  }

  /** `withAuth(handler)`: a missing credential (including an empty one after
      "Bearer ") answers 401 "No token provided", a token that does not
      resolve to a live user answers 401 "Invalid token"; in both cases the
      handler is not called and the store is unchanged. Otherwise the handler
      runs with exactly the resolved user and claims. */
  function WithAuth(jwt: Jwt, db: Db, req: Request, handler: Handler): (r: Outcome)
    ensures !Truthy(GetAuthToken(req.authorization)) ==> r == Outcome(Response(401, Error(NO_TOKEN)), db)
    ensures (Truthy(GetAuthToken(req.authorization)) && GetCurrentUser(jwt, db, GetAuthToken(req.authorization).value).Err?)
              ==> r == Outcome(Response(401, Error(INVALID_TOKEN)), db)
    ensures Authenticate(jwt, db, req).Ok? ==>
              var id := Authenticate(jwt, db, req).value;
              r == handler(req, id.account, id.payload, db)
  {
    match Authenticate(jwt, db, req)
    case Err(m) => Unauthorized(m, db)
    case Ok(id) => handler(req, id.account, id.payload, db)
  }

  /** When authentication fails the handler is not invoked: the outcome does
      not depend on which handler is wrapped. */
  lemma AuthFailureIgnoresHandler(jwt: Jwt, db: Db, req: Request, h1: Handler, h2: Handler)
    requires Authenticate(jwt, db, req).Err?
    ensures WithAuth(jwt, db, req, h1) == WithAuth(jwt, db, req, h2)
    ensures WithAuth(jwt, db, req, h1).response.status == 401 && WithAuth(jwt, db, req, h1).db == db
  {
  }

  /** "Bearer " followed by nothing is treated as no credential at all. */
  lemma EmptyBearerIsMissing(jwt: Jwt, db: Db, req: Request, handler: Handler)
    requires req.authorization == Some(BEARER)
    ensures WithAuth(jwt, db, req, handler) == Outcome(Response(401, Error(NO_TOKEN)), db)
  {
    assert BEARER <= BEARER;
    assert BEARER[|BEARER|..] == "";
  }

  /** The role check `withRole` adds inside `withAuth`. */
  function RoleGuard(allowedRoles: seq<string>, handler: Handler): Handler
  {
    (req: Request, a: Account, p: Payload, db: Db) =>
      if p.role !in allowedRoles then Outcome(Response(403, Error(INSUFFICIENT_PERMISSIONS)), db)
      else handler(req, a, p, db)
  }

  /** `withRole(allowedRoles)(handler)`: authentication failures answer 401
      before any role check; an authenticated caller whose token role claim is
      not allowed gets 403 "Insufficient permissions" with the store
      unchanged; otherwise the request is delegated unchanged. The decision
      reads the claim, not the role stored on the user row. */
  function WithRole(allowedRoles: seq<string>, jwt: Jwt, db: Db, req: Request, handler: Handler): (r: Outcome)
    ensures Authenticate(jwt, db, req).Err? ==>
              r.response.status == 401 && r.db == db && r == WithAuth(jwt, db, req, handler)
    ensures Authenticate(jwt, db, req).Ok? ==>
              var id := Authenticate(jwt, db, req).value;
              if id.payload.role in allowedRoles then r == handler(req, id.account, id.payload, db)
              else r == Outcome(Response(403, Error(INSUFFICIENT_PERMISSIONS)), db)
  {
    WithAuth(jwt, db, req, RoleGuard(allowedRoles, handler))
  }

  /** The slug check `withTenant` adds inside `withAuth`. */
  function TenantGuard(handler: Handler): Handler
  {
    (req: Request, a: Account, p: Payload, db: Db) =>
      if Truthy(req.slug) && req.slug.value != p.tenantSlug
      then Outcome(Response(403, Error(TENANT_DENIED)), db)
      else handler(req, a, p, db)
  }

  /** `withTenant(handler)`: authentication failures answer 401; a non-empty
      `slug` query parameter that differs from the token's tenant slug
      answers 403 "Access denied to this tenant" with the store unchanged; an
      absent, empty or matching slug reaches the handler. */
  function WithTenant(jwt: Jwt, db: Db, req: Request, handler: Handler): (r: Outcome)
    ensures Authenticate(jwt, db, req).Err? ==>
              r.response.status == 401 && r.db == db && r == WithAuth(jwt, db, req, handler)
    ensures Authenticate(jwt, db, req).Ok? ==>
              var id := Authenticate(jwt, db, req).value;
              if Truthy(req.slug) && req.slug.value != id.payload.tenantSlug
              then r == Outcome(Response(403, Error(TENANT_DENIED)), db)
              else r == handler(req, id.account, id.payload, db)
  {
    WithAuth(jwt, db, req, TenantGuard(handler))
  }

  /** When the slug names another tenant the handler is not invoked: any
      two handlers give the same 403 outcome, with the store unchanged. */
  lemma TenantMismatchIgnoresHandler(jwt: Jwt, db: Db, req: Request, h1: Handler, h2: Handler)
    requires Authenticate(jwt, db, req).Ok?
    requires Truthy(req.slug) && req.slug.value != Authenticate(jwt, db, req).value.payload.tenantSlug
    ensures WithTenant(jwt, db, req, h1) == WithTenant(jwt, db, req, h2)
    ensures WithTenant(jwt, db, req, h1) == Outcome(Response(403, Error(TENANT_DENIED)), db)
  {
  }

  /** Behind `withRole`, a request can change the store only when it is
      authenticated and its role claim is allowed, and then the change is the
      handler's own. */
  lemma GuardsOnlyAdmitThroughHandler(allowedRoles: seq<string>, jwt: Jwt, db: Db, req: Request, handler: Handler)
    requires WithRole(allowedRoles, jwt, db, req, handler).db != db
    ensures Authenticate(jwt, db, req).Ok?
    ensures Authenticate(jwt, db, req).value.payload.role in allowedRoles
    ensures WithRole(allowedRoles, jwt, db, req, handler) ==
              handler(req, Authenticate(jwt, db, req).value.account, Authenticate(jwt, db, req).value.payload, db)
  {
  }

  /** The role decision trusts the token's claim: a caller whose claim is
      allowed reaches the handler even when the stored user row now carries
      a role that is not allowed. */
  lemma RoleDecidedByClaim(allowedRoles: seq<string>, jwt: Jwt, db: Db, req: Request, handler: Handler)
    requires Authenticate(jwt, db, req).Ok?
    requires Authenticate(jwt, db, req).value.payload.role in allowedRoles
    requires Authenticate(jwt, db, req).value.account.user.role !in allowedRoles
    ensures WithRole(allowedRoles, jwt, db, req, handler) ==
              handler(req, Authenticate(jwt, db, req).value.account, Authenticate(jwt, db, req).value.payload, db)
  {
  }
}
