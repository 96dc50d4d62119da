/** The login route: checks the method, the required fields, looks the user
    up by email, compares the password against the stored hash, and on
    success issues a token whose claims are read from the stored user row. */
module Login {
  import opened Prelude
  import opened Store
  import opened Auth
  import opened Http

  const LOGIN_FIELDS_REQUIRED: string := "Email and password are required"
  const INVALID_CREDENTIALS: string := "Invalid credentials"

  /** The claims issued for a user row and its tenant. */
  function Claims(u: User, t: Tenant): (p: Payload)
    ensures p.userId == u.id && p.email == u.email && p.role == u.role
    ensures p.tenantId == u.tenantId && p.tenantSlug == t.slug
  {
    Payload(u.id, u.email, u.role, u.tenantId, t.slug)
  }

  /** The user object of a successful login: the row's public fields and
      its tenant's; the password hash is not among them. */
  function ViewOf(u: User, t: Tenant): (v: UserView)
    ensures v.id == u.id && v.email == u.email && v.role == u.role
    ensures v.tenant.id == t.id && v.tenant.name == t.name && v.tenant.slug == t.slug && v.tenant.plan == t.plan
  {
    UserView(u.id, u.email, u.role, TenantView(t.id, t.name, t.slug, t.plan))
  }

  /** Two rows that differ only in their password hash have the same view:
      nothing of the hash reaches the login response's user object. */
  lemma ViewHidesPassword(u: User, t: Tenant, hash: string)
    ensures ViewOf(u.(passwordHash := hash), t) == ViewOf(u, t)
  {
  }

  /** The default login handler. `compare(password, hash)` is the password
      hash check. Unknown email and wrong password give the same 401. A user
      row without its tenant (dereferencing `user.tenant.slug` throws) and an
      unconfigured signing secret both end in 500. */
  function LoginHandler(jwt: Jwt, compare: (string, string) -> bool, db: Db, req: Request): (r: Response)
    ensures req.verb != "POST" ==> r == Response(405, Error(METHOD_NOT_ALLOWED))
    ensures req.verb == "POST" && (!Truthy(Field(req, "email")) || !Truthy(Field(req, "password"))) ==>
              r == Response(400, Error(LOGIN_FIELDS_REQUIRED))
    ensures r.status == 401 <==>
              && req.verb == "POST" && Truthy(Field(req, "email")) && Truthy(Field(req, "password"))
              && (FindUserByEmail(db, req.body["email"]).None? ||
                  !compare(req.body["password"], FindUserByEmail(db, req.body["email"]).value.user.passwordHash))
    ensures r.status == 401 ==> r.body == Error(INVALID_CREDENTIALS)
    ensures r.status == 500 ==> r.body == Error(INTERNAL_ERROR)
    ensures r.status == 500 <==>
              && req.verb == "POST" && Truthy(Field(req, "email")) && Truthy(Field(req, "password"))
              && FindUserByEmail(db, req.body["email"]).Some?
              && compare(req.body["password"], FindUserByEmail(db, req.body["email"]).value.user.passwordHash)
              && (FindUserByEmail(db, req.body["email"]).value.tenant.None? || !Configured(jwt))
    ensures r.status in {405, 400, 401, 500, 200}
    ensures r.status == 200 <==>
              && req.verb == "POST" && Truthy(Field(req, "email")) && Truthy(Field(req, "password"))
              && FindUserByEmail(db, req.body["email"]).Some?
              && compare(req.body["password"], FindUserByEmail(db, req.body["email"]).value.user.passwordHash)
              && FindUserByEmail(db, req.body["email"]).value.tenant.Some?
              && Configured(jwt)
    ensures r.status == 200 ==>
              var a := FindUserByEmail(db, req.body["email"]).value;
              && a.user in db.users && a.user.email == req.body["email"]
              && r.body.LoggedIn?
              && r.body.token == jwt.sign(Claims(a.user, a.tenant.value), jwt.secret.value)
              && r.body.user.id == a.user.id && r.body.user.email == a.user.email
              && r.body.user.role == a.user.role
              && a.tenant == TenantById(db.tenants, a.user.tenantId)
              && r.body.user.tenant == TenantView(a.tenant.value.id, a.tenant.value.name,
                                                  a.tenant.value.slug, a.tenant.value.plan)
  {
    if req.verb != "POST" then Response(405, Error(METHOD_NOT_ALLOWED))
    else
      var email := Field(req, "email");
      var password := Field(req, "password");
      if !Truthy(email) || !Truthy(password) then Response(400, Error(LOGIN_FIELDS_REQUIRED))
      else match FindUserByEmail(db, email.value)
        case None => Response(401, Error(INVALID_CREDENTIALS))
        case Some(a) =>
          if !compare(password.value, a.user.passwordHash) then Response(401, Error(INVALID_CREDENTIALS))
          else match a.tenant
            case None => Response(500, Error(INTERNAL_ERROR))
            case Some(t) =>
              match GenerateToken(jwt, Claims(a.user, t))
              case Err(_) => Response(500, Error(INTERNAL_ERROR))
              case Ok(token) => Response(200, LoggedIn(token, ViewOf(a.user, t)))
  }

  /** An unknown email and a wrong password for a known one produce the very
      same response, so a caller cannot tell which accounts exist. */
  lemma LoginFailuresIndistinguishable(jwt: Jwt, compare: (string, string) -> bool, db: Db,
                                       unknown: Request, wrong: Request)
    requires unknown.verb == "POST" && wrong.verb == "POST"
    requires Truthy(Field(unknown, "email")) && Truthy(Field(unknown, "password"))
    requires Truthy(Field(wrong, "email")) && Truthy(Field(wrong, "password"))
    requires forall u :: u in db.users ==> u.email != unknown.body["email"]
    requires forall u :: u in db.users && u.email == wrong.body["email"] ==>
               !compare(wrong.body["password"], u.passwordHash)
    ensures LoginHandler(jwt, compare, db, unknown) == LoginHandler(jwt, compare, db, wrong)
    ensures LoginHandler(jwt, compare, db, unknown) == Response(401, Error(INVALID_CREDENTIALS))
  {
    var w := LoginHandler(jwt, compare, db, wrong);
    if FindUserByEmail(db, wrong.body["email"]).Some? {
      var a := FindUserByEmail(db, wrong.body["email"]).value;
      assert !compare(wrong.body["password"], a.user.passwordHash);
    }
  }

  /** Without a configured signing secret no login succeeds: a request that
      passes the field, user and password checks ends in 500. */
  lemma NoSecretNoLogin(jwt: Jwt, compare: (string, string) -> bool, db: Db, req: Request)
    requires !Configured(jwt)
    ensures LoginHandler(jwt, compare, db, req).status != 200
    ensures && req.verb == "POST" && Truthy(Field(req, "email")) && Truthy(Field(req, "password"))
            && FindUserByEmail(db, req.body["email"]).Some?
            && compare(req.body["password"], FindUserByEmail(db, req.body["email"]).value.user.passwordHash)
            ==> LoginHandler(jwt, compare, db, req) == Response(500, Error(INTERNAL_ERROR))
  {
  }
}
