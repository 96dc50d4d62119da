/** Requests served one after another against one store: the FREE plan's
    cap holds across any sequence of requests to the notes route, the
    three-then-blocked creation run and the upgrade that lifts the cap, and a
    token issued by login opening the guarded routes. */
module Scenarios {
  import opened Prelude
  import opened Store
  import opened Auth
  import opened Http
  import opened Middleware
  import opened Notes
  import opened Login

  /** One request to the notes route with the id and instant the store
      would assign to a note created by it. */
  datatype Call = Call(req: Request, newId: Id, now: nat)

  /** The statuses answered and the store left after a run of calls. */
  datatype Trace = Trace(statuses: seq<int>, db: Db)

  function Serve(jwt: Jwt, db: Db, calls: seq<Call>): (r: Trace)
    ensures |r.statuses| == |calls|
    ensures r.db.users == db.users && r.db.tenants == db.tenants
    ensures db.notes <= r.db.notes
    decreases |calls|
  {
    if |calls| == 0 then Trace([], db)
    else
      var first := Api(jwt, db, calls[0].req, calls[0].newId, calls[0].now);
      var rest := Serve(jwt, first.db, calls[1..]);
      Trace([first.response.status] + rest.statuses, rest.db)
  }

  /** The FREE cap holds after any sequence of requests to the notes route. */
  lemma {:induction false} QuotaHoldsAcrossRequests(jwt: Jwt, db: Db, calls: seq<Call>)
    requires QuotaRespected(db)
    ensures QuotaRespected(Serve(jwt, db, calls).db)
    decreases |calls|
  {
    if |calls| > 0 {
      ApiPreservesQuota(jwt, db, calls[0].req, calls[0].newId, calls[0].now);
      QuotaHoldsAcrossRequests(jwt, Api(jwt, db, calls[0].req, calls[0].newId, calls[0].now).db, calls[1..]);
    }
  }

  /** Authentication reads only the user and tenant tables: a store that
      differs in its notes admits the same requests with the same claims. */
  lemma AuthenticateIgnoresNotes(jwt: Jwt, db: Db, db': Db, req: Request)
    requires db'.users == db.users && db'.tenants == db.tenants
    ensures Authenticate(jwt, db', req) == Authenticate(jwt, db, req)
  {
    assert db' == db.(notes := db'.notes);
  }

  /** Authentication does not read plans: an upgrade admits exactly the
      requests admitted before, with the same user row and claims, and
      refuses the others with the same message. */
  lemma AuthenticateIgnoresPlans(jwt: Jwt, db: Db, slug: string, req: Request)
    ensures Authenticate(jwt, UpgradeTenant(db, slug), req).Ok? <==> Authenticate(jwt, db, req).Ok?
    ensures Authenticate(jwt, db, req).Ok? ==>
              && Authenticate(jwt, UpgradeTenant(db, slug), req).value.payload == Authenticate(jwt, db, req).value.payload
              && Authenticate(jwt, UpgradeTenant(db, slug), req).value.account.user == Authenticate(jwt, db, req).value.account.user
    ensures Authenticate(jwt, db, req).Err? ==> Authenticate(jwt, UpgradeTenant(db, slug), req) == Authenticate(jwt, db, req)
  {
  }

  /** Authentication reads only the Authorization header of a request. */
  lemma AuthenticateReadsHeaderOnly(jwt: Jwt, db: Db, r1: Request, r2: Request)
    requires r1.authorization == r2.authorization
    ensures Authenticate(jwt, db, r1) == Authenticate(jwt, db, r2)
  {
  }

  /** A well-formed create from an authenticated caller. */
  predicate ValidCreate(jwt: Jwt, db: Db, req: Request)
  {
    && req.verb == "POST"
    && Truthy(Field(req, "title")) && Truthy(Field(req, "content"))
    && Authenticate(jwt, db, req).Ok?
  }

  /** One create by an authenticated caller: below the cap (or off the FREE
      plan) it adds one note to the caller's tenant; at the cap it is refused
      with NOTE_LIMIT_EXCEEDED and the store is unchanged. */
  lemma CreateStep(jwt: Jwt, db: Db, c: Call)
    requires ValidCreate(jwt, db, c.req)
    ensures var tid := Authenticate(jwt, db, c.req).value.payload.tenantId;
            var o := Api(jwt, db, c.req, c.newId, c.now);
            && (AtLimit(db, tid) ==> o.response.status == 403 && o.db == db)
            && (!AtLimit(db, tid) ==>
                  o.response.status == 201 && CountNotes(o.db.notes, tid) == CountNotes(db.notes, tid) + 1)
  {
    var p := Authenticate(jwt, db, c.req).value.payload;
    var o := Api(jwt, db, c.req, c.newId, c.now);
    assert o == HandleCreateNote(db, p, c.req, c.newId, c.now);
    if !AtLimit(db, p.tenantId) {
      var n :| o.db.notes == db.notes + [n] && n.tenantId == p.tenantId;
      CountAppend(db.notes, n, p.tenantId);
    }
  }

  /** One call, then the rest of the run. */
  lemma ServeStep(jwt: Jwt, db: Db, calls: seq<Call>)
    requires |calls| > 0
    ensures var o := Api(jwt, db, calls[0].req, calls[0].newId, calls[0].now);
            Serve(jwt, db, calls).statuses == [o.response.status] + Serve(jwt, o.db, calls[1..]).statuses
    ensures var o := Api(jwt, db, calls[0].req, calls[0].newId, calls[0].now);
            Serve(jwt, db, calls).db == Serve(jwt, o.db, calls[1..]).db
  {
  }

  /** A create by the same authenticated caller on a store with the same
      users and tenants: the count of the caller's tenant goes up by one
      below the cap, and the create is refused at the cap. */
  lemma CreateFrom(jwt: Jwt, db0: Db, db: Db, c: Call, tid: Id, count: nat)
    requires ValidCreate(jwt, db0, c.req)
    requires tid == Authenticate(jwt, db0, c.req).value.payload.tenantId
    requires db.users == db0.users && db.tenants == db0.tenants
    requires IsFree(db0, tid) && CountNotes(db.notes, tid) == count
    ensures var o := Api(jwt, db, c.req, c.newId, c.now);
            && o.db.users == db0.users && o.db.tenants == db0.tenants
            && (count < NOTE_LIMIT ==> o.response.status == 201 && CountNotes(o.db.notes, tid) == count + 1)
            && (count >= NOTE_LIMIT ==> o.response.status == 403 && o.db == db)
  {
    AuthenticateIgnoresNotes(jwt, db0, db, c.req);
    assert TenantById(db.tenants, tid) == TenantById(db0.tenants, tid);
    CreateStep(jwt, db, c);
  }

  /** The statuses a FREE tenant holding `count` notes receives for `m`
      well-formed creates in a row: 201 while it is below the cap, 403 after. */
  function CapStatuses(count: nat, m: nat): (r: seq<int>)
    ensures |r| == m
    ensures m > 0 ==> r[0] == if count < NOTE_LIMIT then 201 else 403
    ensures forall i :: 0 <= i < m ==> r[i] == if count + i < NOTE_LIMIT then 201 else 403
    decreases m
  {
    if m == 0 then []
    else [if count < NOTE_LIMIT then 201 else 403] + CapStatuses(if count < NOTE_LIMIT then count + 1 else count, m - 1)
  }

  /** The note count of a FREE tenant holding `count` notes after `m`
      well-formed creates: it grows by one per create up to the cap and then
      stays put. */
  function CapCount(count: nat, m: nat): (r: nat)
    ensures count >= NOTE_LIMIT ==> r == count
    ensures count < NOTE_LIMIT ==> r == if count + m <= NOTE_LIMIT then count + m else NOTE_LIMIT
    decreases m
  {
    if m == 0 then count
    else CapCount(if count < NOTE_LIMIT then count + 1 else count, m - 1)
  }

  /** From an empty tenant, four creates: three accepted, then refused. */
  lemma ThreeThenRefused()
    ensures CapStatuses(0, 4) == [201, 201, 201, 403]
  {
    assert CapStatuses(3, 1) == [403];
    assert CapStatuses(2, 2) == [201, 403];
    assert CapStatuses(1, 3) == [201, 201, 403];
  }

  /** Well-formed creates sent under the credential of `first`. */
  predicate SameCallerCreates(first: Request, calls: seq<Call>)
  {
    forall i :: 0 <= i < |calls| ==>
      && calls[i].req.authorization == first.authorization
      && calls[i].req.verb == "POST"
      && Truthy(Field(calls[i].req, "title")) && Truthy(Field(calls[i].req, "content"))
  }

  /** Any run of well-formed creates by one caller of a FREE tenant that
      holds `count` notes: each is answered 201 while the tenant is below the
      cap and 403 from then on, and the tenant ends with the smaller of
      `count` plus the run's length and the cap (or `count`, if above it). */
  lemma {:induction false} CapRun(jwt: Jwt, db0: Db, db: Db, first: Request, calls: seq<Call>, tid: Id, count: nat)
    requires Authenticate(jwt, db0, first).Ok? && tid == Authenticate(jwt, db0, first).value.payload.tenantId
    requires SameCallerCreates(first, calls)
    requires db.users == db0.users && db.tenants == db0.tenants
    requires IsFree(db0, tid) && CountNotes(db.notes, tid) == count
    ensures Serve(jwt, db, calls).statuses == CapStatuses(count, |calls|)
    ensures CountNotes(Serve(jwt, db, calls).db.notes, tid) == CapCount(count, |calls|)
    decreases |calls|
  {
    if |calls| == 0 {
      assert Serve(jwt, db, calls) == Trace([], db);
    } else {
      var count' := if count < NOTE_LIMIT then count + 1 else count;
      var db' := CapFirst(jwt, db0, db, first, calls, tid, count);
      CapRun(jwt, db0, db', first, calls[1..], tid, count');
      var status := if count < NOTE_LIMIT then 201 else 403;
      assert |calls[1..]| == |calls| - 1;
      assert CapStatuses(count, |calls|) == [status] + CapStatuses(count', |calls| - 1);
      assert CapCount(count, |calls|) == CapCount(count', |calls| - 1);
    }
  }

  /** The first create of such a run, and the store the rest of it starts from. */
  lemma CapFirst(jwt: Jwt, db0: Db, db: Db, first: Request, calls: seq<Call>, tid: Id, count: nat)
    returns (db': Db)
    requires |calls| > 0
    requires Authenticate(jwt, db0, first).Ok? && tid == Authenticate(jwt, db0, first).value.payload.tenantId
    requires SameCallerCreates(first, calls)
    requires db.users == db0.users && db.tenants == db0.tenants
    requires IsFree(db0, tid) && CountNotes(db.notes, tid) == count
    ensures db'.users == db0.users && db'.tenants == db0.tenants
    ensures CountNotes(db'.notes, tid) == if count < NOTE_LIMIT then count + 1 else count
    ensures SameCallerCreates(first, calls[1..])
    ensures Serve(jwt, db, calls).statuses == [if count < NOTE_LIMIT then 201 else 403] + Serve(jwt, db', calls[1..]).statuses
    ensures Serve(jwt, db, calls).db == Serve(jwt, db', calls[1..]).db
  {
    var c := calls[0];
    var o := Api(jwt, db, c.req, c.newId, c.now);
    SameCaller(jwt, db0, first, c.req);
    CreateFrom(jwt, db0, db, c, tid, count);
    ServeStep(jwt, db, calls);
    assert forall i :: 0 <= i < |calls[1..]| ==> calls[1..][i] == calls[i + 1];
    db' := o.db;
  }

  /** Starting from no notes on the FREE plan, four well-formed creates
      under one credential, each with its own title and content, give three
      201s and then a 403; the tenant is left with three notes. */
  lemma FreePlanAllowsThree(jwt: Jwt, db: Db, calls: seq<Call>)
    requires |calls| == 4
    requires forall i :: 0 <= i < 4 ==> calls[i].req.authorization == calls[0].req.authorization
    requires forall i :: 0 <= i < 4 ==>
               calls[i].req.verb == "POST" && Truthy(Field(calls[i].req, "title")) && Truthy(Field(calls[i].req, "content"))
    requires Authenticate(jwt, db, calls[0].req).Ok?
    requires IsFree(db, Authenticate(jwt, db, calls[0].req).value.payload.tenantId)
    requires CountNotes(db.notes, Authenticate(jwt, db, calls[0].req).value.payload.tenantId) == 0
    ensures Serve(jwt, db, calls).statuses == [201, 201, 201, 403]
    ensures CountNotes(Serve(jwt, db, calls).db.notes, Authenticate(jwt, db, calls[0].req).value.payload.tenantId) == 3
  {
    var tid := Authenticate(jwt, db, calls[0].req).value.payload.tenantId;
    CapRun(jwt, db, db, calls[0].req, calls, tid, 0);
    ThreeThenRefused();
  }

  /** A well-formed create sent under an admitted credential is a valid
      create by the same caller. */
  lemma SameCaller(jwt: Jwt, db: Db, first: Request, req: Request)
    requires Authenticate(jwt, db, first).Ok?
    requires req.authorization == first.authorization
    requires req.verb == "POST" && Truthy(Field(req, "title")) && Truthy(Field(req, "content"))
    ensures ValidCreate(jwt, db, req)
    ensures Authenticate(jwt, db, req) == Authenticate(jwt, db, first)
  {
    AuthenticateReadsHeaderOnly(jwt, db, req, first);
  }

  /** After the caller's tenant is upgraded to PRO, the same create succeeds
      even at the cap, and every earlier note is kept. */
  lemma UpgradeLiftsCap(jwt: Jwt, db: Db, c: Call)
    requires ValidCreate(jwt, db, c.req)
    requires TenantById(db.tenants, Authenticate(jwt, db, c.req).value.payload.tenantId).Some?
    ensures var tid := Authenticate(jwt, db, c.req).value.payload.tenantId;
            var up := UpgradeTenant(db, TenantById(db.tenants, tid).value.slug);
            var o := Api(jwt, up, c.req, c.newId, c.now);
            && o.response.status == 201
            && db.notes < o.db.notes
            && CountNotes(o.db.notes, tid) == CountNotes(db.notes, tid) + 1
  {
    var tid := Authenticate(jwt, db, c.req).value.payload.tenantId;
    var slug := TenantById(db.tenants, tid).value.slug;
    var up := UpgradeTenant(db, slug);
    AuthenticateIgnoresPlans(jwt, db, slug, c.req);
    UpgradeLiftsPlan(db, slug, tid);
    assert !AtLimit(up, tid);
    CreateStep(jwt, up, c);
  }

  /** A token issued by a successful login, presented as a bearer token,
      passes `withAuth`: the handler receives the logged-in user's row and
      exactly the claims that login issued, naming the user's own tenant.
      The library's verify is only assumed to accept this one token. */
  lemma LoginThenAuthenticate(jwt: Jwt, compare: (string, string) -> bool, db: Db, login: Request, req: Request)
    requires LoginHandler(jwt, compare, db, login).status == 200
    requires req.authorization == Some(BEARER + LoginHandler(jwt, compare, db, login).body.token)
    requires LoginHandler(jwt, compare, db, login).body.token != ""
    requires var a := FindUserByEmail(db, login.body["email"]).value;
             jwt.verify(LoginHandler(jwt, compare, db, login).body.token, jwt.secret.value)
               == Some(Claims(a.user, a.tenant.value))
    ensures var a := FindUserByEmail(db, login.body["email"]).value;
            && Authenticate(jwt, db, req).Ok?
            && Authenticate(jwt, db, req).value.payload == Claims(a.user, a.tenant.value)
            && Authenticate(jwt, db, req).value.account.user.id == a.user.id
            && Authenticate(jwt, db, req).value.payload.tenantId == a.user.tenantId
            && ((forall u, v :: u in db.users && v in db.users && u.id == v.id ==> u == v) ==>
                  Authenticate(jwt, db, req).value.account == Account(a.user, a.tenant))
  {
    var token := LoginHandler(jwt, compare, db, login).body.token;
    BearerRoundTrip(token);
  }
}
