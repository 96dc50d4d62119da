/** The notes collection route behind `withAuth`: GET lists the caller's
    tenant's notes newest first, POST validates the body, applies the FREE
    plan's note cap and inserts a note stamped with the caller's tenant and
    user; any other method is refused. */
module Notes {
  import opened Prelude
  import opened Store
  import opened Auth
  import opened Http
  import opened Middleware

  const NOTE_FIELDS_REQUIRED: string := "Title and content are required"
  const LIMIT_MESSAGE: string := "Free plan allows maximum 3 notes. Upgrade to Pro for unlimited notes."
  const NOTE_LIMIT_EXCEEDED: string := "NOTE_LIMIT_EXCEEDED"

  /** Ordered by `createdAt`, newest first. */
  ghost predicate NewestFirst(s: seq<Note>)
  {
    forall i, j :: 0 <= i < j < |s| ==> s[i].createdAt >= s[j].createdAt
  }

  /** A note no older than every note of a newest-first sequence may lead it. */
  lemma PrependNewest(x: Note, s: seq<Note>)
    requires NewestFirst(s)
    requires forall m :: m in s ==> m.createdAt <= x.createdAt
    ensures NewestFirst([x] + s)
  {
    var r := [x] + s;
    forall i, j | 0 <= i < j < |r|
      ensures r[i].createdAt >= r[j].createdAt
    {
      if i == 0 {
        assert r[j] == s[j - 1];
        assert r[j] in s;
      } else {
        assert r[i] == s[i - 1] && r[j] == s[j - 1];
      }
    }
  }

  /** The head of a newest-first sequence is at least as new as every note in it. */
  lemma HeadIsNewest(s: seq<Note>)
    requires NewestFirst(s) && |s| > 0
    ensures forall m :: m in s ==> m.createdAt <= s[0].createdAt
  {
    forall m | m in s ensures m.createdAt <= s[0].createdAt {
      var k :| 0 <= k < |s| && s[k] == m;
      assert k == 0 || s[0].createdAt >= s[k].createdAt;
    }
  }

  function Insert(n: Note, s: seq<Note>): (r: seq<Note>)
    requires NewestFirst(s)
    ensures NewestFirst(r)
    ensures multiset(r) == multiset(s) + multiset{n}
    ensures forall m :: m in r ==> m == n || m in s
    decreases |s|, 1
  {
    if |s| == 0 then [n]
    else if n.createdAt >= s[0].createdAt then
      HeadIsNewest(s);
      PrependNewest(n, s);
      [n] + s
    else
      InsertBehindHead(n, s);
      [s[0]] + Insert(n, s[1..])
  }

  lemma InsertBehindHead(n: Note, s: seq<Note>)
    requires NewestFirst(s) && |s| > 0 && n.createdAt < s[0].createdAt
    ensures NewestFirst([s[0]] + Insert(n, s[1..]))
    ensures multiset([s[0]] + Insert(n, s[1..])) == multiset(s) + multiset{n}
    ensures forall m :: m in [s[0]] + Insert(n, s[1..]) ==> m == n || m in s
    decreases |s|, 0
  {
    assert s == [s[0]] + s[1..];
    var rest := Insert(n, s[1..]);
    HeadIsNewest(s);
    assert forall m :: m in rest ==> m.createdAt <= s[0].createdAt;
    PrependNewest(s[0], rest);
  }

  /** The `orderBy: { createdAt: 'desc' }` of the list query. */
  function SortNewestFirst(s: seq<Note>): (r: seq<Note>)
    ensures NewestFirst(r)
    ensures multiset(r) == multiset(s)
  {
    if |s| == 0 then []
    else
      assert s == [s[0]] + s[1..];
      Insert(s[0], SortNewestFirst(s[1..]))
  }

  /** `handleGetNotes`: 200 with exactly the notes whose tenant is the
      token's tenant (each as many times as it is stored), newest first,
      each with its author as the user table has it. */
  function HandleGetNotes(db: Db, p: Payload): (r: Response)
    ensures r.status == 200 && r.body.NoteList?
    ensures NewestFirst(NotesOf(r.body.notes))
    ensures forall n :: multiset(NotesOf(r.body.notes))[n] ==
                        if n.tenantId == p.tenantId then multiset(db.notes)[n] else 0
    ensures forall i :: 0 <= i < |r.body.notes| ==>
              r.body.notes[i].author == AuthorOf(db.users, r.body.notes[i].note.userId)
  {
    OwnedCounts(db.notes, p.tenantId);
    var sorted := SortNewestFirst(Owned(db.notes, p.tenantId));
    var views := Views(db.users, sorted);
    assert NotesOf(views) == sorted;
    Response(200, NoteList(views))
  }

  /** Tenant isolation of the list: a note is listed exactly when it is
      stored under the caller's tenant. */
  lemma ListIsolation(db: Db, p: Payload, n: Note)
    ensures n in NotesOf(HandleGetNotes(db, p).body.notes) <==> n in db.notes && n.tenantId == p.tenantId
  {
    var listed := NotesOf(HandleGetNotes(db, p).body.notes);
    assert n in listed <==> multiset(listed)[n] > 0;
    assert n in db.notes <==> multiset(db.notes)[n] > 0;
  }

  /** Another tenant's new note does not change the caller's list. */
  lemma ListIgnoresOtherTenants(db: Db, p: Payload, m: Note)
    requires m.tenantId != p.tenantId
    ensures HandleGetNotes(InsertNote(db, m), p) == HandleGetNotes(db, p)
  {
    OwnedAppend(db.notes, m, p.tenantId);
    assert Owned(InsertNote(db, m).notes, p.tenantId) == Owned(db.notes, p.tenantId);
  }

  /** The FREE plan's cap applies to the token's tenant: its row exists, is
      on FREE, and already holds NOTE_LIMIT notes or more. A missing tenant
      row or any other plan is not capped. */
  predicate AtLimit(db: Db, tid: Id): (r: bool)
    ensures r ==> exists t :: t in db.tenants && t.id == tid && t.plan == FREE
    ensures r ==> CountNotes(db.notes, tid) >= NOTE_LIMIT
    ensures (forall t :: t in db.tenants ==> t.id != tid) ==> !r
    ensures (forall t :: t in db.tenants && t.id == tid ==> t.plan != FREE) ==> !r
    ensures CountNotes(db.notes, tid) < NOTE_LIMIT ==> !r
    ensures IsFree(db, tid) && CountNotes(db.notes, tid) >= NOTE_LIMIT ==> r
  {
    match TenantById(db.tenants, tid)
    case None => false
    case Some(t) => t.plan == FREE && CountNotes(db.notes, tid) >= NOTE_LIMIT
  }

  /** The note a successful create inserts: id and clock come from the store. */
  function NewNote(newId: Id, now: nat, title: string, content: string, p: Payload): Note
  {
    Note(newId, title, content, p.tenantId, p.userId, now, now)
  }

  /** `handleCreateNote`: 400 when `title` or `content` is missing or empty
      (checked before the cap); 403 with code NOTE_LIMIT_EXCEEDED when the
      token's tenant is capped; otherwise 201 and exactly one new note,
      stamped with the token's tenant and user, appended to the store. Every
      rejection leaves the store unchanged. */
  function HandleCreateNote(db: Db, p: Payload, req: Request, newId: Id, now: nat): (r: Outcome)
    ensures r.db.tenants == db.tenants && r.db.users == db.users
    ensures r.response.status in {400, 403, 201}
    ensures r.response.status != 201 ==> r.db == db
    ensures r.response.status == 400 <==> !Truthy(Field(req, "title")) || !Truthy(Field(req, "content"))
    ensures r.response.status == 403 <==>
              Truthy(Field(req, "title")) && Truthy(Field(req, "content")) && AtLimit(db, p.tenantId)
    ensures r.response.status == 400 ==> r.response.body == Error(NOTE_FIELDS_REQUIRED)
    ensures r.response.status == 403 ==> r.response.body == CodedError(LIMIT_MESSAGE, NOTE_LIMIT_EXCEEDED)
    ensures r.response.status == 201 ==>
              exists n: Note ::
                && r.db.notes == db.notes + [n]
                && n.tenantId == p.tenantId && n.userId == p.userId
                && n.id == newId && n.createdAt == now
                && n.title == req.body["title"] && n.content == req.body["content"]
                && r.response.body == NoteCreated(NoteView(n, AuthorOf(db.users, p.userId)))
  {
    var title := Field(req, "title");
    var content := Field(req, "content");
    if !Truthy(title) || !Truthy(content) then
      Outcome(Response(400, Error(NOTE_FIELDS_REQUIRED)), db)
    else if AtLimit(db, p.tenantId) then
      Outcome(Response(403, CodedError(LIMIT_MESSAGE, NOTE_LIMIT_EXCEEDED)), db)
    else
      var n := NewNote(newId, now, title.value, content.value, p);
      var db' := InsertNote(db, n);
      Outcome(Response(201, NoteCreated(View(db'.users, n))), db')
  }

  /** The route's `handler`: dispatch on the method. */
  function Dispatch(db: Db, p: Payload, req: Request, newId: Id, now: nat): (r: Outcome)
    ensures req.verb == "GET" ==> r == Outcome(HandleGetNotes(db, p), db)
    ensures req.verb == "POST" ==> r == HandleCreateNote(db, p, req, newId, now)
    ensures req.verb != "GET" && req.verb != "POST" ==>
              r == Outcome(Response(405, Error(METHOD_NOT_ALLOWED)), db)
  {
    if req.verb == "GET" then Outcome(HandleGetNotes(db, p), db)
    else if req.verb == "POST" then HandleCreateNote(db, p, req, newId, now)
    else Outcome(Response(405, Error(METHOD_NOT_ALLOWED)), db)
  }

  /** The exported route: `withAuth(handler)`. The new note's id and the
      current instant are supplied by the store. */
  function Api(jwt: Jwt, db: Db, req: Request, newId: Id, now: nat): (r: Outcome)
    ensures r.db.tenants == db.tenants && r.db.users == db.users
    ensures Authenticate(jwt, db, req).Err? ==> r.response.status == 401 && r.db == db
    ensures Authenticate(jwt, db, req).Ok? ==> r == Dispatch(db, Authenticate(jwt, db, req).value.payload, req, newId, now)
    ensures r.db != db ==>
              && req.verb == "POST"
              && Authenticate(jwt, db, req).Ok?
              && r.response.status == 201
              && exists n: Note :: r.db.notes == db.notes + [n] &&
                                   n.tenantId == Authenticate(jwt, db, req).value.payload.tenantId
  {
    WithAuth(jwt, db, req, (rq: Request, a: Account, p: Payload, d: Db) => Dispatch(d, p, rq, newId, now))
  }

  /** An authenticated GET through the route answers the caller's tenant's
      list and leaves the store unchanged. */
  lemma ApiListsForCaller(jwt: Jwt, db: Db, req: Request, newId: Id, now: nat)
    requires Authenticate(jwt, db, req).Ok? && req.verb == "GET"
    ensures Api(jwt, db, req, newId, now) == Outcome(HandleGetNotes(db, Authenticate(jwt, db, req).value.payload), db)
  {
  }

  /** Every FREE tenant holds at most NOTE_LIMIT notes. */
  ghost predicate QuotaRespected(db: Db)
  {
    forall tid :: IsFree(db, tid) ==> CountNotes(db.notes, tid) <= NOTE_LIMIT
  }

  predicate IsFree(db: Db, tid: Id)
  {
    TenantById(db.tenants, tid).Some? && TenantById(db.tenants, tid).value.plan == FREE
  }

  /** Under the quota, a capped tenant holds exactly NOTE_LIMIT notes. */
  lemma AtLimitMeansFull(db: Db, tid: Id)
    requires QuotaRespected(db) && AtLimit(db, tid)
    ensures CountNotes(db.notes, tid) == NOTE_LIMIT
  {
    assert IsFree(db, tid);
  }

  /** Serving any request keeps every FREE tenant within its cap (requests
      are served one at a time). */
  lemma ApiPreservesQuota(jwt: Jwt, db: Db, req: Request, newId: Id, now: nat)
    requires QuotaRespected(db)
    ensures QuotaRespected(Api(jwt, db, req, newId, now).db)
  {
    var r := Api(jwt, db, req, newId, now);
    if r.db != db {
      var p := Authenticate(jwt, db, req).value.payload;
      var n :| r.db.notes == db.notes + [n] && n.tenantId == p.tenantId;
      forall tid | IsFree(r.db, tid)
        ensures CountNotes(r.db.notes, tid) <= NOTE_LIMIT
      {
        CountAppend(db.notes, n, tid);
        assert IsFree(db, tid);
        if tid == p.tenantId {
          assert r == HandleCreateNote(db, p, req, newId, now);
          assert !AtLimit(db, tid);
        }
      }
    }
  }
}
