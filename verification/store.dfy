/** The relational store behind the service, as an immutable value: the
    tenant, user and note tables, the lookups the core performs on them, the
    per-tenant note filter and count, note insertion and the plan upgrade. */
module Store {
  import opened Prelude

  type Id = string

  /** Subscription plans are compared as strings; only "FREE" is capped. */
  const FREE: string := "FREE"
  const PRO: string := "PRO"

  /** The most notes a tenant on the FREE plan may hold. */
  const NOTE_LIMIT: nat := 3

  datatype Tenant = Tenant(id: Id, slug: string, name: string, plan: string)

  datatype User = User(id: Id, email: string, passwordHash: string, role: string, tenantId: Id)

  /** `createdAt` and `updatedAt` are instants on an abstract clock. */
  datatype Note = Note(id: Id, title: string, content: string, tenantId: Id, userId: Id,
                       createdAt: nat, updatedAt: nat)

  datatype Db = Db(tenants: seq<Tenant>, users: seq<User>, notes: seq<Note>)

  /** A user row read together with its tenant (`include: { tenant: true }`). */
  datatype Account = Account(user: User, tenant: Option<Tenant>)

  /** `prisma.tenant.findUnique({ where: { id } })`: a stored row with that
      id, or none exactly when no row has it. */
  function TenantById(ts: seq<Tenant>, id: Id): (r: Option<Tenant>)
    ensures r.Some? ==> r.value in ts && r.value.id == id
    ensures r.None? <==> forall t :: t in ts ==> t.id != id
  {
    Find(ts, (t: Tenant) => t.id == id)
  }

  function Join(db: Db, u: User): Account
  {
    Account(u, TenantById(db.tenants, u.tenantId))
  }

  function FindUserById(db: Db, id: Id): (r: Option<Account>)
    ensures r.Some? ==> r.value.user in db.users && r.value.user.id == id
    ensures r.Some? ==> r.value.tenant == TenantById(db.tenants, r.value.user.tenantId)
    ensures r.None? <==> forall u :: u in db.users ==> u.id != id
  {
    match Find(db.users, (u: User) => u.id == id)
    case None => None
    case Some(u) => Some(Join(db, u))
  }

  function FindUserByEmail(db: Db, email: string): (r: Option<Account>)
    ensures r.Some? ==> r.value.user in db.users && r.value.user.email == email
    ensures r.Some? ==> r.value.tenant == TenantById(db.tenants, r.value.user.tenantId)
    ensures r.None? <==> forall u :: u in db.users ==> u.email != email
  {
    match Find(db.users, (u: User) => u.email == email)
    case None => None
    case Some(u) => Some(Join(db, u))
  }

  /** The notes of one tenant, in store order (`where: { tenantId }`). */
  function Owned(notes: seq<Note>, tid: Id): seq<Note>
  {
    if |notes| == 0 then []
    else
      var rest := Owned(notes[1..], tid);
      if notes[0].tenantId == tid then [notes[0]] + rest else rest
  }

  /** A tenant's partition holds each note of that tenant exactly as often
      as the table does, and no note of any other tenant. */
  lemma {:induction false} OwnedCounts(notes: seq<Note>, tid: Id)
    ensures forall n :: multiset(Owned(notes, tid))[n] == if n.tenantId == tid then multiset(notes)[n] else 0
    ensures forall n :: n in Owned(notes, tid) <==> n in notes && n.tenantId == tid
  {
    if |notes| > 0 {
      assert notes == [notes[0]] + notes[1..];
      OwnedCounts(notes[1..], tid);
      forall n ensures n in Owned(notes, tid) <==> n in notes && n.tenantId == tid {
        assert n in Owned(notes, tid) <==> multiset(Owned(notes, tid))[n] > 0;
        assert n in notes <==> multiset(notes)[n] > 0;
      }
    }
  }

  /** `prisma.note.count({ where: { tenantId } })`. */
  function CountNotes(notes: seq<Note>, tid: Id): nat
  {
    |Owned(notes, tid)|
  }

  /** A tenant's count is at most the number of stored notes; it is zero
      exactly when no stored note is the tenant's, and it is the whole table
      exactly when every stored note is. */
  lemma {:induction false} CountBounds(notes: seq<Note>, tid: Id)
    ensures CountNotes(notes, tid) <= |notes|
    ensures CountNotes(notes, tid) == 0 <==> forall n :: n in notes ==> n.tenantId != tid
    ensures CountNotes(notes, tid) == |notes| <==> forall n :: n in notes ==> n.tenantId == tid
  {
    if |notes| > 0 {
      assert notes == [notes[0]] + notes[1..];
      CountBounds(notes[1..], tid);
    }
  }

  /** Appending a note extends exactly its own tenant's partition. */
  lemma {:induction false} OwnedAppend(notes: seq<Note>, n: Note, tid: Id)
    ensures Owned(notes + [n], tid) == Owned(notes, tid) + (if n.tenantId == tid then [n] else [])
  {
    var xs := notes + [n];
    if |notes| == 0 {
      assert xs == [n] && xs[1..] == [];
    } else {
      assert xs[0] == notes[0] && xs[1..] == notes[1..] + [n];
      OwnedAppend(notes[1..], n, tid);
      var head := if notes[0].tenantId == tid then [notes[0]] else [];
      assert Owned(xs, tid) == head + Owned(xs[1..], tid);
      assert Owned(notes, tid) == head + Owned(notes[1..], tid);
    }
  }

  lemma CountAppend(notes: seq<Note>, n: Note, tid: Id)
    ensures CountNotes(notes + [n], tid) == CountNotes(notes, tid) + (if n.tenantId == tid then 1 else 0)
  {
    OwnedAppend(notes, n, tid);
  }

  /** `prisma.note.create`: the new row is appended; nothing else changes. */
  function InsertNote(db: Db, n: Note): (r: Db)
    ensures r.tenants == db.tenants && r.users == db.users
    ensures forall tid :: Owned(r.notes, tid) == Owned(db.notes, tid) + (if n.tenantId == tid then [n] else [])
  {
    OwnedAppendAll(db.notes, n);
    db.(notes := db.notes + [n])
  }

  lemma OwnedAppendAll(notes: seq<Note>, n: Note)
    ensures forall tid :: Owned(notes + [n], tid) == Owned(notes, tid) + (if n.tenantId == tid then [n] else [])
  {
    forall tid {
      OwnedAppend(notes, n, tid);
    }
  }

  /** One tenant row after the upgrade of `slug`. */
  function UpgradeRow(t: Tenant, slug: string): Tenant
  {
    if t.slug == slug then t.(plan := PRO) else t
  }

  function UpgradeRows(ts: seq<Tenant>, slug: string): (r: seq<Tenant>)
    ensures |r| == |ts|
    ensures forall i :: 0 <= i < |ts| ==> r[i] == UpgradeRow(ts[i], slug)
  {
    if |ts| == 0 then [] else [UpgradeRow(ts[0], slug)] + UpgradeRows(ts[1..], slug)
  }

  /** The FREE to PRO transition (`prisma.tenant.update` setting the plan to
      PRO): every tenant row with `slug` is set to PRO, nothing else changes. */
  function UpgradeTenant(db: Db, slug: string): (r: Db)
    ensures r.users == db.users && r.notes == db.notes
    ensures |r.tenants| == |db.tenants|
    ensures forall i :: 0 <= i < |db.tenants| && db.tenants[i].slug == slug ==>
              r.tenants[i] == db.tenants[i].(plan := PRO)
    ensures forall i :: 0 <= i < |db.tenants| && db.tenants[i].slug != slug ==> r.tenants[i] == db.tenants[i]
  {
    db.(tenants := UpgradeRows(db.tenants, slug))
  }

  /** Upgrading is idempotent: a second upgrade of the same slug is a no-op. */
  lemma UpgradeIdempotent(db: Db, slug: string)
    ensures UpgradeTenant(UpgradeTenant(db, slug), slug) == UpgradeTenant(db, slug)
  {
    var once := UpgradeTenant(db, slug);
    assert UpgradeTenant(once, slug).tenants == once.tenants;
  }

  /** After an upgrade, the tenant that a lookup by id returns for the
      upgraded slug is the same row on PRO, and so is no longer capped. */
  lemma UpgradeLiftsPlan(db: Db, slug: string, tid: Id)
    requires TenantById(db.tenants, tid).Some? && TenantById(db.tenants, tid).value.slug == slug
    ensures TenantById(UpgradeTenant(db, slug).tenants, tid) == Some(TenantById(db.tenants, tid).value.(plan := PRO))
  {
    UpgradeFind(db.tenants, slug, tid);
  }

  lemma {:induction false} UpgradeFind(ts: seq<Tenant>, slug: string, tid: Id)
    ensures TenantById(UpgradeRows(ts, slug), tid) ==
            match TenantById(ts, tid)
            case None => None
            case Some(t) => Some(UpgradeRow(t, slug))
  {
    if |ts| > 0 && ts[0].id != tid {
      assert UpgradeRows(ts, slug)[1..] == UpgradeRows(ts[1..], slug);
      UpgradeFind(ts[1..], slug, tid);
    }
  }
}
