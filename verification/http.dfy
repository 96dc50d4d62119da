/** Decoded requests and the responses the handlers send: a status code and
    a JSON body, of which the model keeps the shapes the core produces. */
module Http {
  import opened Prelude
  import opened Store

  /** A request after routing: the HTTP method (`verb`), the Authorization header, the
      `slug` query parameter and the string fields of the JSON body. */
  datatype Request = Request(verb: string, authorization: Option<string>,
                             slug: Option<string>, body: map<string, string>)

  /** The author projection `user: { select: { id, email } }`. */
  datatype Author = Author(id: Id, email: string)

  datatype NoteView = NoteView(note: Note, author: Option<Author>)

  datatype TenantView = TenantView(id: Id, name: string, slug: string, plan: string)

  /** The user object returned by login; it has no password field. */
  datatype UserView = UserView(id: Id, email: string, role: string, tenant: TenantView)

  datatype Body =
    | Error(error: string)
    | CodedError(error: string, code: string)
    | NoteList(notes: seq<NoteView>)
    | NoteCreated(created: NoteView)
    | LoggedIn(token: string, user: UserView)

  datatype Response = Response(status: int, body: Body)

  const METHOD_NOT_ALLOWED: string := "Method not allowed"
  const INTERNAL_ERROR: string := "Internal server error"

  /** A body field, `undefined` when absent. */
  function Field(req: Request, key: string): (r: Option<string>)
    ensures r.Some? <==> key in req.body
    ensures r.Some? ==> r.value == req.body[key]
  {
    if key in req.body then Some(req.body[key]) else None
  }

  /** The author of a note as the `include` join reads it from the user table. */
  function AuthorOf(users: seq<User>, uid: Id): (r: Option<Author>)
    ensures r.Some? <==> exists u :: u in users && u.id == uid
    ensures r.Some? ==> r.value.id == uid && exists u :: u in users && u.id == uid && u.email == r.value.email
  {
    match Find(users, (u: User) => u.id == uid)
    case None => None
    case Some(u) => Some(Author(u.id, u.email))
  }

  function View(users: seq<User>, n: Note): NoteView
  {
    NoteView(n, AuthorOf(users, n.userId))
  }

  /** Each note with its author joined. */
  function Views(users: seq<User>, ns: seq<Note>): (r: seq<NoteView>)
    ensures |r| == |ns|
    ensures forall i :: 0 <= i < |ns| ==> r[i] == View(users, ns[i])
  {
    seq(|ns|, i requires 0 <= i < |ns| => View(users, ns[i]))
  }

  /** The notes inside a list of views, in order. */
  function NotesOf(vs: seq<NoteView>): (r: seq<Note>)
    ensures |r| == |vs|
    ensures forall i :: 0 <= i < |vs| ==> r[i] == vs[i].note
  {
    seq(|vs|, i requires 0 <= i < |vs| => vs[i].note)
  }
}
