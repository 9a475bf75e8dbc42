/** The client routes (backend/routes/clients.py): a user's address book of
    clients, each visible and changeable only by the user who created it. */
module ClientRoutes {
  import opened Common
  import opened Ledger
  import opened SqlLike

  const NameRequired := "Client name is required"
  const HasProjectsMessage :=
    "Cannot delete client with associated projects. Please delete or reassign projects first."

  /** The fields of a client request body; `None` is a key the body leaves out. */
  datatype ClientPayload = ClientPayload(name: Option<string>, email: Option<string>,
                                         phone: Option<string>, company: Option<string>,
                                         address: Option<string>, notes: Option<string>)

  function ClientId(c: Client): int
  {
    c.id
  }

  /** `GET /clients/`: every client of the user and no one else's, oldest first. */
  method ListClients(db: Database, uid: int) returns (r: seq<Client>)
    requires db.Valid()
    ensures forall c :: c in r ==> c.id in db.clients && db.clients[c.id] == c && c.userId == uid
    ensures forall k :: k in db.clients && db.clients[k].userId == uid ==> db.clients[k] in r
    ensures forall i, j :: 0 <= i < j < |r| ==> r[i].id < r[j].id
  {
    r := Select(db.clients, db.nextId, (c: Client) => c.userId == uid, ClientId);
  }

  /** `GET /clients/<id>`: the client, if it is the user's. */
  method GetClient(db: Database, uid: int, cid: int) returns (r: Result<Client>)
    requires db.Valid()
    ensures r.Ok? <==> OwnsClient(db.clients, uid, cid)
    ensures r.Ok? ==> r.value == db.clients[cid]
    ensures r.Err? ==> r == Err(404, NotFound)
  {
    if OwnsClient(db.clients, uid, cid) {
      r := Ok(db.clients[cid]);
    } else {
      r := Err(404, NotFound);
    }
  }

  /** The row `create_client` inserts: the optional fields default to ''. */
  function NewClient(id: int, uid: int, p: ClientPayload): Client
    requires p.name.Some?
  {
    Client(id, uid, p.name.value, OrElse(p.email, ""), OrElse(p.phone, ""),
           OrElse(p.company, ""), OrElse(p.address, ""), OrElse(p.notes, ""))
  }

  /** `POST /clients/`: a client needs a non-empty name; it is created for the
      current user under a new id. */
  method CreateClient(db: Database, uid: int, p: ClientPayload) returns (r: Result<Client>)
    requires db.Valid() && uid in db.users
    modifies db
    ensures db.Valid()
    ensures !Present(p.name) ==> r == Err(400, NameRequired) && unchanged(db)
    ensures Present(p.name) ==>
              r.Ok? && r.value.id !in old(db.clients) && r.value == NewClient(r.value.id, uid, p)
              && db.clients == old(db.clients)[r.value.id := r.value]
    ensures unchanged(db`users, db`projects, db`entries, db`invoices, db`documents)
  {
    if !Present(p.name) {
      return Err(400, NameRequired);
    }
    var id := db.FreshId();
    var c := NewClient(id, uid, p);
    db.clients := db.clients[id := c];
    r := Ok(c);
  }

  /** `update_client`: every key present in the body replaces its column. */
  function ApplyClientPatch(c: Client, p: ClientPayload): (r: Client)
    ensures r.id == c.id && r.userId == c.userId
  {
    c.(name := OrElse(p.name, c.name), email := OrElse(p.email, c.email),
       phone := OrElse(p.phone, c.phone), company := OrElse(p.company, c.company),
       address := OrElse(p.address, c.address), notes := OrElse(p.notes, c.notes))
  }

  /** A body with no keys changes nothing. */
  lemma EmptyPatchKeepsClient(c: Client)
    ensures ApplyClientPatch(c, ClientPayload(None, None, None, None, None, None)) == c
  {
  }

  /** Sending the same update twice has the effect of sending it once. */
  lemma ClientPatchIdempotent(c: Client, p: ClientPayload)
    ensures ApplyClientPatch(ApplyClientPatch(c, p), p) == ApplyClientPatch(c, p)
  {
  }

  /** A field the body leaves out keeps its value; one it gives takes the new value. */
  lemma ClientPatchFields(c: Client, p: ClientPayload)
    ensures p.name.None? ==> ApplyClientPatch(c, p).name == c.name
    ensures p.name.Some? ==> ApplyClientPatch(c, p).name == p.name.value
    ensures p.email.None? ==> ApplyClientPatch(c, p).email == c.email
    ensures p.email.Some? ==> ApplyClientPatch(c, p).email == p.email.value
    ensures p.phone.None? ==> ApplyClientPatch(c, p).phone == c.phone
    ensures p.phone.Some? ==> ApplyClientPatch(c, p).phone == p.phone.value
    ensures p.company.None? ==> ApplyClientPatch(c, p).company == c.company
    ensures p.company.Some? ==> ApplyClientPatch(c, p).company == p.company.value
    ensures p.address.None? ==> ApplyClientPatch(c, p).address == c.address
    ensures p.address.Some? ==> ApplyClientPatch(c, p).address == p.address.value
    ensures p.notes.None? ==> ApplyClientPatch(c, p).notes == c.notes
    ensures p.notes.Some? ==> ApplyClientPatch(c, p).notes == p.notes.value
  {
  }

  /** `PUT /clients/<id>`: the user's client takes the body's fields; no
      check is made on them (an empty name is accepted). */
  method UpdateClient(db: Database, uid: int, cid: int, p: ClientPayload) returns (r: Result<Client>)
    requires db.Valid()
    modifies db
    ensures db.Valid()
    ensures !OwnsClient(old(db.clients), uid, cid) ==> r == Err(404, NotFound) && unchanged(db)
    ensures OwnsClient(old(db.clients), uid, cid) ==>
              r == Ok(ApplyClientPatch(old(db.clients)[cid], p))
              && db.clients == old(db.clients)[cid := r.value]
    ensures unchanged(db`users, db`projects, db`entries, db`invoices, db`documents, db`nextId)
  {
    if !OwnsClient(db.clients, uid, cid) {
      return Err(404, NotFound);
    }
    var c := ApplyClientPatch(db.clients[cid], p);
    db.clients := db.clients[cid := c];
    r := Ok(c);
  }

  /** `client.projects.count() > 0`. */
  predicate HasProjects(projects: map<int, Project>, cid: int)
  {
    exists k :: k in projects && projects[k].clientId == cid
  }

  /** `DELETE /clients/<id>`: refused while any project refers to the client,
      so no project is ever left without its client. */
  method DeleteClient(db: Database, uid: int, cid: int) returns (r: Result<()>)
    requires db.Valid()
    modifies db
    ensures db.Valid()
    ensures !OwnsClient(old(db.clients), uid, cid) ==> r == Err(404, NotFound)
    ensures OwnsClient(old(db.clients), uid, cid) && HasProjects(old(db.projects), cid) ==>
              r == Err(400, HasProjectsMessage)
    ensures r.Err? ==> unchanged(db)
    ensures r.Ok? <==> OwnsClient(old(db.clients), uid, cid) && !HasProjects(old(db.projects), cid)
    ensures r.Ok? ==> db.clients == old(db.clients) - {cid}
    ensures unchanged(db`users, db`projects, db`entries, db`invoices, db`documents, db`nextId)
  {
    if !OwnsClient(db.clients, uid, cid) {
      return Err(404, NotFound);
    }
    if HasProjects(db.projects, cid) {
      return Err(400, HasProjectsMessage);
    }
    db.clients := db.clients - {cid};
    r := Ok(());
  }

  /** `Client.name.ilike(f'%{query}%') | Client.company.ilike(f'%{query}%')`. */
  predicate MatchesQuery(c: Client, q: string)
  {
    ILike("%" + q + "%", c.name) || ILike("%" + q + "%", c.company)
  }

  /** A case-insensitive substring of the name or the company. */
  predicate NameOrCompanyContains(c: Client, q: string)
  {
    Contains(Lower(c.name), Lower(q)) || Contains(Lower(c.company), Lower(q))
  }

  lemma SearchWithoutWildcards(c: Client, q: string)
    requires NoWildcards(q)
    ensures MatchesQuery(c, q) <==> NameOrCompanyContains(c, q)
  {
    SubstringSearch(q, c.name);
    SubstringSearch(q, c.company);
  }

  /** `GET /clients/search?q=`: an empty query finds nothing; otherwise the
      user's clients whose name or company matches the pattern `%q%`. For a
      query without `%` or `_` that is a case-insensitive substring test. */
  method SearchClients(db: Database, uid: int, q: string) returns (r: seq<Client>)
    requires db.Valid()
    ensures q == "" ==> r == []
    ensures forall c :: c in r ==> c.id in db.clients && db.clients[c.id] == c && c.userId == uid
    ensures q != "" ==> forall c :: c in r ==> MatchesQuery(c, q)
    ensures q != "" ==>
              forall k :: (k in db.clients && db.clients[k].userId == uid && MatchesQuery(db.clients[k], q))
                ==> db.clients[k] in r
    ensures q != "" && NoWildcards(q) ==>
              forall k :: k in db.clients && db.clients[k].userId == uid ==>
                (db.clients[k] in r <==> NameOrCompanyContains(db.clients[k], q))
    ensures forall i, j :: 0 <= i < j < |r| ==> r[i].id < r[j].id
  {
    if q == "" {
      return [];
    }
    r := Select(db.clients, db.nextId, (c: Client) => c.userId == uid && MatchesQuery(c, q), ClientId);
    if NoWildcards(q) {
      forall c: Client ensures MatchesQuery(c, q) <==> NameOrCompanyContains(c, q) {
        SearchWithoutWildcards(c, q);
      }
    }
  }
}
