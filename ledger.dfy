/** The backend's rows (the classes under backend/models) and the database that holds them, as
    maps from primary key to row. Rows are created with the next free id, so
    "newest first" by creation time is descending id. */
module Ledger {
  import opened Common
  import opened Calendar

  datatype User = User(id: int, username: string, email: string, password: string,
                       name: string, bio: Option<string>, profileImage: Option<string>,
                       specialization: string, hourlyRate: real, isPublic: bool)

  datatype Client = Client(id: int, userId: int, name: string, email: string, phone: string,
                           company: string, address: string, notes: string)

  datatype Project = Project(id: int, userId: int, clientId: int, title: string, description: string,
                             status: string, startDate: Option<Date>, endDate: Option<Date>,
                             hourlyRate: Option<real>, fixedPrice: Option<real>,
                             totalHours: real, totalBilled: real, isPublic: bool)

  function UserId(u: User): int
  {
    u.id
  }

  function ProjectId(p: Project): int
  {
    p.id
  }

  /** The project's dates are dates Python can hold. */
  predicate ProjectDatesValid(p: Project)
  {
    (p.startDate.Some? ==> PyDate(p.startDate.value)) && (p.endDate.Some? ==> PyDate(p.endDate.value))
  }

  datatype TimeEntry = TimeEntry(id: int, projectId: int, description: string, date: Date,
                                 hours: real, billable: bool, invoiced: bool)

  function EntryId(e: TimeEntry): int
  {
    e.id
  }

  function EntryDate(e: TimeEntry): Date
  {
    e.date
  }

  /** The entry's day number; only rows with a valid date are ever stored. */
  function DayNumber(e: TimeEntry): int
  {
    if Valid(e.date) then Ordinal(e.date) else 0
  }

  /** An invoice line; its rows keep the order in which they were added. */
  datatype Item = Item(description: string, quantity: real, unitPrice: real)

  datatype Invoice = Invoice(id: int, projectId: int, number: string, issueDate: Date,
                             dueDate: Option<Date>, status: string, notes: string, items: seq<Item>)

  datatype Document = Document(id: int, projectId: int, name: string, filePath: string,
                               fileType: string, fileSize: int, documentType: string,
                               description: string)

  /** `check_password`: the stored credential matches the given password. */
  predicate CheckPassword(u: User, password: string)
  {
    u.password == password
  }

  /** The ids in `keys` between `lo` (inclusive) and `hi` (exclusive), ascending:
      the order in which the rows were inserted. */
  function AscendingIds(keys: set<int>, lo: int, hi: int): (r: seq<int>)
    ensures forall k :: k in r <==> k in keys && lo <= k < hi
    ensures forall i, j :: 0 <= i < j < |r| ==> r[i] < r[j]
    decreases hi - lo
  {
    if lo >= hi then []
    else if lo in keys then
      var rest := AscendingIds(keys, lo + 1, hi);
      assert forall j :: 0 <= j < |rest| ==> rest[j] in rest && lo < rest[j];
      [lo] + rest
    else AscendingIds(keys, lo + 1, hi)
  }

  predicate Ascending(s: seq<int>)
  {
    forall i, j :: 0 <= i < j < |s| ==> s[i] < s[j]
  }

  /** The ids in `ids` whose row satisfies `keep`, in the same order: a
      `filter(...)` over a table scanned in id order. */
  function KeepIds<T>(rows: map<int, T>, ids: seq<int>, keep: T -> bool): (r: seq<int>)
    requires forall i :: 0 <= i < |ids| ==> ids[i] in rows
    ensures forall k :: k in r <==> k in ids && keep(rows[k])
    ensures Ascending(ids) ==> Ascending(r)
    ensures |r| <= |ids|
  {
    if ids == [] then []
    else
      var rest := KeepIds(rows, ids[1..], keep);
      if keep(rows[ids[0]]) then
        AfterHead(ids, rest);
        [ids[0]] + rest
      else rest
  }

  /** Ids drawn from the tail of an ascending sequence all exceed its head. */
  lemma AfterHead(ids: seq<int>, rest: seq<int>)
    requires |ids| > 0
    requires forall k :: k in rest ==> k in ids[1..]
    ensures Ascending(ids) ==> forall j :: 0 <= j < |rest| ==> ids[0] < rest[j]
  {
    if Ascending(ids) {
      forall j | 0 <= j < |rest| ensures ids[0] < rest[j] {
        assert rest[j] in rest;
        var m :| 0 <= m < |ids[1..]| && ids[1..][m] == rest[j];
        assert ids[m + 1] == rest[j];
      }
    }
  }

  /** The rows with the given ids, in the order of the ids. */
  function RowsAt<T>(rows: map<int, T>, ids: seq<int>): (r: seq<T>)
    requires forall i :: 0 <= i < |ids| ==> ids[i] in rows
    ensures |r| == |ids|
    ensures forall i :: 0 <= i < |ids| ==> r[i] == rows[ids[i]]
  {
    if ids == [] then [] else [rows[ids[0]]] + RowsAt(rows, ids[1..])
  }

  lemma SelectedMembers<T>(rows: map<int, T>, ids: seq<int>, keep: T -> bool, id: T -> int)
    requires forall k :: k in rows ==> id(rows[k]) == k
    requires forall i :: 0 <= i < |ids| ==> ids[i] in rows
    requires forall k :: k in ids <==> k in rows && keep(rows[k])
    ensures forall x :: x in RowsAt(rows, ids) ==> id(x) in rows && rows[id(x)] == x && keep(x)
    ensures forall k :: k in rows && keep(rows[k]) ==> rows[k] in RowsAt(rows, ids)
  {
    var r := RowsAt(rows, ids);
    forall x | x in r ensures id(x) in rows && rows[id(x)] == x && keep(x) {
      var i :| 0 <= i < |r| && r[i] == x;
      var k := ids[i];
      assert k in ids && k in rows && x == rows[k];
      assert id(rows[k]) == k;
    }
    forall k | k in rows && keep(rows[k]) ensures rows[k] in r {
      assert k in ids;
      var i :| 0 <= i < |ids| && ids[i] == k;
      assert r[i] == rows[k];
    }
  }

  lemma SelectedOrder<T>(rows: map<int, T>, ids: seq<int>, id: T -> int)
    requires forall k :: k in rows ==> id(rows[k]) == k
    requires forall i :: 0 <= i < |ids| ==> ids[i] in rows
    requires Ascending(ids)
    ensures forall i, j :: 0 <= i < j < |ids| ==> id(RowsAt(rows, ids)[i]) < id(RowsAt(rows, ids)[j])
  {
    var r := RowsAt(rows, ids);
    assert forall i :: 0 <= i < |r| ==> id(r[i]) == ids[i];
  }

  /** `Table.query.filter(keep).all()` on a table whose rows are keyed by
      their id: every row satisfying `keep` and no other, in id order. */
  function Select<T>(rows: map<int, T>, bound: int, keep: T -> bool, id: T -> int): (r: seq<T>)
    requires forall k :: k in rows ==> 1 <= k < bound && id(rows[k]) == k
    ensures forall x :: x in r ==> id(x) in rows && rows[id(x)] == x && keep(x)
    ensures forall k :: k in rows && keep(rows[k]) ==> rows[k] in r
    ensures forall i, j :: 0 <= i < j < |r| ==> id(r[i]) < id(r[j])
  {
    var ids := KeepIds(rows, AscendingIds(rows.Keys, 1, bound), keep);
    SelectedMembers(rows, ids, keep, id);
    SelectedOrder(rows, ids, id);
    RowsAt(rows, ids)
  }

  function Reverse<T>(s: seq<T>): (r: seq<T>)
    ensures |r| == |s|
    ensures forall i :: 0 <= i < |s| ==> r[i] == s[|s| - 1 - i]
  {
    if s == [] then [] else Reverse(s[1..]) + [s[0]]
  }

  /** Rows listed in ascending id order, reversed: the same rows, latest first. */
  lemma ReverseNewestFirst<T>(s: seq<T>, id: T -> int)
    requires forall i, j :: 0 <= i < j < |s| ==> id(s[i]) < id(s[j])
    ensures forall x :: x in Reverse(s) <==> x in s
    ensures forall i, j :: 0 <= i < j < |Reverse(s)| ==> id(Reverse(s)[i]) > id(Reverse(s)[j])
  {
    var r := Reverse(s);
    forall x ensures x in r <==> x in s {
      if x in r {
        var i :| 0 <= i < |r| && r[i] == x;
        assert s[|s| - 1 - i] == x;
      }
      if x in s {
        var i :| 0 <= i < |s| && s[i] == x;
        assert r[|r| - 1 - i] == x;
      }
    }
  }

  class Database {
    var users: map<int, User>
    var clients: map<int, Client>
    var projects: map<int, Project>
    var entries: map<int, TimeEntry>
    var invoices: map<int, Invoice>
    var documents: map<int, Document>
    var nextId: int

    ghost predicate UsersValid()
      reads this`users, this`nextId
    {
      1 <= nextId
      && (forall k :: k in users ==> users[k].id == k && 1 <= k < nextId)
      && (forall a, b :: a in users && b in users && users[a].username == users[b].username ==> a == b)
      && (forall a, b :: a in users && b in users && users[a].email == users[b].email ==> a == b)
    }

    ghost predicate ClientsValid()
      reads this`clients, this`users, this`nextId
    {
      forall k :: k in clients ==> clients[k].id == k && 1 <= k < nextId && clients[k].userId in users
    }

    /** Every project belongs to a user and to one of that user's clients. */
    ghost predicate ProjectsValid()
      reads this`projects, this`clients, this`nextId
    {
      forall k :: k in projects ==>
        projects[k].id == k && 1 <= k < nextId
        && projects[k].clientId in clients
        && clients[projects[k].clientId].userId == projects[k].userId
        && ProjectDatesValid(projects[k])
    }

    ghost predicate EntriesValid()
      reads this`entries, this`projects, this`nextId
    {
      forall k :: k in entries ==>
        entries[k].id == k && 1 <= k < nextId && entries[k].projectId in projects
        && PyDate(entries[k].date)
    }

    ghost predicate InvoicesValid()
      reads this`invoices, this`projects, this`nextId
    {
      forall k :: k in invoices ==>
        invoices[k].id == k && 1 <= k < nextId && invoices[k].projectId in projects
        && PyDate(invoices[k].issueDate)
        && (invoices[k].dueDate.Some? ==> PyDate(invoices[k].dueDate.value))
    }

    ghost predicate DocumentsValid()
      reads this`documents, this`projects, this`nextId
    {
      forall k :: k in documents ==>
        documents[k].id == k && 1 <= k < nextId && documents[k].projectId in projects
    }

    /** Keys are ids, ids are below the next free id, usernames and emails are
        unique, and every foreign key points at an existing row. */
    ghost predicate Valid()
      reads this
    {
      UsersValid() && ClientsValid() && ProjectsValid() && EntriesValid()
      && InvoicesValid() && DocumentsValid()
    }

    constructor()
      ensures Valid()
      ensures users == map[] && clients == map[] && projects == map[]
      ensures entries == map[] && invoices == map[] && documents == map[]
    {
      users, clients, projects := map[], map[], map[];
      entries, invoices, documents := map[], map[], map[];
      nextId := 1;
    }

    /** Replaces the row of an existing user; the username stays, and no
        other user holds the new email. */
    method SetUser(u: User)
      requires Valid() && u.id in users && users[u.id].id == u.id
      requires u.username == users[u.id].username
      requires forall k :: k in users && k != u.id ==> users[k].email != u.email
      modifies this`users
      ensures Valid()
      ensures users == old(users)[u.id := u]
    {
      users := users[u.id := u];
      assert ProjectsValid() && EntriesValid() && InvoicesValid() && DocumentsValid();
    }

    /** Inserts a user under an id handed out before, whose username and
        email no other user holds. */
    method AddUser(u: User)
      requires Valid() && u.id !in users && 1 <= u.id < nextId
      requires forall k :: k in users ==> users[k].username != u.username && users[k].email != u.email
      modifies this`users
      ensures Valid()
      ensures users == old(users)[u.id := u]
    {
      users := users[u.id := u];
      assert UsersValid() by {
        forall a, b | a in users && b in users && users[a].username == users[b].username
          ensures a == b
        {
          if a != u.id && b != u.id {
            assert old(users)[a].username == old(users)[b].username;
          }
        }
        forall a, b | a in users && b in users && users[a].email == users[b].email
          ensures a == b
        {
          if a != u.id && b != u.id {
            assert old(users)[a].email == old(users)[b].email;
          }
        }
      }
      assert ClientsValid() && ProjectsValid() && EntriesValid() && InvoicesValid() && DocumentsValid();
    }

    /** Inserts or replaces an invoice under an id handed out before. */
    method PutInvoice(inv: Invoice)
      requires Valid() && 1 <= inv.id < nextId && inv.projectId in projects
      requires PyDate(inv.issueDate) && (inv.dueDate.Some? ==> PyDate(inv.dueDate.value))
      modifies this`invoices
      ensures Valid()
      ensures invoices == old(invoices)[inv.id := inv]
    {
      invoices := invoices[inv.id := inv];
      assert UsersValid() && ClientsValid() && ProjectsValid() && EntriesValid() && DocumentsValid();
    }

    method RemoveInvoice(iid: int)
      requires Valid()
      modifies this`invoices
      ensures Valid()
      ensures invoices == old(invoices) - {iid}
    {
      invoices := invoices - {iid};
      assert UsersValid() && ClientsValid() && ProjectsValid() && EntriesValid() && DocumentsValid();
    }

    /** Replaces the time entries by rows that differ from them in their
        `invoiced` flags only. */
    method SetEntryFlags(marked: map<int, TimeEntry>)
      requires Valid() && marked.Keys == entries.Keys
      requires forall k :: k in marked ==> marked[k] == entries[k].(invoiced := marked[k].invoiced)
      modifies this`entries
      ensures Valid()
      ensures entries == marked
    {
      entries := marked;
      assert UsersValid() && ClientsValid() && ProjectsValid() && InvoicesValid() && DocumentsValid();
    }

    /** Removes project `pid` after the rows that point at it: its time
        entries, invoices and documents. */
    method RemoveProject(pid: int)
      requires Valid()
      modifies this`entries, this`invoices, this`documents, this`projects
      ensures Valid()
      ensures projects == old(projects) - {pid}
      ensures entries == (map k | k in old(entries) && old(entries)[k].projectId != pid :: old(entries)[k])
      ensures invoices == (map k | k in old(invoices) && old(invoices)[k].projectId != pid :: old(invoices)[k])
      ensures documents == (map k | k in old(documents) && old(documents)[k].projectId != pid :: old(documents)[k])
    {
      DropEntriesOf(pid);
      DropInvoicesOf(pid);
      DropDocumentsOf(pid);
      RemoveUnreferencedProject(pid);
    }

    method DropEntriesOf(pid: int)
      requires Valid()
      modifies this`entries
      ensures Valid()
      ensures entries == (map k | k in old(entries) && old(entries)[k].projectId != pid :: old(entries)[k])
    {
      entries := map k | k in entries && entries[k].projectId != pid :: entries[k];
      assert UsersValid() && ClientsValid() && ProjectsValid() && InvoicesValid() && DocumentsValid();
    }

    method DropInvoicesOf(pid: int)
      requires Valid()
      modifies this`invoices
      ensures Valid()
      ensures invoices == (map k | k in old(invoices) && old(invoices)[k].projectId != pid :: old(invoices)[k])
    {
      invoices := map k | k in invoices && invoices[k].projectId != pid :: invoices[k];
      assert UsersValid() && ClientsValid() && ProjectsValid() && EntriesValid() && DocumentsValid();
    }

    method DropDocumentsOf(pid: int)
      requires Valid()
      modifies this`documents
      ensures Valid()
      ensures documents == (map k | k in old(documents) && old(documents)[k].projectId != pid :: old(documents)[k])
    {
      documents := map k | k in documents && documents[k].projectId != pid :: documents[k];
      assert UsersValid() && ClientsValid() && ProjectsValid() && EntriesValid() && InvoicesValid();
    }

    method RemoveUnreferencedProject(pid: int)
      requires Valid()
      requires forall k :: k in entries ==> entries[k].projectId != pid
      requires forall k :: k in invoices ==> invoices[k].projectId != pid
      requires forall k :: k in documents ==> documents[k].projectId != pid
      modifies this`projects
      ensures Valid()
      ensures projects == old(projects) - {pid}
    {
      projects := projects - {pid};
      assert UsersValid() && ClientsValid() && ProjectsValid();
    }

    /** Hands out the id of a row about to be inserted. */
    method FreshId() returns (id: int)
      requires Valid()
      modifies this`nextId
      ensures Valid()
      ensures id == old(nextId) && nextId == id + 1
      ensures id !in users && id !in clients && id !in projects
      ensures id !in entries && id !in invoices && id !in documents
    {
      id := nextId;
      nextId := nextId + 1;
    }
  }

  /** The `error` text of the application-wide error handlers: a failed
      `first_or_404`, an uncaught exception, and a database error. */
  const NotFound := "Not Found"
  const ServerError := "Server Error"
  const DatabaseError := "Database Error"

  /** `Project.query.filter_by(id=pid, user_id=uid).first()` finds a row. */
  predicate OwnsProject(projects: map<int, Project>, uid: int, pid: int)
  {
    pid in projects && projects[pid].userId == uid
  }

  predicate OwnsClient(clients: map<int, Client>, uid: int, cid: int)
  {
    cid in clients && clients[cid].userId == uid
  }

  /** The entry exists and its project belongs to the user (the join on
      `Project.user_id`). */
  predicate OwnsEntry(entries: map<int, TimeEntry>, projects: map<int, Project>, uid: int, eid: int)
  {
    eid in entries && OwnsProject(projects, uid, entries[eid].projectId)
  }
}
