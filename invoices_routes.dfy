/** The invoice routes (backend/routes/invoices.py): invoices of a user's
    projects, the time entries they bill, and what paying an invoice
    freezes. */
module InvoiceRoutes {
  import opened Common
  import opened Calendar
  import opened Grouping
  import opened Ledger
  import opened Sorting
  import opened InvoiceModel
  import opened InvoiceLines
  import ProjectModel

  const ProjectIdRequired := "Project ID is required"
  const InvalidProject := "Invalid project ID"
  const BadIssueDate := "Invalid issue date format. Use YYYY-MM-DD"
  const BadDueDate := "Invalid due date format. Use YYYY-MM-DD"
  const BadStartDate := "Invalid start date format. Use YYYY-MM-DD"
  const BadEndDate := "Invalid end date format. Use YYYY-MM-DD"
  const PaidNotEditable := "Cannot modify a paid invoice"
  const PaidNotDeletable := "Cannot delete a paid invoice"
  const NoUnbilledEntries := "No unbilled time entries found for this project"

  /** The statuses `invoice_stats` counts, in its order. */
  const InvoiceStatuses := ["draft", "sent", "paid", "overdue"]

  /** The invoice exists and its project is the user's (the join on `Project.user_id`). */
  predicate OwnsInvoice(invoices: map<int, Invoice>, projects: map<int, Project>, uid: int, iid: int)
  {
    iid in invoices && OwnsProject(projects, uid, invoices[iid].projectId)
  }

  /** The user's invoices, in id order. */
  function UserInvoices(invoices: map<int, Invoice>, projects: map<int, Project>, uid: int, bound: int): (r: seq<Invoice>)
    requires forall k :: k in invoices ==> 1 <= k < bound && invoices[k].id == k
    ensures forall inv :: inv in r ==> inv.id in invoices && invoices[inv.id] == inv
                                       && OwnsProject(projects, uid, inv.projectId)
    ensures forall k :: k in invoices && OwnsProject(projects, uid, invoices[k].projectId) ==> invoices[k] in r
    ensures forall i, j :: 0 <= i < j < |r| ==> r[i].id < r[j].id
  {
    Select(invoices, bound, (inv: Invoice) => OwnsProject(projects, uid, inv.projectId), InvoiceId)
  }

  /** `data.get('project_id')` is truthy. */
  predicate GivenProject(o: Option<int>)
  {
    o.Some? && o.value != 0
  }

  /** A date key that is truthy holds a date `strptime` accepts. */
  predicate DateOk(given: Option<string>)
  {
    Present(given) ==> ParseIso(given.value).Some?
  }

  /** The date a truthy key holds, or the fallback. */
  function DateOr(given: Option<string>, fallback: Date): (d: Date)
    requires DateOk(given) && PyDate(fallback)
    ensures PyDate(d)
  {
    if Present(given) then ParseIso(given.value).value else fallback
  }

  /** Sets `invoiced` on each entry of `chosen`, one after the other (lines
      145-156 and 553-555); every other entry is left as it is. */
  method MarkInvoiced(entries: map<int, TimeEntry>, chosen: seq<TimeEntry>) returns (marked: map<int, TimeEntry>)
    requires forall k :: k in entries ==> entries[k].id == k
    requires forall e :: e in chosen ==> e.id in entries && entries[e.id] == e
    ensures marked.Keys == entries.Keys
    ensures forall k :: k in entries ==>
              marked[k] == if entries[k] in chosen then entries[k].(invoiced := true) else entries[k]
  {
    marked := entries;
    for i := 0 to |chosen|
      invariant marked.Keys == entries.Keys
      invariant forall k :: k in entries ==>
                  marked[k] == if entries[k] in chosen[..i] then entries[k].(invoiced := true) else entries[k]
    {
      var e := chosen[i];
      assert e in chosen;
      assert chosen[..i + 1] == chosen[..i] + [e];
      marked := marked[e.id := e.(invoiced := true)];
    }
    assert chosen[..|chosen|] == chosen;
  }

  /** Inserts `inv` under the next id and replaces the time entries by
      `marked`, which differs from them in `invoiced` flags only. */
  method StoreInvoice(db: Database, inv: Invoice, marked: map<int, TimeEntry>) returns (id: int)
    requires db.Valid() && inv.id == db.nextId && inv.projectId in db.projects
    requires PyDate(inv.issueDate) && (inv.dueDate.Some? ==> PyDate(inv.dueDate.value))
    requires marked.Keys == db.entries.Keys
    requires forall k :: k in marked ==> marked[k] == db.entries[k].(invoiced := marked[k].invoiced)
    modifies db
    ensures db.Valid()
    ensures id == old(db.nextId) && id !in old(db.invoices)
    ensures db.invoices == old(db.invoices)[id := inv] && db.entries == marked
    ensures unchanged(db`users, db`clients, db`projects, db`documents)
  {
    id := db.FreshId();
    db.PutInvoice(inv);
    db.SetEntryFlags(marked);
  }

  /** Removes invoice `iid` and replaces the time entries by `released`,
      which differs from them in `invoiced` flags only. */
  method DropInvoice(db: Database, iid: int, released: map<int, TimeEntry>)
    requires db.Valid() && released.Keys == db.entries.Keys
    requires forall k :: k in released ==> released[k] == db.entries[k].(invoiced := released[k].invoiced)
    modifies db
    ensures db.Valid()
    ensures db.invoices == old(db.invoices) - {iid} && db.entries == released
    ensures unchanged(db`users, db`clients, db`projects, db`documents, db`nextId)
  {
    db.SetEntryFlags(released);
    db.RemoveInvoice(iid);
  }

  /** Every row `Select` returns is a row of the table. */
  lemma SelectedDates(entries: map<int, TimeEntry>, chosen: seq<TimeEntry>)
    requires forall k :: k in entries ==> PyDate(entries[k].date)
    requires forall e :: e in chosen ==> e.id in entries && entries[e.id] == e
    ensures forall i :: 0 <= i < |chosen| ==> PyDate(chosen[i].date)
  {
    forall i | 0 <= i < |chosen| ensures PyDate(chosen[i].date) {
      assert chosen[i] in chosen;
    }
  }

  // ---------------------------------------------------------------- create

  /** A request body of `create_invoice`; `None` is an absent key. */
  datatype InvoicePayload = InvoicePayload(projectId: Option<int>, issueDate: Option<string>,
                                           dueDate: Option<string>, status: Option<string>,
                                           notes: Option<string>, items: Option<seq<ItemPayload>>,
                                           includeTimeEntries: Option<bool>, timeEntryIds: Option<seq<int>>)

  /** What lines 80-135 decide for an invoice with id `id` and number
      `number`: the project id, then its owner, then each truthy date must
      parse. The issue date defaults to today; an empty due date is left to
      the column default `defaultDue` (the import-time date 30 days on). The
      lines of the body follow, with their defaults. */
  function NewInvoiceRow(projects: map<int, Project>, uid: int, p: InvoicePayload, number: string,
                         today: Date, defaultDue: Date, id: int): (r: Result<Invoice>)
    requires PyDate(today) && PyDate(defaultDue)
    ensures !GivenProject(p.projectId) ==> r == Err(400, ProjectIdRequired)
    ensures GivenProject(p.projectId) && !OwnsProject(projects, uid, p.projectId.value) ==> r == Err(400, InvalidProject)
    ensures (GivenProject(p.projectId) && OwnsProject(projects, uid, p.projectId.value)
             && !DateOk(p.issueDate)) ==> r == Err(400, BadIssueDate)
    ensures (GivenProject(p.projectId) && OwnsProject(projects, uid, p.projectId.value)
             && DateOk(p.issueDate) && !DateOk(p.dueDate)) ==> r == Err(400, BadDueDate)
    ensures r.Ok? <==> GivenProject(p.projectId) && OwnsProject(projects, uid, p.projectId.value)
                       && DateOk(p.issueDate) && DateOk(p.dueDate)
    ensures r.Ok? ==> r.value.id == id && r.value.projectId == p.projectId.value && r.value.number == number
                      && PyDate(r.value.issueDate) && r.value.dueDate.Some? && PyDate(r.value.dueDate.value)
                      && (Present(p.issueDate) ==> Some(r.value.issueDate) == ParseIso(p.issueDate.value))
                      && (!Present(p.issueDate) ==> r.value.issueDate == today)
                      && (Present(p.dueDate) ==> r.value.dueDate == ParseIso(p.dueDate.value))
                      && (!Present(p.dueDate) ==> r.value.dueDate == Some(defaultDue))
                      && r.value.status == OrElse(p.status, DefaultStatus)
                      && r.value.notes == OrElse(p.notes, "")
                      && r.value.items == ItemsFrom(OrElse(p.items, []))
  {
    if !GivenProject(p.projectId) then Err(400, ProjectIdRequired)
    else if !OwnsProject(projects, uid, p.projectId.value) then Err(400, InvalidProject)
    else if !DateOk(p.issueDate) then Err(400, BadIssueDate)
    else if !DateOk(p.dueDate) then Err(400, BadDueDate)
    else
      Ok(Invoice(id, p.projectId.value, number, DateOr(p.issueDate, today), Some(DateOr(p.dueDate, defaultDue)),
                 OrElse(p.status, DefaultStatus), OrElse(p.notes, ""), ItemsFrom(OrElse(p.items, []))))
  }

  /** The ids whose entries the body asks to attach: none unless
      `include_time_entries` is set. */
  function RequestedIds(p: InvoicePayload): seq<int>
  {
    if p.includeTimeEntries == Some(true) then OrElse(p.timeEntryIds, []) else []
  }

  /** Lines 139-143: a requested entry of the invoice's project that no
      invoice bills yet. Nothing asks it to be billable. */
  function Attachable(ids: seq<int>, pid: int): TimeEntry -> bool
  {
    (e: TimeEntry) => e.id in ids && e.projectId == pid && !e.invoiced
  }

  /** `POST /invoices/`: the invoice gets the next free number of the user
      and year, the body's lines, then one time line per attachable entry,
      priced at the project's rate, else the user's, else 0; those entries
      become invoiced. */
  method CreateInvoice(db: Database, uid: nat, p: InvoicePayload, today: Date, defaultDue: Date)
    returns (r: Result<Invoice>)
    requires db.Valid() && uid in db.users && PyDate(today) && PyDate(defaultDue)
    modifies db
    ensures db.Valid()
    ensures var row := NewInvoiceRow(old(db.projects), uid, p, NextNumber(old(db.invoices), old(db.nextId), uid, today.year),
                                     today, defaultDue, old(db.nextId));
            && (r.Err? <==> row.Err?)
            && (r.Err? ==> r == row && unchanged(db))
            && (r.Ok? ==>
                  var chosen := Select(old(db.entries), old(db.nextId), Attachable(RequestedIds(p), row.value.projectId), EntryId);
                  var rate := BillingRate(old(db.projects)[row.value.projectId], old(db.users)[uid]);
                  SelectedDates(old(db.entries), chosen);
                  r.value == row.value.(items := row.value.items + TimeItems(chosen, rate)))
    ensures r.Ok? ==> r.value.id !in old(db.invoices) && db.invoices == old(db.invoices)[r.value.id := r.value]
    ensures r.Ok? ==> db.entries.Keys == old(db.entries).Keys
    ensures r.Ok? ==> forall k :: k in old(db.entries) ==>
              db.entries[k] == if Attachable(RequestedIds(p), r.value.projectId)(old(db.entries)[k])
                               then old(db.entries)[k].(invoiced := true) else old(db.entries)[k]
    ensures unchanged(db`users, db`clients, db`projects, db`documents)
  {
    var number := NextNumber(db.invoices, db.nextId, uid, today.year);
    var row := NewInvoiceRow(db.projects, uid, p, number, today, defaultDue, db.nextId);
    if row.Err? {
      return row;
    }
    var pid := row.value.projectId;
    var chosen := Select(db.entries, db.nextId, Attachable(RequestedIds(p), pid), EntryId);
    SelectedDates(db.entries, chosen);
    var rate := BillingRate(db.projects[pid], db.users[uid]);
    var inv := row.value.(items := row.value.items + TimeItems(chosen, rate));
    var marked := MarkInvoiced(db.entries, chosen);
    var id := StoreInvoice(db, inv, marked);
    r := Ok(inv);
  }

  /** The created invoice bills the body's lines plus the attached hours at
      the rate. */
  lemma CreatedTotal(base: seq<Item>, chosen: seq<TimeEntry>, rate: real)
    requires forall i :: 0 <= i < |chosen| ==> PyDate(chosen[i].date)
    ensures TotalAmount(base + TimeItems(chosen, rate))
            == TotalAmount(base) + SumOf(chosen, ProjectModel.EntryHours) * rate
  {
    TotalAmountAppend(base, TimeItems(chosen, rate));
    TimeItemsTotal(chosen, rate);
  }

  // ---------------------------------------------------------------- update

  /** A request body of `update_invoice`; `None` is an absent key. For the
      due date, `Some("")` is a key given as empty. */
  datatype InvoicePatch = InvoicePatch(issueDate: Option<string>, dueDate: Option<string>,
                                       status: Option<string>, notes: Option<string>,
                                       items: Option<seq<ItemPayload>>)

  /** The body would leave a paid invoice unpaid, or does not say `paid`. */
  predicate RefusedForPaid(inv: Invoice, p: InvoicePatch)
  {
    inv.status == "paid" && p.status != Some("paid")
  }

  /** What `update_invoice` does to one of the user's invoices: a paid
      invoice accepts only a body whose status is `paid`; a given issue date
      must parse (an empty one does not); an empty due date clears the
      column, which its NOT NULL constraint refuses at commit; every other
      key present replaces its value, and `items` replaces all the lines. */
  function PatchInvoice(inv: Invoice, p: InvoicePatch): (r: Result<Invoice>)
    ensures RefusedForPaid(inv, p) ==> r == Err(400, PaidNotEditable)
    ensures (!RefusedForPaid(inv, p) && p.issueDate.Some? && ParseIso(p.issueDate.value).None?)
            ==> r == Err(400, BadIssueDate)
    ensures (!RefusedForPaid(inv, p) && (p.issueDate.Some? ==> ParseIso(p.issueDate.value).Some?)
             && p.dueDate == Some("")) ==> r == Err(500, DatabaseError)
    ensures (!RefusedForPaid(inv, p) && (p.issueDate.Some? ==> ParseIso(p.issueDate.value).Some?)
             && Present(p.dueDate) && ParseIso(p.dueDate.value).None?) ==> r == Err(400, BadDueDate)
    ensures r.Ok? <==> !RefusedForPaid(inv, p)
                       && (p.issueDate.Some? ==> ParseIso(p.issueDate.value).Some?)
                       && (p.dueDate.Some? ==> ParseIso(p.dueDate.value).Some?)
    ensures r.Ok? ==> r.value.id == inv.id && r.value.projectId == inv.projectId && r.value.number == inv.number
                      && (p.issueDate.Some? ==> Some(r.value.issueDate) == ParseIso(p.issueDate.value))
                      && (p.issueDate.None? ==> r.value.issueDate == inv.issueDate)
                      && (p.dueDate.Some? ==> r.value.dueDate == ParseIso(p.dueDate.value))
                      && (p.dueDate.None? ==> r.value.dueDate == inv.dueDate)
                      && r.value.status == OrElse(p.status, inv.status)
                      && r.value.notes == OrElse(p.notes, inv.notes)
                      && r.value.items == (if p.items.Some? then ItemsFrom(p.items.value) else inv.items)
  {
    if RefusedForPaid(inv, p) then Err(400, PaidNotEditable)
    else if p.issueDate.Some? && ParseIso(p.issueDate.value).None? then Err(400, BadIssueDate)
    else if p.dueDate == Some("") then Err(500, DatabaseError)
    else if p.dueDate.Some? && ParseIso(p.dueDate.value).None? then Err(400, BadDueDate)
    else
      Ok(inv.(issueDate := if p.issueDate.Some? then ParseIso(p.issueDate.value).value else inv.issueDate,
              dueDate := if p.dueDate.Some? then ParseIso(p.dueDate.value) else inv.dueDate,
              status := OrElse(p.status, inv.status),
              notes := OrElse(p.notes, inv.notes),
              items := if p.items.Some? then ItemsFrom(p.items.value) else inv.items))
  }

  /** A paid invoice stays paid through every update that succeeds. */
  lemma PaidStaysPaid(inv: Invoice, p: InvoicePatch)
    requires inv.status == "paid" && PatchInvoice(inv, p).Ok?
    ensures PatchInvoice(inv, p).value.status == "paid"
  {
  }

  /** The paid check looks only at the body's status: a body that repeats
      `paid` may still replace every line of a paid invoice. */
  lemma PaidLinesReplaceable(inv: Invoice, items: seq<ItemPayload>)
    requires inv.status == "paid"
    ensures PatchInvoice(inv, InvoicePatch(None, None, Some("paid"), None, Some(items)))
            == Ok(inv.(items := ItemsFrom(items)))
  {
  }

  /** Sending the same body twice changes nothing the second time. */
  lemma PatchInvoiceIdempotent(inv: Invoice, p: InvoicePatch)
    requires PatchInvoice(inv, p).Ok?
    ensures PatchInvoice(PatchInvoice(inv, p).value, p) == PatchInvoice(inv, p)
  {
  }

  /** An unpaid invoice given a body of no keys is left as it is. */
  lemma EmptyPatchKeepsInvoice(inv: Invoice)
    requires inv.status != "paid"
    ensures PatchInvoice(inv, InvoicePatch(None, None, None, None, None)) == Ok(inv)
  {
  }

  /** `PUT /invoices/<id>`. */
  method UpdateInvoice(db: Database, uid: int, iid: int, p: InvoicePatch) returns (r: Result<Invoice>)
    requires db.Valid()
    modifies db
    ensures db.Valid()
    ensures !OwnsInvoice(old(db.invoices), old(db.projects), uid, iid) ==> r == Err(404, NotFound)
    ensures OwnsInvoice(old(db.invoices), old(db.projects), uid, iid) ==> r == PatchInvoice(old(db.invoices)[iid], p)
    ensures r.Err? ==> unchanged(db)
    ensures r.Ok? ==> db.invoices == old(db.invoices)[iid := r.value]
    ensures unchanged(db`users, db`clients, db`projects, db`entries, db`documents, db`nextId)
  {
    if !OwnsInvoice(db.invoices, db.projects, uid, iid) {
      return Err(404, NotFound);
    }
    r := PatchInvoice(db.invoices[iid], p);
    if r.Ok? {
      db.invoices := db.invoices[iid := r.value];
    }
  }

  // ---------------------------------------------------------------- delete

  /** Lines 248-255 over a set of dates: every entry of project `pid` on
      one of the dates is left un-invoiced, whichever invoice bills it. */
  function ReleasedEntries(entries: map<int, TimeEntry>, pid: int, dates: set<Date>): (r: map<int, TimeEntry>)
    ensures r.Keys == entries.Keys
  {
    map k | k in entries :: if entries[k].projectId == pid && entries[k].date in dates
                            then entries[k].(invoiced := false) else entries[k]
  }

  lemma ReleaseStep(entries: map<int, TimeEntry>, pid: int, dates: set<Date>, d: Date)
    ensures ReleasedEntries(ReleasedEntries(entries, pid, dates), pid, {d}) == ReleasedEntries(entries, pid, dates + {d})
  {
  }

  lemma ReleaseNothing(entries: map<int, TimeEntry>, pid: int)
    ensures ReleasedEntries(entries, pid, {}) == entries
  {
  }

  lemma TimeLineDatesStep(items: seq<Item>, read: string -> Option<Date>, i: int)
    requires 0 <= i < |items|
    ensures TimeLineDates(items[..i + 1], read)
            == TimeLineDates(items[..i], read)
               + (if TimeLineDate(items[i], read).Some? then {TimeLineDate(items[i], read).value} else {})
  {
    assert items[..i + 1][..i] == items[..i];
  }

  /** Lines 247-255: for each time line, the invoiced entries of project
      `pid` on the date `read` finds in the line are released, one line
      after the other. */
  method ReleaseLines(entries: map<int, TimeEntry>, pid: int, items: seq<Item>, read: string -> Option<Date>)
    returns (released: map<int, TimeEntry>)
    ensures released == ReleasedEntries(entries, pid, TimeLineDates(items, read))
  {
    released := entries;
    ReleaseNothing(entries, pid);
    assert items[..0] == [];
    for i := 0 to |items|
      invariant released == ReleasedEntries(entries, pid, TimeLineDates(items[..i], read))
    {
      var done := TimeLineDates(items[..i], read);
      TimeLineDatesStep(items, read, i);
      var date := TimeLineDate(items[i], read);
      if date.Some? {
        ReleaseStep(entries, pid, done, date.value);
        released := ReleasedEntries(released, pid, {date.value});
      }
    }
    assert items[..|items|] == items;
  }

  /** `DELETE /invoices/<id>`: a paid invoice stays. Otherwise every time
      line names a date, the invoiced entries of the invoice's project on
      that date are released, and the invoice goes with its lines. */
  method DeleteInvoice(db: Database, uid: int, iid: int) returns (r: Result<()>)
    requires db.Valid()
    modifies db
    ensures db.Valid()
    ensures !OwnsInvoice(old(db.invoices), old(db.projects), uid, iid) ==> r == Err(404, NotFound)
    ensures OwnsInvoice(old(db.invoices), old(db.projects), uid, iid) && old(db.invoices)[iid].status == "paid"
            ==> r == Err(400, PaidNotDeletable)
    ensures r.Ok? <==> OwnsInvoice(old(db.invoices), old(db.projects), uid, iid) && old(db.invoices)[iid].status != "paid"
    ensures r.Err? ==> unchanged(db)
    ensures r.Ok? ==> db.invoices == old(db.invoices) - {iid}
    ensures r.Ok? ==> db.entries == ReleasedEntries(old(db.entries), old(db.invoices)[iid].projectId,
                                                    TimeLineDates(old(db.invoices)[iid].items, TimeItemDate))
    ensures unchanged(db`users, db`clients, db`projects, db`documents, db`nextId)
  {
    if !OwnsInvoice(db.invoices, db.projects, uid, iid) {
      return Err(404, NotFound);
    }
    var inv := db.invoices[iid];
    if inv.status == "paid" {
      return Err(400, PaidNotDeletable);
    }
    var released := ReleaseLines(db.entries, inv.projectId, inv.items, TimeItemDate);
    DropInvoice(db, iid, released);
    r := Ok(());
  }

  /** Creating then deleting an invoice releases every entry it attached:
      the entries keep their project and date while invoiced, and every time
      line reads back its entry's date. */
  lemma DeleteReleasesAttached(entries: map<int, TimeEntry>, base: seq<Item>, chosen: seq<TimeEntry>, rate: real, pid: int)
    requires forall i :: 0 <= i < |chosen| ==> PyDate(chosen[i].date)
    requires forall e :: e in chosen ==> e.projectId == pid && e.id in entries && entries[e.id].date == e.date
                                         && entries[e.id].projectId == pid
    ensures forall e :: e in chosen ==>
              !ReleasedEntries(entries, pid, TimeLineDates(base + TimeItems(chosen, rate), TimeItemDate))[e.id].invoiced
  {
    TimeItemsReleased(base, chosen, rate);
  }

  /** Release goes by project and date only: an entry billed by another
      invoice is released too when it shares the day. */
  lemma ReleaseReachesOtherInvoices(entries: map<int, TimeEntry>, pid: int, dates: set<Date>, k: int)
    requires k in entries && entries[k].invoiced && entries[k].projectId == pid && entries[k].date in dates
    ensures !ReleasedEntries(entries, pid, dates)[k].invoiced
  {
  }

  // ------------------------------------------------------------------ stats

  datatype InvoiceStats = InvoiceStats(totalInvoiced: real, totalPaid: real, pendingPayment: real,
                                       byStatus: map<string, int>, recent: seq<Invoice>,
                                       overdue: seq<Invoice>, overdueCount: int)

  function InvoiceTotal(inv: Invoice): real
  {
    TotalAmount(inv.items)
  }

  function InvoiceStatus(inv: Invoice): string
  {
    inv.status
  }

  predicate IsPaid(inv: Invoice)
  {
    inv.status == "paid"
  }

  predicate IsUnpaid(inv: Invoice)
  {
    inv.status != "paid"
  }

  /** The invoice's day number; only rows with a valid date are ever stored. */
  function IssueDay(inv: Invoice): int
  {
    if Valid(inv.issueDate) then Ordinal(inv.issueDate) else 0
  }

  /** Lines 411-415: sent, with a due date before today. */
  function OverdueOn(today: Date): Invoice -> bool
  {
    (inv: Invoice) => inv.status == "sent" && inv.dueDate.Some?
                      && Valid(inv.dueDate.value) && Valid(today) && Ordinal(inv.dueDate.value) < Ordinal(today)
  }

  /** `ORDER BY issue_date DESC LIMIT n`. */
  function Latest(mine: seq<Invoice>, n: nat): (r: seq<Invoice>)
    ensures |r| <= n
  {
    var sorted := SortDesc(mine, IssueDay);
    if |sorted| <= n then sorted else sorted[..n]
  }

  /** `GET /invoices/stats`: totals over the user's invoices (`or 0` makes
      an empty sum 0), a count per status filled in a loop, the five latest
      invoices by issue date and the overdue ones. */
  method InvoiceStatsOf(db: Database, uid: int, today: Date) returns (r: InvoiceStats)
    requires db.Valid()
    ensures var mine := UserInvoices(db.invoices, db.projects, uid, db.nextId);
            r.totalInvoiced == SumOf(mine, InvoiceTotal)
            && r.totalPaid == SumOf(Where(mine, IsPaid), InvoiceTotal)
            && r.pendingPayment == SumOf(Where(mine, IsUnpaid), InvoiceTotal)
            && (forall s :: s in r.byStatus <==> s in InvoiceStatuses)
            && (forall s :: s in r.byStatus ==> r.byStatus[s] == |GroupOf(mine, InvoiceStatus, s)|)
            && r.recent == Latest(mine, 5)
            && r.overdue == Where(mine, OverdueOn(today))
            && (forall inv :: inv in r.overdue <==> inv in mine && OverdueOn(today)(inv))
            && (forall i, j :: 0 <= i < j < |r.overdue| ==> r.overdue[i].id < r.overdue[j].id)
            && r.overdueCount == |r.overdue|
  {
    var mine := UserInvoices(db.invoices, db.projects, uid, db.nextId);
    var totalInvoiced := SumOf(mine, InvoiceTotal);
    var totalPaid := SumOf(Where(mine, IsPaid), InvoiceTotal);
    PendingIsUnpaid(mine);
    var byStatus: map<string, int> := map[];
    for i := 0 to |InvoiceStatuses|
      invariant forall s :: s in byStatus <==> s in InvoiceStatuses[..i]
      invariant forall s :: s in byStatus ==> byStatus[s] == |GroupOf(mine, InvoiceStatus, s)|
    {
      byStatus := byStatus[InvoiceStatuses[i] := |GroupOf(mine, InvoiceStatus, InvoiceStatuses[i])|];
    }
    assert InvoiceStatuses[..|InvoiceStatuses|] == InvoiceStatuses;
    var overdue := Where(mine, OverdueOn(today));
    WhereAscending(mine, OverdueOn(today), InvoiceId);
    r := InvoiceStats(totalInvoiced, totalPaid, totalInvoiced - totalPaid, byStatus,
                      Latest(mine, 5), overdue, |overdue|);
  }

  /** What is pending is exactly what the unpaid invoices bill. */
  lemma PendingIsUnpaid(mine: seq<Invoice>)
    ensures SumOf(mine, InvoiceTotal) - SumOf(Where(mine, IsPaid), InvoiceTotal)
            == SumOf(Where(mine, IsUnpaid), InvoiceTotal)
  {
    WhereSplit(mine, IsPaid, IsUnpaid, InvoiceTotal);
  }

  /** The recent list is the latest by issue date: at most five, latest
      first, and no invoice left out was issued after one that is in. */
  lemma LatestAreLatest(mine: seq<Invoice>, n: nat)
    ensures Descending(Latest(mine, n), IssueDay)
    ensures forall inv :: inv in Latest(mine, n) ==> inv in mine
    ensures forall inv, other :: inv in mine && inv !in Latest(mine, n) && other in Latest(mine, n)
              ==> IssueDay(inv) <= IssueDay(other)
  {
    var sorted := SortDesc(mine, IssueDay);
    SortDescMembers(mine, IssueDay);
    var r := Latest(mine, n);
    assert forall i :: 0 <= i < |r| ==> r[i] == sorted[i];
    forall inv, other | inv in mine && inv !in r && other in r
      ensures IssueDay(inv) <= IssueDay(other)
    {
      var j :| 0 <= j < |sorted| && sorted[j] == inv;
      var i :| 0 <= i < |r| && r[i] == other;
      assert j >= |r|;
    }
  }

  // ------------------------------------------------------ mark paid / sent

  /** `POST /invoices/<id>/mark-paid`: from any status. */
  method MarkPaid(db: Database, uid: int, iid: int) returns (r: Result<Invoice>)
    requires db.Valid()
    modifies db
    ensures db.Valid()
    ensures r.Ok? <==> OwnsInvoice(old(db.invoices), old(db.projects), uid, iid)
    ensures r.Err? ==> r == Err(404, NotFound) && unchanged(db)
    ensures r.Ok? ==> r.value == old(db.invoices)[iid].(status := "paid") && db.invoices == old(db.invoices)[iid := r.value]
    ensures unchanged(db`users, db`clients, db`projects, db`entries, db`documents, db`nextId)
  {
    if !OwnsInvoice(db.invoices, db.projects, uid, iid) {
      return Err(404, NotFound);
    }
    var inv := db.invoices[iid].(status := "paid");
    db.invoices := db.invoices[iid := inv];
    r := Ok(inv);
  }

  /** `POST /invoices/<id>/mark-sent`: from any status, a paid one included. */
  method MarkSent(db: Database, uid: int, iid: int) returns (r: Result<Invoice>)
    requires db.Valid()
    modifies db
    ensures db.Valid()
    ensures r.Ok? <==> OwnsInvoice(old(db.invoices), old(db.projects), uid, iid)
    ensures r.Err? ==> r == Err(404, NotFound) && unchanged(db)
    ensures r.Ok? ==> r.value == old(db.invoices)[iid].(status := "sent") && db.invoices == old(db.invoices)[iid := r.value]
    ensures unchanged(db`users, db`clients, db`projects, db`entries, db`documents, db`nextId)
  {
    if !OwnsInvoice(db.invoices, db.projects, uid, iid) {
      return Err(404, NotFound);
    }
    var inv := db.invoices[iid].(status := "sent");
    db.invoices := db.invoices[iid := inv];
    r := Ok(inv);
  }

  // -------------------------------------------------------------- from time

  /** A request body of `create_invoice_from_time`; `None` is an absent key. */
  datatype FromTimePayload = FromTimePayload(projectId: Option<int>, startDate: Option<string>,
                                             endDate: Option<string>, notes: Option<string>)

  /** The project and the inclusive date bounds of the entries to bill. */
  datatype EntryRange = EntryRange(projectId: int, from: Option<Date>, to: Option<Date>)

  /** The validations of lines 474-502, in order: project id, the project's
      owner, then each truthy bound must parse. */
  function FromTimeRange(projects: map<int, Project>, uid: int, p: FromTimePayload): (r: Result<EntryRange>)
    ensures !GivenProject(p.projectId) ==> r == Err(400, ProjectIdRequired)
    ensures GivenProject(p.projectId) && !OwnsProject(projects, uid, p.projectId.value) ==> r == Err(400, InvalidProject)
    ensures (GivenProject(p.projectId) && OwnsProject(projects, uid, p.projectId.value)
             && !DateOk(p.startDate)) ==> r == Err(400, BadStartDate)
    ensures (GivenProject(p.projectId) && OwnsProject(projects, uid, p.projectId.value)
             && DateOk(p.startDate) && !DateOk(p.endDate)) ==> r == Err(400, BadEndDate)
    ensures r.Ok? <==> GivenProject(p.projectId) && OwnsProject(projects, uid, p.projectId.value)
                       && DateOk(p.startDate) && DateOk(p.endDate)
    ensures r.Ok? ==> r.value.projectId == p.projectId.value
                      && (Present(p.startDate) ==> r.value.from == ParseIso(p.startDate.value))
                      && (!Present(p.startDate) ==> r.value.from.None?)
                      && (Present(p.endDate) ==> r.value.to == ParseIso(p.endDate.value))
                      && (!Present(p.endDate) ==> r.value.to.None?)
  {
    if !GivenProject(p.projectId) then Err(400, ProjectIdRequired)
    else if !OwnsProject(projects, uid, p.projectId.value) then Err(400, InvalidProject)
    else if !DateOk(p.startDate) then Err(400, BadStartDate)
    else if !DateOk(p.endDate) then Err(400, BadEndDate)
    else
      Ok(EntryRange(p.projectId.value,
                    if Present(p.startDate) then ParseIso(p.startDate.value) else None,
                    if Present(p.endDate) then ParseIso(p.endDate.value) else None))
  }

  /** Lines 483-502: a billable, un-invoiced entry of the project within the
      inclusive bounds. */
  function Unbilled(range: EntryRange): TimeEntry -> bool
  {
    (e: TimeEntry) => e.projectId == range.projectId && e.billable && !e.invoiced
                      && (range.from.Some? ==> Valid(range.from.value) && Ordinal(range.from.value) <= DayNumber(e))
                      && (range.to.Some? ==> Valid(range.to.value) && DayNumber(e) <= Ordinal(range.to.value))
  }

  /** `create_invoice_from_time` as written: after its checks, building the
      invoice at line 523 names `timedelta`, which line 3 does not import,
      so the request ends in a server error and nothing is stored. */
  method CreateInvoiceFromTimeAsWritten(db: Database, uid: int, p: FromTimePayload) returns (r: Result<Invoice>)
    requires db.Valid()
    ensures r.Err?
    ensures var range := FromTimeRange(db.projects, uid, p);
            && (range.Err? ==> r.status == range.status && r.message == range.message)
            && (range.Ok? ==>
                  var chosen := Select(db.entries, db.nextId, Unbilled(range.value), EntryId);
                  (chosen == [] ==> r == Err(400, NoUnbilledEntries))
                  && (chosen != [] ==> r == Err(500, ServerError)))
  {
    var range := FromTimeRange(db.projects, uid, p);
    if range.Err? {
      return Err(range.status, range.message);
    }
    var chosen := Select(db.entries, db.nextId, Unbilled(range.value), EntryId);
    if chosen == [] {
      return Err(400, NoUnbilledEntries);
    }
    r := Err(500, ServerError);
  }

  /** The invoice lines 504-555 build for the selected entries `chosen` of
      project `pid`, once `timedelta` is imported: there must be some; the
      draft is due 30 days after today (a server error past the last date
      Python can hold) and bills one line per day worked at `rate`. */
  function TimeDraft(id: int, pid: int, number: string, chosen: seq<TimeEntry>, rate: real,
                     notes: Option<string>, title: string, today: Date): (r: Result<Invoice>)
    requires forall i :: 0 <= i < |chosen| ==> PyDate(chosen[i].date)
    requires PyDate(today)
    ensures chosen == [] ==> r == Err(400, NoUnbilledEntries)
    ensures chosen != [] && Ordinal(today) + 30 > Ordinal(MaxDate) ==> r == Err(500, ServerError)
    ensures r.Ok? <==> chosen != [] && Ordinal(today) + 30 <= Ordinal(MaxDate)
    ensures r.Ok? ==> && r.value.id == id && r.value.projectId == pid && r.value.number == number
                      && r.value.issueDate == today && r.value.dueDate.Some?
                      && PyDate(r.value.dueDate.value) && Ordinal(r.value.dueDate.value) == Ordinal(today) + 30
                      && r.value.status == "draft"
                      && r.value.notes == OrElse(notes, "Invoice for time worked on " + title)
                      && r.value.items == WorkItems(chosen, WorkDays(chosen), rate)
  {
    if chosen == [] then Err(400, NoUnbilledEntries)
    else if Ordinal(today) + 30 > Ordinal(MaxDate) then Err(500, ServerError)
    else
      var due := AddDays(today, 30);
      NotAfterPyDate(due, MaxDate);
      Ok(Invoice(id, pid, number, today, Some(due), "draft",
                 OrElse(notes, "Invoice for time worked on " + title),
                 WorkItems(chosen, WorkDays(chosen), rate)))
  }

  /** What `create_invoice_from_time`, with `timedelta` imported, decides
      for a new invoice with id `bound`: the validations of the range, then the
      draft over the unbilled entries it selects, numbered as `create_invoice`
      numbers and priced at the project's rate, else the user's. */
  function FromTimeInvoice(projects: map<int, Project>, users: map<int, User>, entries: map<int, TimeEntry>,
                           invoices: map<int, Invoice>, bound: int, uid: nat, p: FromTimePayload, today: Date): (r: Result<Invoice>)
    requires forall k :: k in entries ==> 1 <= k < bound && entries[k].id == k && PyDate(entries[k].date)
    requires forall k :: k in invoices ==> 1 <= k < bound && invoices[k].id == k
    requires uid in users && PyDate(today)
    ensures var range := FromTimeRange(projects, uid, p);
            && (range.Err? ==> r.Err? && r.status == range.status && r.message == range.message)
            && (range.Ok? ==>
                  var chosen := Select(entries, bound, Unbilled(range.value), EntryId);
                  var pid := range.value.projectId;
                  SelectedDates(entries, chosen);
                  r == TimeDraft(bound, pid, NextNumber(invoices, bound, uid, today.year), chosen,
                                 BillingRate(projects[pid], users[uid]), p.notes, projects[pid].title, today))
  {
    var range := FromTimeRange(projects, uid, p);
    if range.Err? then Err(range.status, range.message)
    else
      var pid := range.value.projectId;
      var chosen := Select(entries, bound, Unbilled(range.value), EntryId);
      SelectedDates(entries, chosen);
      TimeDraft(bound, pid, NextNumber(invoices, bound, uid, today.year), chosen,
                BillingRate(projects[pid], users[uid]), p.notes, projects[pid].title, today)
  }

  /** Every entry of the range that is still unbilled becomes invoiced. */
  method MarkUnbilled(entries: map<int, TimeEntry>, bound: int, range: EntryRange) returns (marked: map<int, TimeEntry>)
    requires forall k :: k in entries ==> 1 <= k < bound && entries[k].id == k && PyDate(entries[k].date)
    ensures marked.Keys == entries.Keys
    ensures forall k :: k in entries ==>
              marked[k] == if Unbilled(range)(entries[k]) then entries[k].(invoiced := true) else entries[k]
  {
    var chosen := Select(entries, bound, Unbilled(range), EntryId);
    marked := MarkInvoiced(entries, chosen);
  }

  /** An invoice made from time takes the next id, belongs to the project
      of the range and carries valid dates. */
  lemma FromTimeInvoiceStorable(projects: map<int, Project>, users: map<int, User>, entries: map<int, TimeEntry>,
                                invoices: map<int, Invoice>, bound: int, uid: nat, p: FromTimePayload, today: Date)
    requires forall k :: k in entries ==> 1 <= k < bound && entries[k].id == k && PyDate(entries[k].date)
    requires forall k :: k in invoices ==> 1 <= k < bound && invoices[k].id == k
    requires uid in users && PyDate(today)
    requires FromTimeInvoice(projects, users, entries, invoices, bound, uid, p, today).Ok?
    ensures var inv := FromTimeInvoice(projects, users, entries, invoices, bound, uid, p, today).value;
            && FromTimeRange(projects, uid, p).Ok?
            && inv.id == bound && inv.projectId == FromTimeRange(projects, uid, p).value.projectId
            && inv.projectId in projects && PyDate(inv.issueDate)
            && inv.dueDate.Some? && PyDate(inv.dueDate.value)
  {
  }

  /** `POST /invoices/from-time`: stores the invoice `FromTimeInvoice`
      decides, and every entry it bills becomes invoiced. */
  method CreateInvoiceFromTime(db: Database, uid: nat, p: FromTimePayload, today: Date) returns (r: Result<Invoice>)
    requires db.Valid() && uid in db.users && PyDate(today)
    modifies db
    ensures db.Valid()
    ensures r == FromTimeInvoice(old(db.projects), old(db.users), old(db.entries), old(db.invoices), old(db.nextId), uid, p, today)
    ensures r.Err? ==> unchanged(db)
    ensures r.Ok? ==> r.value.id !in old(db.invoices) && db.invoices == old(db.invoices)[r.value.id := r.value]
    ensures r.Ok? ==> db.entries.Keys == old(db.entries).Keys
    ensures r.Ok? ==> var range := FromTimeRange(old(db.projects), uid, p).value;
                      forall k :: k in old(db.entries) ==>
                        db.entries[k] == if Unbilled(range)(old(db.entries)[k])
                                         then old(db.entries)[k].(invoiced := true) else old(db.entries)[k]
    ensures unchanged(db`users, db`clients, db`projects, db`documents)
  {
    r := FromTimeInvoice(db.projects, db.users, db.entries, db.invoices, db.nextId, uid, p, today);
    if r.Err? {
      return;
    }
    FromTimeInvoiceStorable(db.projects, db.users, db.entries, db.invoices, db.nextId, uid, p, today);
    StoreFromTime(db, r.value, FromTimeRange(db.projects, uid, p).value);
  }

  /** Stores the invoice made from time and marks the unbilled entries of
      its range invoiced. */
  method StoreFromTime(db: Database, inv: Invoice, range: EntryRange)
    requires db.Valid() && inv.id == db.nextId && inv.projectId in db.projects
    requires PyDate(inv.issueDate) && (inv.dueDate.Some? ==> PyDate(inv.dueDate.value))
    modifies db
    ensures db.Valid()
    ensures inv.id !in old(db.invoices) && db.invoices == old(db.invoices)[inv.id := inv]
    ensures db.entries.Keys == old(db.entries).Keys
    ensures forall k :: k in old(db.entries) ==>
              db.entries[k] == if Unbilled(range)(old(db.entries)[k])
                               then old(db.entries)[k].(invoiced := true) else old(db.entries)[k]
    ensures unchanged(db`users, db`clients, db`projects, db`documents)
  {
    var marked := MarkUnbilled(db.entries, db.nextId, range);
    var id := StoreInvoice(db, inv, marked);
  }

  /** An entry invoiced from time is never selected again. */
  lemma BilledTimeIsSpent(range: EntryRange, e: TimeEntry)
    ensures !Unbilled(range)(e.(invoiced := true))
  {
  }


}
