/** The time-entry routes (backend/routes/time_entries.py): hours logged
    against a project, frozen once they are invoiced, and the summary of a
    date range. */
module TimeEntryRoutes {
  import opened Common
  import opened Calendar
  import opened Grouping
  import opened Ledger
  import opened Sorting
  import opened ProjectModel

  const BadStartDate := "Invalid start date format. Use YYYY-MM-DD"
  const BadEndDate := "Invalid end date format. Use YYYY-MM-DD"
  const BadDate := "Invalid date format. Use YYYY-MM-DD"
  const ProjectRequired := "Project ID is required"
  const HoursRequired := "Hours are required"
  const DescriptionRequired := "Description is required"
  const InvalidProject := "Invalid project ID"
  const EntryFrozen := "Cannot modify hours, billable status, or project for an invoiced time entry"
  const InvoicedUndeletable := "Cannot delete an invoiced time entry"

  function EntryProject(e: TimeEntry): int
  {
    e.projectId
  }

  predicate IsBillable(e: TimeEntry)
  {
    e.billable
  }

  /** The user's entries (joined through their project), in id order. */
  function UserEntries(entries: map<int, TimeEntry>, projects: map<int, Project>, uid: int, bound: int): (r: seq<TimeEntry>)
    requires forall k :: k in entries ==> 1 <= k < bound && entries[k].id == k
    ensures forall e :: e in r ==> e.id in entries && entries[e.id] == e && OwnsProject(projects, uid, e.projectId)
    ensures forall k :: k in entries && OwnsProject(projects, uid, entries[k].projectId) ==> entries[k] in r
    ensures forall i, j :: 0 <= i < j < |r| ==> r[i].id < r[j].id
  {
    Select(entries, bound, (e: TimeEntry) => OwnsProject(projects, uid, e.projectId), EntryId)
  }

  // ------------------------------------------------------------------ list

  /** The query string of `GET /time-entries/`; `None` is an absent argument. */
  datatype EntryQuery = EntryQuery(projectId: Option<int>, startDate: Option<string>,
                                   endDate: Option<string>, billable: Option<string>,
                                   invoiced: Option<string>)

  /** The filters the query string switches on. */
  datatype EntryFilter = EntryFilter(projectId: Option<int>, from: Option<Date>, to: Option<Date>,
                                     billable: Option<bool>, invoiced: Option<bool>)

  /** Reads the list filters: a project id of 0 is no filter, an empty date
      is no filter, a malformed one is refused (the start date first), and a
      flag is true exactly when its text lower-cases to `true`. */
  function ParseEntryQuery(q: EntryQuery): (r: Result<EntryFilter>)
    ensures Present(q.startDate) && ParseIso(q.startDate.value).None? ==> r == Err(400, BadStartDate)
    ensures (!(Present(q.startDate) && ParseIso(q.startDate.value).None?)
             && Present(q.endDate) && ParseIso(q.endDate.value).None?) ==> r == Err(400, BadEndDate)
    ensures r.Ok? <==> (Present(q.startDate) ==> ParseIso(q.startDate.value).Some?)
                       && (Present(q.endDate) ==> ParseIso(q.endDate.value).Some?)
    ensures r.Ok? ==> (r.value.projectId.Some? <==> q.projectId.Some? && q.projectId.value != 0)
                      && (r.value.projectId.Some? ==> r.value.projectId == q.projectId)
    ensures r.Ok? ==> (r.value.from.Some? <==> Present(q.startDate))
                      && (r.value.from.Some? ==> ParseIso(q.startDate.value) == r.value.from)
    ensures r.Ok? ==> (r.value.to.Some? <==> Present(q.endDate))
                      && (r.value.to.Some? ==> ParseIso(q.endDate.value) == r.value.to)
    ensures r.Ok? && q.billable.Some? ==> r.value.billable == Some(Lower(q.billable.value) == "true")
    ensures r.Ok? && q.invoiced.Some? ==> r.value.invoiced == Some(Lower(q.invoiced.value) == "true")
    ensures r.Ok? ==> (r.value.billable.None? <==> q.billable.None?) && (r.value.invoiced.None? <==> q.invoiced.None?)
  {
    var from := if Present(q.startDate) then ParseIso(q.startDate.value) else None;
    var to := if Present(q.endDate) then ParseIso(q.endDate.value) else None;
    if Present(q.startDate) && from.None? then Err(400, BadStartDate)
    else if Present(q.endDate) && to.None? then Err(400, BadEndDate)
    else
      Ok(EntryFilter(
        if q.projectId.Some? && q.projectId.value != 0 then q.projectId else None,
        from, to,
        if q.billable.Some? then Some(Lower(q.billable.value) == "true") else None,
        if q.invoiced.Some? then Some(Lower(q.invoiced.value) == "true") else None))
  }

  /** Every active filter holds; date bounds are inclusive. */
  predicate EntryMatches(f: EntryFilter, e: TimeEntry)
  {
    (f.projectId.Some? ==> e.projectId == f.projectId.value)
    && (f.from.Some? ==> Valid(f.from.value) && Ordinal(f.from.value) <= DayNumber(e))
    && (f.to.Some? ==> Valid(f.to.value) && DayNumber(e) <= Ordinal(f.to.value))
    && (f.billable.Some? ==> e.billable == f.billable.value)
    && (f.invoiced.Some? ==> e.invoiced == f.invoiced.value)
  }

  /** Newest day first. */
  predicate NewestFirst(xs: seq<TimeEntry>)
  {
    Descending(xs, DayNumber)
  }

  /** `GET /time-entries/`: exactly the user's entries that pass the filters,
      newest first; a malformed date bound is a 400. */
  method ListEntries(db: Database, uid: int, q: EntryQuery) returns (r: Result<seq<TimeEntry>>)
    requires db.Valid()
    ensures r.Err? <==> ParseEntryQuery(q).Err?
    ensures r.Err? ==> r.status == 400 && r.message == ParseEntryQuery(q).message
    ensures r.Ok? ==> forall e :: e in r.value ==>
              e.id in db.entries && db.entries[e.id] == e && OwnsProject(db.projects, uid, e.projectId)
              && EntryMatches(ParseEntryQuery(q).value, e)
    ensures r.Ok? ==> forall k :: (k in db.entries && OwnsProject(db.projects, uid, db.entries[k].projectId)
              && EntryMatches(ParseEntryQuery(q).value, db.entries[k])) ==> db.entries[k] in r.value
    ensures r.Ok? ==> NewestFirst(r.value)
    ensures r.Ok? ==> forall i, j :: 0 <= i < j < |r.value| ==> r.value[i].id != r.value[j].id
  {
    var parsed := ParseEntryQuery(q);
    if parsed.Err? {
      return Err(parsed.status, parsed.message);
    }
    var f := parsed.value;
    var projects := db.projects;
    var chosen := Select(db.entries, db.nextId,
                         (e: TimeEntry) => OwnsProject(projects, uid, e.projectId) && EntryMatches(f, e), EntryId);
    var sorted := SortDesc(chosen, DayNumber);
    SortDescMembers(chosen, DayNumber);
    DistinctIdsPermuted(chosen, sorted, EntryId);
    r := Ok(sorted);
  }

  // ---------------------------------------------------------------- create

  /** A request body for creating or updating an entry; `None` is an absent key. */
  datatype EntryPayload = EntryPayload(projectId: Option<int>, hours: Option<real>,
                                       description: Option<string>, date: Option<string>,
                                       billable: Option<bool>, invoiced: Option<bool>)

  /** `data.get(key)` is truthy. */
  predicate GivenId(o: Option<int>)
  {
    o.Some? && o.value != 0
  }

  predicate GivenHours(o: Option<real>)
  {
    o.Some? && o.value != 0.0
  }

  /** What `create_time_entry` decides, for a new row with id `id`: the
      required fields in order (project, hours, description; 0 hours counts as
      missing), then the project's owner, then the date, which defaults to
      today. A new entry is never invoiced and is billable unless told otherwise. */
  function NewEntry(projects: map<int, Project>, uid: int, p: EntryPayload, today: Date, id: int): (r: Result<TimeEntry>)
    requires PyDate(today)
    ensures !GivenId(p.projectId) ==> r == Err(400, ProjectRequired)
    ensures GivenId(p.projectId) && !GivenHours(p.hours) ==> r == Err(400, HoursRequired)
    ensures GivenId(p.projectId) && GivenHours(p.hours) && !Present(p.description) ==>
              r == Err(400, DescriptionRequired)
    ensures (GivenId(p.projectId) && GivenHours(p.hours) && Present(p.description)
             && !OwnsProject(projects, uid, p.projectId.value)) ==> r == Err(400, InvalidProject)
    ensures (GivenId(p.projectId) && GivenHours(p.hours) && Present(p.description)
             && OwnsProject(projects, uid, p.projectId.value)
             && Present(p.date) && ParseIso(p.date.value).None?) ==> r == Err(400, BadDate)
    ensures r.Ok? <==> GivenId(p.projectId) && GivenHours(p.hours) && Present(p.description)
                       && OwnsProject(projects, uid, p.projectId.value)
                       && (Present(p.date) ==> ParseIso(p.date.value).Some?)
    ensures r.Ok? ==> r.value.id == id && r.value.projectId == p.projectId.value
                      && r.value.description == p.description.value && r.value.hours == p.hours.value
                      && r.value.billable == OrElse(p.billable, true) && !r.value.invoiced
                      && PyDate(r.value.date)
                      && r.value.date == (if Present(p.date) then ParseIso(p.date.value).value else today)
  {
    if !GivenId(p.projectId) then Err(400, ProjectRequired)
    else if !GivenHours(p.hours) then Err(400, HoursRequired)
    else if !Present(p.description) then Err(400, DescriptionRequired)
    else if !OwnsProject(projects, uid, p.projectId.value) then Err(400, InvalidProject)
    else if Present(p.date) && ParseIso(p.date.value).None? then Err(400, BadDate)
    else
      var date := if Present(p.date) then ParseIso(p.date.value).value else today;
      Ok(TimeEntry(id, p.projectId.value, p.description.value, date, p.hours.value,
                   OrElse(p.billable, true), false))
  }

  /** `POST /time-entries/`. */
  method CreateEntry(db: Database, uid: int, p: EntryPayload, today: Date) returns (r: Result<TimeEntry>)
    requires db.Valid() && PyDate(today)
    modifies db
    ensures db.Valid()
    ensures r == NewEntry(old(db.projects), uid, p, today, old(db.nextId))
    ensures r.Err? ==> unchanged(db)
    ensures r.Ok? ==> r.value.id !in old(db.entries) && db.entries == old(db.entries)[r.value.id := r.value]
    ensures unchanged(db`users, db`clients, db`projects, db`invoices, db`documents)
  {
    r := NewEntry(db.projects, uid, p, today, db.nextId);
    if r.Ok? {
      var id := db.FreshId();
      db.entries := db.entries[id := r.value];
    }
  }

  // ---------------------------------------------------------------- update

  /** The body would touch a frozen field: an absent key reads as None,
      which never equals the stored value. */
  predicate TouchesFrozen(e: TimeEntry, p: EntryPayload)
  {
    p.hours != Some(e.hours) || p.billable != Some(e.billable) || p.projectId != Some(e.projectId)
  }

  /** What `update_time_entry` does to an entry the user owns: an invoiced
      entry refuses any body that does not repeat its hours, billable flag and
      project; a new project must be the user's; a given date must parse; then
      every key present in the body replaces its column. */
  function PatchEntry(projects: map<int, Project>, uid: int, e: TimeEntry, p: EntryPayload): (r: Result<TimeEntry>)
    ensures e.invoiced && TouchesFrozen(e, p) ==> r == Err(400, EntryFrozen)
    ensures (!(e.invoiced && TouchesFrozen(e, p)) && p.projectId.Some?
             && !OwnsProject(projects, uid, p.projectId.value)) ==> r == Err(400, InvalidProject)
    ensures (!(e.invoiced && TouchesFrozen(e, p))
             && (p.projectId.Some? ==> OwnsProject(projects, uid, p.projectId.value))
             && p.date.Some? && ParseIso(p.date.value).None?) ==> r == Err(400, BadDate)
    ensures r.Ok? <==> !(e.invoiced && TouchesFrozen(e, p))
                       && (p.projectId.Some? ==> OwnsProject(projects, uid, p.projectId.value))
                       && (p.date.Some? ==> ParseIso(p.date.value).Some?)
    ensures r.Ok? ==> r.value.id == e.id
                      && r.value.projectId == OrElse(p.projectId, e.projectId)
                      && r.value.date == (if p.date.Some? then ParseIso(p.date.value).value else e.date)
                      && r.value.description == OrElse(p.description, e.description)
                      && r.value.hours == OrElse(p.hours, e.hours)
                      && r.value.billable == OrElse(p.billable, e.billable)
                      && r.value.invoiced == OrElse(p.invoiced, e.invoiced)
  {
    if e.invoiced && TouchesFrozen(e, p) then Err(400, EntryFrozen)
    else if p.projectId.Some? && !OwnsProject(projects, uid, p.projectId.value) then Err(400, InvalidProject)
    else if p.date.Some? && ParseIso(p.date.value).None? then Err(400, BadDate)
    else
      Ok(e.(projectId := OrElse(p.projectId, e.projectId),
            date := if p.date.Some? then ParseIso(p.date.value).value else e.date,
            description := OrElse(p.description, e.description),
            hours := OrElse(p.hours, e.hours),
            billable := OrElse(p.billable, e.billable),
            invoiced := OrElse(p.invoiced, e.invoiced)))
  }

  /** An invoiced entry keeps its hours, billable flag and project through
      any update that succeeds. */
  lemma InvoicedEntryFrozen(projects: map<int, Project>, uid: int, e: TimeEntry, p: EntryPayload)
    requires e.invoiced && PatchEntry(projects, uid, e, p).Ok?
    ensures PatchEntry(projects, uid, e, p).value.hours == e.hours
    ensures PatchEntry(projects, uid, e, p).value.billable == e.billable
    ensures PatchEntry(projects, uid, e, p).value.projectId == e.projectId
  {
  }

  /** An un-invoiced entry with a body of no keys is left as it is. */
  lemma EmptyPatchKeepsEntry(projects: map<int, Project>, uid: int, e: TimeEntry)
    requires !e.invoiced
    ensures PatchEntry(projects, uid, e, EntryPayload(None, None, None, None, None, None)) == Ok(e)
  {
  }

  /** `PUT /time-entries/<id>`. */
  method UpdateEntry(db: Database, uid: int, eid: int, p: EntryPayload) returns (r: Result<TimeEntry>)
    requires db.Valid()
    modifies db
    ensures db.Valid()
    ensures !OwnsEntry(old(db.entries), old(db.projects), uid, eid) ==> r == Err(404, NotFound)
    ensures OwnsEntry(old(db.entries), old(db.projects), uid, eid) ==>
              r == PatchEntry(old(db.projects), uid, old(db.entries)[eid], p)
    ensures r.Err? ==> unchanged(db)
    ensures r.Ok? ==> db.entries == old(db.entries)[eid := r.value]
    ensures unchanged(db`users, db`clients, db`projects, db`invoices, db`documents, db`nextId)
  {
    if !OwnsEntry(db.entries, db.projects, uid, eid) {
      return Err(404, NotFound);
    }
    r := PatchEntry(db.projects, uid, db.entries[eid], p);
    if r.Ok? {
      db.entries := db.entries[eid := r.value];
    }
  }

  // ---------------------------------------------------------------- delete

  /** `DELETE /time-entries/<id>`: an invoiced entry cannot be deleted. */
  method DeleteEntry(db: Database, uid: int, eid: int) returns (r: Result<()>)
    requires db.Valid()
    modifies db
    ensures db.Valid()
    ensures !OwnsEntry(old(db.entries), old(db.projects), uid, eid) ==> r == Err(404, NotFound)
    ensures OwnsEntry(old(db.entries), old(db.projects), uid, eid) && old(db.entries)[eid].invoiced ==>
              r == Err(400, InvoicedUndeletable)
    ensures r.Ok? <==> OwnsEntry(old(db.entries), old(db.projects), uid, eid) && !old(db.entries)[eid].invoiced
    ensures r.Err? ==> unchanged(db)
    ensures r.Ok? ==> db.entries == old(db.entries) - {eid}
    ensures unchanged(db`users, db`clients, db`projects, db`invoices, db`documents, db`nextId)
  {
    if !OwnsEntry(db.entries, db.projects, uid, eid) {
      return Err(404, NotFound);
    }
    if db.entries[eid].invoiced {
      return Err(400, InvoicedUndeletable);
    }
    db.entries := db.entries - {eid};
    r := Ok(());
  }

  // --------------------------------------------------------------- summary

  datatype ProjectHours = ProjectHours(projectId: int, title: string, hours: real)

  datatype DayHours = DayHours(date: Date, hours: real)

  datatype Summary = Summary(totalHours: real, billableHours: real, billablePercentage: real,
                             byProject: seq<ProjectHours>, byDay: seq<DayHours>)

  /** The summary's range: each bound defaults (first of this month, today)
      when absent or empty, and a malformed one is refused, the start first. */
  function SummaryRange(startText: Option<string>, endText: Option<string>, today: Date): (r: Result<(Date, Date)>)
    requires PyDate(today)
    ensures Present(startText) && ParseIso(startText.value).None? ==> r == Err(400, BadStartDate)
    ensures (!(Present(startText) && ParseIso(startText.value).None?)
             && Present(endText) && ParseIso(endText.value).None?) ==> r == Err(400, BadEndDate)
    ensures r.Ok? <==> (Present(startText) ==> ParseIso(startText.value).Some?)
                       && (Present(endText) ==> ParseIso(endText.value).Some?)
    ensures r.Ok? ==> PyDate(r.value.0) && PyDate(r.value.1)
    ensures r.Ok? && !Present(startText) ==> r.value.0 == FirstOfMonth(today)
    ensures r.Ok? && Present(startText) ==> Some(r.value.0) == ParseIso(startText.value)
    ensures r.Ok? && !Present(endText) ==> r.value.1 == today
    ensures r.Ok? && Present(endText) ==> Some(r.value.1) == ParseIso(endText.value)
  {
    if Present(startText) && ParseIso(startText.value).None? then Err(400, BadStartDate)
    else if Present(endText) && ParseIso(endText.value).None? then Err(400, BadEndDate)
    else
      var s := if Present(startText) then ParseIso(startText.value).value else FirstOfMonth(today);
      var e := if Present(endText) then ParseIso(endText.value).value else today;
      Ok((s, e))
  }

  predicate InRange(e: TimeEntry, lo: int, hi: int)
  {
    lo <= DayNumber(e) <= hi
  }

  /** The test `start <= TimeEntry.date <= end`, on day numbers. */
  function InRangeTest(lo: int, hi: int): TimeEntry -> bool
  {
    (e: TimeEntry) => InRange(e, lo, hi)
  }

  /** `billable_hours / total_hours * 100`, or 0 when nothing was logged. */
  function Percentage(part: real, whole: real): real
  {
    if whole > 0.0 then part / whole * 100.0 else 0.0
  }

  lemma PercentageBounds(part: real, whole: real)
    requires 0.0 <= part <= whole
    ensures 0.0 <= Percentage(part, whole) <= 100.0
    ensures whole == 0.0 ==> Percentage(part, whole) == 0.0
  {
    if whole > 0.0 {
      assert part / whole <= 1.0;
    }
  }

  /** The `hours_by_project` rows for the given project ids. */
  function ProjectRows(xs: seq<TimeEntry>, keys: seq<int>, projects: map<int, Project>): (r: seq<ProjectHours>)
    requires forall i :: 0 <= i < |keys| ==> keys[i] in projects
    ensures |r| == |keys|
    ensures forall i :: 0 <= i < |keys| ==>
              r[i] == ProjectHours(keys[i], projects[keys[i]].title, SumOf(GroupOf(xs, EntryProject, keys[i]), EntryHours))
  {
    if keys == [] then []
    else
      var k := keys[|keys| - 1];
      ProjectRows(xs, keys[..|keys| - 1], projects)
        + [ProjectHours(k, projects[k].title, SumOf(GroupOf(xs, EntryProject, k), EntryHours))]
  }

  function ProjectRowHours(p: ProjectHours): real
  {
    p.hours
  }

  lemma {:induction false} ProjectRowsSum(xs: seq<TimeEntry>, keys: seq<int>, projects: map<int, Project>)
    requires forall i :: 0 <= i < |keys| ==> keys[i] in projects
    ensures SumOf(ProjectRows(xs, keys, projects), ProjectRowHours) == SumGroups(keys, xs, EntryProject, EntryHours)
    decreases |keys|
  {
    if keys != [] {
      var init := keys[..|keys| - 1];
      ProjectRowsSum(xs, init, projects);
      var rows := ProjectRows(xs, keys, projects);
      assert rows[..|rows| - 1] == ProjectRows(xs, init, projects);
    }
  }

  /** Per project, the hours in the range: one row for each project with
      time in the range, in order of its first entry; they add up to the
      range's total. */
  lemma ByProjectAddsUp(xs: seq<TimeEntry>, projects: map<int, Project>)
    requires forall e :: e in xs ==> e.projectId in projects
    ensures forall i :: 0 <= i < |DistinctKeys(xs, EntryProject)| ==> DistinctKeys(xs, EntryProject)[i] in projects
    ensures SumOf(ProjectRows(xs, DistinctKeys(xs, EntryProject), projects), ProjectRowHours) == SumOf(xs, EntryHours)
  {
    var keys := DistinctKeys(xs, EntryProject);
    forall j | 0 <= j < |keys| ensures keys[j] in projects {
      assert keys[j] in keys;
      var i :| 0 <= i < |xs| && EntryProject(xs[i]) == keys[j];
      assert xs[i] in xs;
    }
    ProjectRowsSum(xs, keys, projects);
    SumGroupsTotal(xs, EntryProject, EntryHours);
  }

  /** The `hours_by_project` rows over `xs`: one per project with time in
      `xs`, in order of its first entry. */
  function ProjectBreakdown(xs: seq<TimeEntry>, projects: map<int, Project>): seq<ProjectHours>
    requires forall e :: e in xs ==> e.projectId in projects
  {
    ByProjectAddsUp(xs, projects);
    ProjectRows(xs, DistinctKeys(xs, EntryProject), projects)
  }

  /** The hours logged on one day. */
  function DayTotal(xs: seq<TimeEntry>, d: Date): real
  {
    SumOf(GroupOf(xs, EntryDate, d), EntryHours)
  }

  function DayRows(xs: seq<TimeEntry>, days: seq<Date>): (r: seq<DayHours>)
    ensures |r| == |days|
    ensures forall i :: 0 <= i < |days| ==> r[i] == DayHours(days[i], DayTotal(xs, days[i]))
  {
    if days == [] then []
    else DayRows(xs, days[..|days| - 1]) + [DayHours(days[|days| - 1], DayTotal(xs, days[|days| - 1]))]
  }

  function DayRowHours(d: DayHours): real
  {
    d.hours
  }

  lemma {:induction false} DayRowsSum(xs: seq<TimeEntry>, days: seq<Date>)
    ensures SumOf(DayRows(xs, days), DayRowHours) == SumGroups(days, xs, EntryDate, EntryHours)
    decreases |days|
  {
    if days != [] {
      var init := days[..|days| - 1];
      DayRowsSum(xs, init);
      var rows := DayRows(xs, days);
      assert rows[..|rows| - 1] == DayRows(xs, init);
    }
  }

  /** The days of the range, each with its hours, add up to the range's
      total: every entry in the range is counted on exactly one day. */
  lemma ByDayAddsUp(xs: seq<TimeEntry>, start: Date, end: Date)
    requires Valid(start) && Valid(end)
    requires forall e :: e in xs ==> Valid(e.date)
    ensures SumOf(DayRows(xs, DaysFrom(start, end)), DayRowHours)
            == SumOf(Where(xs, InRangeTest(Ordinal(start), Ordinal(end))), EntryHours)
  {
    var days := DaysFrom(start, end);
    DayRowsSum(xs, days);
    DaysFromDistinct(start, end);
    forall e | e in xs
      ensures InRangeTest(Ordinal(start), Ordinal(end))(e) <==> EntryDate(e) in days
    {
      DaysFromMembers(start, end, e.date);
    }
    SumGroupsCovered(days, xs, EntryDate, EntryHours, InRangeTest(Ordinal(start), Ordinal(end)));
  }

  /** The walk's `n`-th day is the current one, its row extends the rows so
      far, and the last day of the walk is `end`. */
  lemma WalkStep(xs: seq<TimeEntry>, start: Date, end: Date, cur: Date, n: int)
    requires Valid(start) && Valid(end) && Valid(cur)
    requires 0 <= n && Ordinal(cur) == Ordinal(start) + n && Ordinal(cur) <= Ordinal(end)
    ensures n < |DaysFrom(start, end)|
    ensures DayRows(xs, DaysFrom(start, end)[..n + 1])
            == DayRows(xs, DaysFrom(start, end)[..n]) + [DayHours(cur, DayTotal(xs, cur))]
    ensures n + 1 == |DaysFrom(start, end)| ==> cur == end
  {
    var all := DaysFrom(start, end);
    DaysFromAt(start, end, n);
    OrdinalInjective(all[n], cur);
    assert all[..n + 1][..n] == all[..n];
    if n + 1 == |all| {
      OrdinalInjective(cur, end);
    }
  }

  /** Once the walk has passed `end` it has visited every day of the range. */
  lemma WalkDone(start: Date, end: Date, cur: Date, n: int)
    requires Valid(start) && Valid(end) && Valid(cur)
    requires 0 <= n <= |DaysFrom(start, end)| && Ordinal(cur) == Ordinal(start) + n
    requires Ordinal(cur) > Ordinal(end)
    ensures n == |DaysFrom(start, end)|
  {
  }

  /** The `hours_by_day` walk: one row per day from `start` through `end`.
      Stepping past `date.max` raises, so a range ending on 9999-12-31 is a
      server error. */
  method HoursByDay(xs: seq<TimeEntry>, start: Date, end: Date) returns (r: Result<seq<DayHours>>)
    requires PyDate(start) && PyDate(end)
    ensures Ordinal(start) <= Ordinal(end) && end == MaxDate ==> r == Err(500, ServerError)
    ensures !(Ordinal(start) <= Ordinal(end) && end == MaxDate) ==> r == Ok(DayRows(xs, DaysFrom(start, end)))
  {
    ghost var all := DaysFrom(start, end);
    var days: seq<DayHours> := [];
    var cur := start;
    while Ordinal(cur) <= Ordinal(end)
      invariant Valid(cur) && |days| <= |all|
      invariant Ordinal(cur) == Ordinal(start) + |days|
      invariant days == DayRows(xs, all[..|days|])
      invariant end == MaxDate ==> |days| < |all| || |all| == 0
      decreases |all| - |days|
    {
      WalkStep(xs, start, end, cur, |days|);
      days := days + [DayHours(cur, DayTotal(xs, cur))];
      if cur == MaxDate {
        MaxDateIsLast(end);
        return Err(500, ServerError);
      }
      NextDayOrdinal(cur);
      cur := NextDay(cur);
    }
    WalkDone(start, end, cur, |days|);
    assert all[..|days|] == all;
    r := Ok(days);
  }

  /** The summary over the user's entries from `s` through `e`: the totals,
      the billable share, the hours per project and per day; both breakdowns
      add up to the total. */
  method SummaryBetween(db: Database, uid: int, s: Date, e: Date) returns (r: Result<Summary>)
    requires db.Valid() && PyDate(s) && PyDate(e)
    ensures var mine := UserEntries(db.entries, db.projects, uid, db.nextId);
            var inRange := Where(mine, InRangeTest(Ordinal(s), Ordinal(e)));
            (r.Ok? <==> !(Ordinal(s) <= Ordinal(e) && e == MaxDate))
            && (r.Err? ==> r == Err(500, ServerError))
            && (r.Ok? ==>
                  r.value.totalHours == SumOf(inRange, EntryHours)
                  && r.value.billableHours == SumOf(Where(inRange, IsBillable), EntryHours)
                  && r.value.billablePercentage == Percentage(r.value.billableHours, r.value.totalHours)
                  && r.value.byProject == ProjectBreakdown(inRange, db.projects)
                  && r.value.byDay == DayRows(mine, DaysFrom(s, e))
                  && SumOf(r.value.byProject, ProjectRowHours) == r.value.totalHours
                  && SumOf(r.value.byDay, DayRowHours) == r.value.totalHours)
  {
    var mine := UserEntries(db.entries, db.projects, uid, db.nextId);
    var inRange := Where(mine, InRangeTest(Ordinal(s), Ordinal(e)));
    var total := SumOf(inRange, EntryHours);
    var billable := SumOf(Where(inRange, IsBillable), EntryHours);
    assert forall x :: x in inRange ==> x.projectId in db.projects;
    ByProjectAddsUp(inRange, db.projects);
    var byProject := ProjectBreakdown(inRange, db.projects);
    assert forall x :: x in mine ==> Valid(x.date);
    ByDayAddsUp(mine, s, e);
    var byDay := HoursByDay(mine, s, e);
    if byDay.Err? {
      return Err(byDay.status, byDay.message);
    }
    r := Ok(Summary(total, billable, Percentage(billable, total), byProject, byDay.value));
  }

  /** `GET /time-entries/summary`: a malformed date in the query is a 400;
      otherwise the summary over the requested range (by default the current
      month up to today). */
  method TimeSummary(db: Database, uid: int, startText: Option<string>, endText: Option<string>, today: Date)
    returns (r: Result<Summary>)
    requires db.Valid() && PyDate(today)
    ensures SummaryRange(startText, endText, today).Err? ==>
              r.Err? && r.status == 400 && r.message == SummaryRange(startText, endText, today).message
    ensures SummaryRange(startText, endText, today).Ok? ==>
              var (s, e) := SummaryRange(startText, endText, today).value;
              var mine := UserEntries(db.entries, db.projects, uid, db.nextId);
              var inRange := Where(mine, InRangeTest(Ordinal(s), Ordinal(e)));
              (r.Ok? <==> !(Ordinal(s) <= Ordinal(e) && e == MaxDate))
              && (r.Err? ==> r == Err(500, ServerError))
              && (r.Ok? ==>
                    r.value.totalHours == SumOf(inRange, EntryHours)
                    && r.value.billableHours == SumOf(Where(inRange, IsBillable), EntryHours)
                    && r.value.billablePercentage == Percentage(r.value.billableHours, r.value.totalHours)
                    && r.value.byProject == ProjectBreakdown(inRange, db.projects)
                    && r.value.byDay == DayRows(mine, DaysFrom(s, e))
                    && SumOf(r.value.byProject, ProjectRowHours) == r.value.totalHours
                    && SumOf(r.value.byDay, DayRowHours) == r.value.totalHours)
  {
    var range := SummaryRange(startText, endText, today);
    if range.Err? {
      return Err(range.status, range.message);
    }
    var (s, e) := range.value;
    r := SummaryBetween(db, uid, s, e);
  }

  /** With no negative hours logged, the billable share is a percentage. */
  lemma BillableShareBounded(inRange: seq<TimeEntry>)
    requires forall x :: x in inRange ==> x.hours >= 0.0
    ensures 0.0 <= Percentage(SumOf(Where(inRange, IsBillable), EntryHours), SumOf(inRange, EntryHours)) <= 100.0
  {
    WhereSumBound(inRange, IsBillable, EntryHours);
    PercentageBounds(SumOf(Where(inRange, IsBillable), EntryHours), SumOf(inRange, EntryHours));
  }
}
