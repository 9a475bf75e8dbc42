/** The project row's defaults, computed totals and JSON form (models/project.py). */
module ProjectModel {
  import opened Common
  import opened Calendar
  import opened Grouping
  import opened Ledger

  /** Column defaults: status, the two stored totals and portfolio visibility. */
  const DefaultStatus := "pending"
  const DefaultTotalHours := 0.0
  const DefaultTotalBilled := 0.0
  const DefaultIsPublic := false

  function EntryHours(e: TimeEntry): real
  {
    e.hours
  }

  /** The project's time entries, in the order the relationship yields them. */
  function EntriesOf(entries: seq<TimeEntry>, pid: int): (r: seq<TimeEntry>)
    ensures forall e :: e in r <==> e in entries && e.projectId == pid
  {
    if entries == [] then []
    else
      var init := EntriesOf(entries[..|entries| - 1], pid);
      var e := entries[|entries| - 1];
      assert entries == entries[..|entries| - 1] + [e];
      if e.projectId == pid then init + [e] else init
  }

  /** `total_hours_method`: the hours of the project's entries, added up. */
  function TotalHoursMethod(entries: seq<TimeEntry>, pid: int): real
  {
    SumOf(EntriesOf(entries, pid), EntryHours)
  }

  /** Logging time on the project adds exactly its hours; time logged on
      another project changes nothing. */
  lemma TotalHoursAfterLogging(entries: seq<TimeEntry>, pid: int, e: TimeEntry)
    ensures e.projectId == pid ==> TotalHoursMethod(entries + [e], pid) == TotalHoursMethod(entries, pid) + e.hours
    ensures e.projectId != pid ==> TotalHoursMethod(entries + [e], pid) == TotalHoursMethod(entries, pid)
  {
    var all := entries + [e];
    assert all[..|all| - 1] == entries;
    var mine := EntriesOf(entries, pid);
    if e.projectId == pid {
      assert EntriesOf(all, pid) == mine + [e];
      assert (mine + [e])[..|mine|] == mine;
    }
  }

  lemma TotalHoursNoEntries(entries: seq<TimeEntry>, pid: int)
    requires forall e :: e in entries ==> e.projectId != pid
    ensures TotalHoursMethod(entries, pid) == 0.0
  {
    var r := EntriesOf(entries, pid);
    assert forall i :: 0 <= i < |r| ==> r[i] in r;
  }

  /** `total_billed_method`: a truthy fixed price wins; otherwise the stored
      `total_hours` column times the hourly rate (a missing rate counts as 0). */
  function TotalBilledMethod(p: Project): (r: real)
    ensures p.fixedPrice.Some? && p.fixedPrice.value != 0.0 ==> r == p.fixedPrice.value
    ensures p.fixedPrice.None? || p.fixedPrice.value == 0.0 ==>
              r == p.totalHours * OrElse(p.hourlyRate, 0.0)
  {
    if p.fixedPrice.Some? && p.fixedPrice.value != 0.0 then p.fixedPrice.value
    else p.totalHours * OrElse(p.hourlyRate, 0.0)
  }

  /** A fixed price of 0 does not make the project free: it bills exactly
      what the project would bill with no fixed price at all. */
  lemma ZeroFixedPriceFallsThrough(p: Project)
    ensures TotalBilledMethod(p.(fixedPrice := Some(0.0))) == TotalBilledMethod(p.(fixedPrice := None))
  {
  }

  /** A new project as `Project(...)` stores it when a value is not given. */
  function NewProject(id: int, userId: int, clientId: int, title: string): (p: Project)
    ensures p.status == "pending" && p.totalHours == 0.0 && p.totalBilled == 0.0 && !p.isPublic
    ensures p.startDate.None? && p.endDate.None? && p.hourlyRate.None? && p.fixedPrice.None?
    ensures TotalBilledMethod(p) == 0.0
  {
    Project(id, userId, clientId, title, "", DefaultStatus, None, None, None, None,
            DefaultTotalHours, DefaultTotalBilled, DefaultIsPublic)
  }

  datatype ProjectView = ProjectView(id: int, userId: int, clientId: int, title: string,
                                     description: string, status: string,
                                     startDate: Option<string>, endDate: Option<string>,
                                     hourlyRate: Option<real>, fixedPrice: Option<real>,
                                     totalHours: real, totalBilled: real, isPublic: bool)

  /** `d.isoformat() if d else None`. */
  function IsoOrNone(d: Option<Date>): (r: Option<string>)
    requires d.Some? ==> PyDate(d.value)
    ensures r.None? <==> d.None?
    ensures r.Some? ==> ParseIso(r.value) == d
  {
    match d
    case None => None
    case Some(x) => ParseIsoRoundTrip(x); Some(Iso(x))
  }

  /** `Project.to_dict()`: absent dates become None, present ones their ISO
      text, and every other column is reported as stored. */
  function ProjectToDict(p: Project): (v: ProjectView)
    requires p.startDate.Some? ==> PyDate(p.startDate.value)
    requires p.endDate.Some? ==> PyDate(p.endDate.value)
    ensures v.startDate.None? <==> p.startDate.None?
    ensures v.endDate.None? <==> p.endDate.None?
    ensures v.startDate.Some? ==> ParseIso(v.startDate.value) == p.startDate
    ensures v.endDate.Some? ==> ParseIso(v.endDate.value) == p.endDate
    ensures v.id == p.id && v.status == p.status && v.isPublic == p.isPublic
    ensures v.totalHours == p.totalHours && v.totalBilled == p.totalBilled
  {
    ProjectView(p.id, p.userId, p.clientId, p.title, p.description, p.status,
                IsoOrNone(p.startDate), IsoOrNone(p.endDate), p.hourlyRate, p.fixedPrice,
                p.totalHours, p.totalBilled, p.isPublic)
  }
}
