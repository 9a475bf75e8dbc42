/** The time tracking page (frontend/src/pages/TimeTracking.jsx): the filter
    query, the week the filters start on, the entries grouped by day and
    each day's total, the form's limits, and the list state that loads,
    saves and deletes. */
module TimeTrackingPage {
  import opened Common
  import opened Calendar
  import opened Grouping
  import opened Listings

  const LoadFailed := "Failed to load time entries"
  const SaveFailed := "Failed to save time entry"
  const DeleteFailed := "Failed to delete time entry"

  /** A time entry as the page receives it. */
  datatype TimeRow = TimeRow(id: int, projectId: int, description: string, date: string, hours: real,
                             billable: bool, invoiced: bool)

  // ------------------------------------------------------------ filters

  /** The four filter inputs; `billable` is the select's text: '', 'true'
      or 'false'. */
  datatype TimeFilters = TimeFilters(projectId: string, startDate: string, endDate: string, billable: string)

  function FilterCandidates(f: TimeFilters): seq<Param>
  {
    [Param("project_id", f.projectId), Param("start_date", f.startDate), Param("end_date", f.endDate),
     Param("billable", f.billable)]
  }

  /** Lines 51-55 (and again at 116-120 and 159-163): `project_id`,
      `start_date`, `end_date` and `billable`, in that order, each only when
      it is not the empty text. */
  function EntriesQuery(f: TimeFilters): (r: seq<Param>)
    ensures Param("project_id", f.projectId) in r <==> f.projectId != ""
    ensures Param("start_date", f.startDate) in r <==> f.startDate != ""
    ensures Param("end_date", f.endDate) in r <==> f.endDate != ""
    ensures Param("billable", f.billable) in r <==> f.billable != ""
    ensures forall p :: p in r ==> p.key in {"project_id", "start_date", "end_date", "billable"}
    ensures SubsequenceOf(r, FilterCandidates(f))
  {
    QueryOf(FilterCandidates(f))
  }

  /** Choosing "non-billable" sends `billable=false`: only the empty text is
      skipped. */
  lemma NonBillableIsSent(f: TimeFilters)
    requires f.billable == "false"
    ensures Param("billable", "false") in EntriesQuery(f)
  {
  }

  /** Lines 78-80: the entries are asked for only with both bounds set. */
  predicate ShouldFetch(f: TimeFilters)
  {
    f.startDate != "" && f.endDate != ""
  }

  /** A day whose whole week Python's and the page's dates can hold. */
  predicate WeekInRange(today: Date)
  {
    Valid(today) && PyDate(StartOfWeek(today)) && PyDate(EndOfWeek(today))
  }

  /** Lines 38-43 and 177-184: the current week, Monday through Sunday,
      no project and either billability. */
  function WeekFilters(today: Date): (r: TimeFilters)
    requires WeekInRange(today)
    ensures r.projectId == "" && r.billable == ""
    ensures ParseIso(r.startDate) == Some(StartOfWeek(today)) && ParseIso(r.endDate) == Some(EndOfWeek(today))
  {
    ParseIsoRoundTrip(StartOfWeek(today));
    ParseIsoRoundTrip(EndOfWeek(today));
    TimeFilters("", Iso(StartOfWeek(today)), Iso(EndOfWeek(today)), "")
  }

  // ------------------------------------------------------------ the days

  /** Lines 197-202: no days when a bound is missing, otherwise every day
      from the first bound through the second. `None` is an interval the
      date library refuses: a bound that is not a date, or a start after
      the end. */
  function DatesInRange(f: TimeFilters): (r: Option<seq<Date>>)
    ensures !ShouldFetch(f) ==> r == Some([])
    ensures ShouldFetch(f) ==> (r.Some? <==> ParseIso(f.startDate).Some? && ParseIso(f.endDate).Some?
                                              && NotAfter(ParseIso(f.startDate).value, ParseIso(f.endDate).value))
    ensures ShouldFetch(f) && r.Some? ==> r.value == DaysFrom(ParseIso(f.startDate).value, ParseIso(f.endDate).value)
  {
    if !ShouldFetch(f) then Some([])
    else match (ParseIso(f.startDate), ParseIso(f.endDate))
      case (Some(s), Some(e)) => if NotAfter(s, e) then Some(DaysFrom(s, e)) else None
      case _ => None
  }

  /** The filters a reset or the first visit sets give seven days, Monday
      first, the day of the visit among them, and they are fetched. */
  lemma WeekRange(today: Date)
    requires PyDate(today) && WeekInRange(today)
    ensures ShouldFetch(WeekFilters(today))
    ensures var days := DatesInRange(WeekFilters(today));
            && days.Some? && |days.value| == 7 && Weekday(days.value[0]) == 0 && today in days.value
  {
    var f := WeekFilters(today);
    var s, e := StartOfWeek(today), EndOfWeek(today);
    assert |f.startDate| == 10 && |f.endDate| == 10;
    assert Weekday(s) == 0 && Weekday(e) == 6;
    assert Ordinal(e) == Ordinal(s) + 6 by {
      assert Ordinal(s) <= Ordinal(today) < Ordinal(s) + 7;
      assert Ordinal(e) - 7 < Ordinal(today) <= Ordinal(e);
    }
    var days := DaysFrom(s, e);
    DaysFromAt(s, e, 0);
    OrdinalInjective(days[0], s);
    DaysFromMembers(s, e, today);
  }

  function RowDate(e: TimeRow): string
  {
    e.date
  }

  function RowHours(e: TimeRow): real
  {
    e.hours
  }

  /** The dates the entries carry. */
  function DatesOf(es: seq<TimeRow>): set<string>
  {
    set i | 0 <= i < |es| :: es[i].date
  }

  /** `entriesByDate` (lines 187-195): for each date an entry carries, the
      entries of that date in list order. */
  function ByDate(es: seq<TimeRow>): map<string, seq<TimeRow>>
  {
    map d | d in DatesOf(es) :: GroupOf(es, RowDate, d)
  }

  /** Every entry is in exactly one group, its own date's, and as often as
      in the list. */
  lemma ByDatePartitions(es: seq<TimeRow>, x: TimeRow)
    ensures forall d :: d in ByDate(es) ==>
              multiset(ByDate(es)[d])[x] == if x.date == d then multiset(es)[x] else 0
    ensures x in es ==> x.date in ByDate(es)
  {
    forall d | d in ByDate(es)
      ensures multiset(ByDate(es)[d])[x] == if x.date == d then multiset(es)[x] else 0
    {
      GroupCount(es, RowDate, d, x);
    }
    if x in es {
      var i :| 0 <= i < |es| && es[i] == x;
      assert es[i].date in DatesOf(es);
    }
  }

  /** Each group keeps the list order. */
  lemma ByDateKeepsOrder(es: seq<TimeRow>, d: string)
    requires d in ByDate(es)
    ensures SubsequenceOf(ByDate(es)[d], es)
  {
    GroupOfSubsequence(es, RowDate, d);
  }

  /** One more entry joins its date's group, at its end. */
  lemma ByDateSnoc(es: seq<TimeRow>, e: TimeRow)
    ensures ByDate(es + [e])
            == ByDate(es)[e.date := (if e.date in ByDate(es) then ByDate(es)[e.date] else []) + [e]]
  {
    var xs := es + [e];
    assert xs[..|xs| - 1] == es;
    assert DatesOf(xs) == DatesOf(es) + {e.date} by {
      forall d | d in DatesOf(xs) ensures d in DatesOf(es) + {e.date} {
        var i :| 0 <= i < |xs| && xs[i].date == d;
        if i < |es| { assert es[i].date == d; }
      }
      forall d | d in DatesOf(es) ensures d in DatesOf(xs) {
        var i :| 0 <= i < |es| && es[i].date == d;
        assert xs[i].date == d;
      }
      assert xs[|es|].date == e.date;
    }
    if e.date !in DatesOf(es) {
      NoDateNoGroup(es, e.date);
    }
  }

  /** A date no entry carries has no entries. */
  lemma NoDateNoGroup(es: seq<TimeRow>, d: string)
    requires d !in DatesOf(es)
    ensures GroupOf(es, RowDate, d) == []
  {
    GroupOfAbsent(es, RowDate, d);
  }

  /** Lines 187-195: the `reduce` that files each entry under its date. */
  method GroupByDate(es: seq<TimeRow>) returns (groups: map<string, seq<TimeRow>>)
    ensures groups == ByDate(es)
  {
    groups := map[];
    assert ByDate(es[..0]) == map[];
    for i := 0 to |es|
      invariant groups == ByDate(es[..i])
    {
      var e := es[i];
      var group := if e.date in groups then groups[e.date] else [];
      groups := groups[e.date := group + [e]];
      assert es[..i + 1] == es[..i] + [e];
      ByDateSnoc(es[..i], e);
    }
    assert es[..|es|] == es;
  }

  /** What the page shows for one day (lines 383-384). */
  datatype DaySection = DaySection(day: Date, entries: seq<TimeRow>, total: real)

  /** The day's entries, `entriesByDate[key] || []`, and their hours added
      up. */
  function Section(day: Date, groups: map<string, seq<TimeRow>>): (r: DaySection)
    requires PyDate(day)
    ensures r.day == day
  {
    var entries := if Iso(day) in groups then groups[Iso(day)] else [];
    DaySection(day, entries, SumOf(entries, RowHours))
  }

  /** Line 381: the days of the range, latest first, each with its section. */
  function Sections(days: seq<Date>, groups: map<string, seq<TimeRow>>): seq<DaySection>
    requires forall i :: 0 <= i < |days| ==> PyDate(days[i])
  {
    seq(|days|, i requires 0 <= i < |days| => Section(days[|days| - 1 - i], groups))
  }

  /** There is one section per day, latest first. */
  lemma SectionsLatestFirst(days: seq<Date>, groups: map<string, seq<TimeRow>>)
    requires forall i :: 0 <= i < |days| ==> PyDate(days[i])
    ensures |Sections(days, groups)| == |days|
    ensures forall i :: 0 <= i < |days| ==> Sections(days, groups)[i] == Section(days[|days| - 1 - i], groups)
  {
  }

  /** A day's section holds exactly the entries dated that day, in list
      order, and its total is their hours; a day without entries totals 0. */
  lemma SectionOfDay(es: seq<TimeRow>, day: Date)
    requires PyDate(day)
    ensures Section(day, ByDate(es)).entries == GroupOf(es, RowDate, Iso(day))
    ensures Section(day, ByDate(es)).total == SumOf(GroupOf(es, RowDate, Iso(day)), RowHours)
    ensures (forall i :: 0 <= i < |es| ==> es[i].date != Iso(day)) ==> Section(day, ByDate(es)).total == 0.0
  {
    if Iso(day) !in DatesOf(es) {
      NoDateNoGroup(es, Iso(day));
    }
    if forall i :: 0 <= i < |es| ==> es[i].date != Iso(day) {
      assert Iso(day) !in DatesOf(es);
    }
  }

  // ------------------------------------------------------------ the form

  /** The form's inputs as text; `projectId` is the select's value. */
  datatype TimeForm = TimeForm(projectId: string, description: string, date: string, hours: string,
                               billable: bool)

  /** Lines 83-92: a project, a description and a date are required, and
      the hours must read as a number above 0 and at most 24. `number` is
      how the form library reads a text as a number. */
  predicate FormAccepted(v: TimeForm, number: string -> Option<real>)
  {
    && number(v.projectId).Some? && v.description != "" && ParseIso(v.date).Some?
    && number(v.hours).Some? && 0.0 < number(v.hours).value <= 24.0
  }

  /** The body the form sends: the inputs, with the hours as a number. */
  datatype TimeData = TimeData(projectId: string, description: string, date: string, hours: real, billable: bool)

  /** Where a submitted form goes: a new entry, or the one being edited. */
  datatype Save = Post(body: TimeData) | Put(id: int, body: TimeData)

  // ------------------------------------------------------------ the page

  /** The page's entries, filters, error and loading flag, and the entry
      whose edit form is open. */
  class TimeLog {
    var entries: seq<TimeRow>
    var filters: TimeFilters
    var error: Option<string>
    var loading: bool
    var editing: Option<TimeRow>

    /** Lines 13-43: nothing listed, this week's filters set by the first
        effect. */
    constructor(today: Date)
      requires WeekInRange(today)
      ensures entries == [] && filters == WeekFilters(today) && error.None? && loading && editing.None?
    {
      entries, error, loading, editing := [], None, true, None;
      filters := WeekFilters(today);
    }

    /** Lines 177-184. */
    method ResetFilters(today: Date)
      requires WeekInRange(today)
      modifies this`filters
      ensures filters == WeekFilters(today)
    {
      filters := WeekFilters(today);
    }

    /** Lines 45-81, run when the filters change: nothing is asked for
        unless both bounds are set; then the query used and the list, or an
        empty list and the error. */
    method Load(reply: Outcome<seq<TimeRow>>) returns (query: Option<seq<Param>>)
      modifies this`entries, this`error, this`loading
      ensures !ShouldFetch(filters) ==> query.None? && entries == old(entries) && error == old(error)
                                        && loading == old(loading)
      ensures ShouldFetch(filters) ==> query == Some(EntriesQuery(filters)) && !loading
      ensures ShouldFetch(filters) && reply.Success? ==> entries == reply.payload && error == old(error)
      ensures ShouldFetch(filters) && reply.Failure? ==> entries == [] && error == Some(LoadFailed)
    {
      query := None;
      if !ShouldFetch(filters) {
        return;
      }
      loading := true;
      query := Some(EntriesQuery(filters));
      if reply.Success? {
        entries := reply.payload;
      } else {
        error := Some(LoadFailed);
        entries := [];
      }
      loading := false;
    }

    /** Lines 137-147 and 447-452: the edit button of an invoiced entry is
        disabled, so its form never opens. */
    method StartEdit(entry: TimeRow)
      modifies this`editing
      ensures entry.invoiced ==> editing == old(editing)
      ensures !entry.invoiced ==> editing == Some(entry)
    {
      if !entry.invoiced {
        editing := Some(entry);
      }
    }

    /** Lines 94-135: a form the validation accepts is sent (an update while an
        entry is being edited, a new entry otherwise), then the list is
        fetched again with the current filters. `sent` is what went to the
        server, if anything did. */
    method Submit(v: TimeForm, number: string -> Option<real>, server: Outcome<()>,
                  reloaded: Outcome<seq<TimeRow>>) returns (sent: Option<Save>, reload: Option<seq<Param>>)
      modifies this`entries, this`error, this`editing
      ensures sent.Some? <==> FormAccepted(v, number)
      ensures sent.Some? ==>
                && sent.value.body == TimeData(v.projectId, v.description, v.date, number(v.hours).value, v.billable)
                && (old(editing).Some? ==> sent.value == Put(old(editing).value.id, sent.value.body))
                && (old(editing).None? ==> sent.value.Post?)
      ensures (reload.Some? <==> sent.Some? && server.Success?) && (reload.Some? ==> reload.value == EntriesQuery(filters))
      ensures sent.None? ==> entries == old(entries) && error == old(error) && editing == old(editing)
      ensures sent.Some? && server.Failure? ==>
                entries == old(entries) && error == Some(ServerMessageOr(server.body, SaveFailed)) && editing == old(editing)
      ensures sent.Some? && server.Success? && reloaded.Success? ==>
                entries == reloaded.payload && error == old(error) && editing.None?
      ensures sent.Some? && server.Success? && reloaded.Failure? ==>
                entries == old(entries) && error == Some(ServerMessageOr(reloaded.body, SaveFailed)) && editing == old(editing)
    {
      sent, reload := None, None;
      if !FormAccepted(v, number) {
        return;
      }
      var body := TimeData(v.projectId, v.description, v.date, number(v.hours).value, v.billable);
      sent := if editing.Some? then Some(Put(editing.value.id, body)) else Some(Post(body));
      if server.Failure? {
        error := Some(ServerMessageOr(server.body, SaveFailed));
        return;
      }
      reload := Some(EntriesQuery(filters));
      if reloaded.Success? {
        entries := reloaded.payload;
        editing := None;
      } else {
        error := Some(ServerMessageOr(reloaded.body, SaveFailed));
      }
    }

    /** Lines 149-175 and 453-458: the delete button of an invoiced entry is
        disabled; otherwise, once confirmed and deleted, the list is fetched
        again with the current filters. */
    method Delete(entry: TimeRow, confirmed: bool, server: Outcome<()>, reloaded: Outcome<seq<TimeRow>>)
      returns (reload: Option<seq<Param>>)
      modifies this`entries, this`error
      ensures entry.invoiced || !confirmed ==> reload.None? && entries == old(entries) && error == old(error)
      ensures !entry.invoiced && confirmed ==>
                && (reload.Some? <==> server.Success?)
                && (reload.Some? ==> reload.value == EntriesQuery(filters))
                && (server.Failure? ==>
                      entries == old(entries) && error == Some(ServerMessageOr(server.body, DeleteFailed)))
                && (server.Success? && reloaded.Success? ==> entries == reloaded.payload && error == old(error))
                && (server.Success? && reloaded.Failure? ==>
                      entries == old(entries) && error == Some(ServerMessageOr(reloaded.body, DeleteFailed)))
    {
      reload := None;
      if entry.invoiced || !confirmed {
        return;
      }
      if server.Failure? {
        error := Some(ServerMessageOr(server.body, DeleteFailed));
        return;
      }
      reload := Some(EntriesQuery(filters));
      if reloaded.Success? {
        entries := reloaded.payload;
      } else {
        error := Some(ServerMessageOr(reloaded.body, DeleteFailed));
      }
    }
  }
}
