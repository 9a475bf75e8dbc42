/** The project routes (backend/routes/projects.py): a user's projects, each
    tied to one of the user's clients, and their portfolio visibility. */
module ProjectRoutes {
  import opened Common
  import opened Calendar
  import opened Grouping
  import opened Ledger
  import opened ProjectModel

  const TitleRequired := "Project title is required"
  const ClientRequired := "Client ID is required"
  const InvalidClient := "Invalid client ID"
  const BadStartDate := "Invalid start date format. Use YYYY-MM-DD"
  const BadEndDate := "Invalid end date format. Use YYYY-MM-DD"
  const OnlyCompletedPublic := "Only completed projects can be made public in your portfolio"

  /** The statuses `project_stats` counts, in its order. */
  const Statuses := ["pending", "active", "completed", "cancelled"]

  function ProjectStatus(p: Project): string
  {
    p.status
  }

  predicate IsPublic(p: Project)
  {
    p.isPublic
  }

  /** The user's projects, oldest first. */
  function UserProjects(projects: map<int, Project>, uid: int, bound: int): (r: seq<Project>)
    requires forall k :: k in projects ==> 1 <= k < bound && projects[k].id == k
    ensures forall p :: p in r ==> p.id in projects && projects[p.id] == p && p.userId == uid
    ensures forall k :: k in projects && projects[k].userId == uid ==> projects[k] in r
    ensures forall i, j :: 0 <= i < j < |r| ==> r[i].id < r[j].id
  {
    Select(projects, bound, (p: Project) => p.userId == uid, ProjectId)
  }

  // ------------------------------------------------------------------ list

  /** The query string of `GET /projects/`: status and client id apply when
      given and non-empty, the visibility flag whenever it is given. */
  datatype ProjectQuery = ProjectQuery(status: Option<string>, clientId: Option<int>, isPublic: Option<string>)

  predicate ProjectMatches(q: ProjectQuery, p: Project)
  {
    (Present(q.status) ==> p.status == q.status.value)
    && (q.clientId.Some? ==> p.clientId == q.clientId.value)
    && (q.isPublic.Some? ==> p.isPublic == (Lower(q.isPublic.value) == "true"))
  }

  /** `GET /projects/`: exactly the user's projects that pass the filters. */
  method ListProjects(db: Database, uid: int, q: ProjectQuery) returns (r: seq<Project>)
    requires db.Valid()
    ensures forall p :: p in r ==> p.id in db.projects && db.projects[p.id] == p && p.userId == uid
                                   && ProjectMatches(q, p)
    ensures forall k :: (k in db.projects && db.projects[k].userId == uid && ProjectMatches(q, db.projects[k]))
                        ==> db.projects[k] in r
    ensures forall i, j :: 0 <= i < j < |r| ==> r[i].id < r[j].id
  {
    r := Select(db.projects, db.nextId, (p: Project) => p.userId == uid && ProjectMatches(q, p), ProjectId);
  }

  // ---------------------------------------------------------------- create

  /** A project request body; `None` is an absent key. For a date, `Some("")`
      is a key given as empty. */
  datatype ProjectPayload = ProjectPayload(title: Option<string>, clientId: Option<int>,
                                           description: Option<string>, status: Option<string>,
                                           startDate: Option<string>, endDate: Option<string>,
                                           hourlyRate: Option<real>, fixedPrice: Option<real>,
                                           isPublic: Option<bool>)

  /** What `create_project` decides for a row with id `id`: title, then
      client id, then the client's owner, then each given date must parse.
      The new row is not public and starts with no hours and nothing billed. */
  function NewProjectRow(clients: map<int, Client>, uid: int, p: ProjectPayload, id: int): (r: Result<Project>)
    ensures !Present(p.title) ==> r == Err(400, TitleRequired)
    ensures Present(p.title) && !(p.clientId.Some? && p.clientId.value != 0) ==> r == Err(400, ClientRequired)
    ensures (Present(p.title) && p.clientId.Some? && p.clientId.value != 0
             && !OwnsClient(clients, uid, p.clientId.value)) ==> r == Err(400, InvalidClient)
    ensures r.Ok? <==> Present(p.title) && p.clientId.Some? && p.clientId.value != 0
                       && OwnsClient(clients, uid, p.clientId.value)
                       && (Present(p.startDate) ==> ParseIso(p.startDate.value).Some?)
                       && (Present(p.endDate) ==> ParseIso(p.endDate.value).Some?)
    ensures r.Ok? ==> r.value.id == id && r.value.userId == uid && r.value.clientId == p.clientId.value
                      && r.value.title == p.title.value
                      && r.value.status == OrElse(p.status, DefaultStatus)
                      && r.value.description == OrElse(p.description, "")
                      && r.value.totalHours == 0.0 && r.value.totalBilled == 0.0 && !r.value.isPublic
                      && r.value.hourlyRate == p.hourlyRate && r.value.fixedPrice == p.fixedPrice
                      && (r.value.startDate.Some? <==> Present(p.startDate))
                      && (r.value.startDate.Some? ==> ParseIso(p.startDate.value) == r.value.startDate)
                      && (r.value.endDate.Some? <==> Present(p.endDate))
                      && (r.value.endDate.Some? ==> ParseIso(p.endDate.value) == r.value.endDate)
  {
    if !Present(p.title) then Err(400, TitleRequired)
    else if !(p.clientId.Some? && p.clientId.value != 0) then Err(400, ClientRequired)
    else if !OwnsClient(clients, uid, p.clientId.value) then Err(400, InvalidClient)
    else if Present(p.startDate) && ParseIso(p.startDate.value).None? then Err(400, BadStartDate)
    else if Present(p.endDate) && ParseIso(p.endDate.value).None? then Err(400, BadEndDate)
    else
      var start := if Present(p.startDate) then ParseIso(p.startDate.value) else None;
      var end := if Present(p.endDate) then ParseIso(p.endDate.value) else None;
      Ok(NewProject(id, uid, p.clientId.value, p.title.value).(
        description := OrElse(p.description, ""), status := OrElse(p.status, DefaultStatus),
        startDate := start, endDate := end, hourlyRate := p.hourlyRate, fixedPrice := p.fixedPrice))
  }

  /** `POST /projects/`. */
  method CreateProject(db: Database, uid: int, p: ProjectPayload) returns (r: Result<Project>)
    requires db.Valid()
    modifies db
    ensures db.Valid()
    ensures r == NewProjectRow(old(db.clients), uid, p, old(db.nextId))
    ensures r.Err? ==> unchanged(db)
    ensures r.Ok? ==> r.value.id !in old(db.projects) && db.projects == old(db.projects)[r.value.id := r.value]
    ensures unchanged(db`users, db`clients, db`entries, db`invoices, db`documents)
  {
    r := NewProjectRow(db.clients, uid, p, db.nextId);
    if r.Ok? {
      var id := db.FreshId();
      db.projects := db.projects[id := r.value];
    }
  }

  // ---------------------------------------------------------------- update

  /** An optional date key of `update_project`: absent keeps the value, empty
      clears it, anything else must parse. */
  function DateField(given: Option<string>, current: Option<Date>): Option<Option<Date>>
  {
    if given.None? then Some(current)
    else if given.value == "" then Some(None)
    else match ParseIso(given.value)
      case None => None
      case Some(d) => Some(Some(d))
  }

  /** What `update_project` does to one of the user's projects: a new client
      must be the user's, given dates must parse or be empty (which clears
      them), and every other key present replaces its column without any
      check; neither the owner nor the totals change. */
  function PatchProject(clients: map<int, Client>, uid: int, pr: Project, p: ProjectPayload): (r: Result<Project>)
    ensures p.clientId.Some? && !OwnsClient(clients, uid, p.clientId.value) ==> r == Err(400, InvalidClient)
    ensures ((p.clientId.Some? ==> OwnsClient(clients, uid, p.clientId.value))
             && DateField(p.startDate, pr.startDate).None?) ==> r == Err(400, BadStartDate)
    ensures ((p.clientId.Some? ==> OwnsClient(clients, uid, p.clientId.value))
             && DateField(p.startDate, pr.startDate).Some?
             && DateField(p.endDate, pr.endDate).None?) ==> r == Err(400, BadEndDate)
    ensures r.Ok? <==> (p.clientId.Some? ==> OwnsClient(clients, uid, p.clientId.value))
                       && DateField(p.startDate, pr.startDate).Some?
                       && DateField(p.endDate, pr.endDate).Some?
    ensures r.Ok? ==> r.value.id == pr.id && r.value.userId == pr.userId
                      && r.value.totalHours == pr.totalHours && r.value.totalBilled == pr.totalBilled
                      && r.value.clientId == OrElse(p.clientId, pr.clientId)
                      && r.value.title == OrElse(p.title, pr.title)
                      && r.value.description == OrElse(p.description, pr.description)
                      && r.value.status == OrElse(p.status, pr.status)
                      && r.value.isPublic == OrElse(p.isPublic, pr.isPublic)
                      && r.value.hourlyRate == (if p.hourlyRate.Some? then p.hourlyRate else pr.hourlyRate)
                      && r.value.fixedPrice == (if p.fixedPrice.Some? then p.fixedPrice else pr.fixedPrice)
    ensures r.Ok? && p.startDate == Some("") ==> r.value.startDate.None?
    ensures r.Ok? && p.endDate == Some("") ==> r.value.endDate.None?
    ensures r.Ok? && p.startDate.None? ==> r.value.startDate == pr.startDate
    ensures r.Ok? && p.endDate.None? ==> r.value.endDate == pr.endDate
    ensures r.Ok? && p.startDate.Some? && p.startDate.value != "" ==> r.value.startDate == ParseIso(p.startDate.value)
    ensures r.Ok? && p.endDate.Some? && p.endDate.value != "" ==> r.value.endDate == ParseIso(p.endDate.value)
  {
    if p.clientId.Some? && !OwnsClient(clients, uid, p.clientId.value) then Err(400, InvalidClient)
    else
      var start := DateField(p.startDate, pr.startDate);
      var end := DateField(p.endDate, pr.endDate);
      if start.None? then Err(400, BadStartDate)
      else if end.None? then Err(400, BadEndDate)
      else
        Ok(pr.(clientId := OrElse(p.clientId, pr.clientId), startDate := start.value, endDate := end.value,
               title := OrElse(p.title, pr.title), description := OrElse(p.description, pr.description),
               status := OrElse(p.status, pr.status),
               hourlyRate := if p.hourlyRate.Some? then p.hourlyRate else pr.hourlyRate,
               fixedPrice := if p.fixedPrice.Some? then p.fixedPrice else pr.fixedPrice,
               isPublic := OrElse(p.isPublic, pr.isPublic)))
  }

  /** A body with no keys leaves the project as it is. */
  lemma EmptyPatchKeepsProject(clients: map<int, Client>, uid: int, pr: Project)
    ensures PatchProject(clients, uid, pr, ProjectPayload(None, None, None, None, None, None, None, None, None)) == Ok(pr)
  {
  }

  /** Unlike toggle-public, a plain update can make a project that is not
      completed public. */
  lemma UpdateCanPublishUnfinished(clients: map<int, Client>, uid: int, pr: Project)
    requires pr.status == "pending"
    ensures PatchProject(clients, uid, pr, ProjectPayload(None, None, None, None, None, None, None, None, Some(true)))
            == Ok(pr.(isPublic := true))
  {
  }

  /** `PUT /projects/<id>`. */
  method UpdateProject(db: Database, uid: int, pid: int, p: ProjectPayload) returns (r: Result<Project>)
    requires db.Valid()
    modifies db
    ensures db.Valid()
    ensures !OwnsProject(old(db.projects), uid, pid) ==> r == Err(404, NotFound)
    ensures OwnsProject(old(db.projects), uid, pid) ==> r == PatchProject(old(db.clients), uid, old(db.projects)[pid], p)
    ensures r.Err? ==> unchanged(db)
    ensures r.Ok? ==> db.projects == old(db.projects)[pid := r.value]
    ensures unchanged(db`users, db`clients, db`entries, db`invoices, db`documents, db`nextId)
  {
    if !OwnsProject(db.projects, uid, pid) {
      return Err(404, NotFound);
    }
    r := PatchProject(db.clients, uid, db.projects[pid], p);
    if r.Ok? {
      db.projects := db.projects[pid := r.value];
    }
  }

  // ---------------------------------------------------------------- delete

  /** `DELETE /projects/<id>`: the project goes together with its time
      entries, invoices and documents (the relationships cascade), so no row
      is left pointing at it. */
  method DeleteProject(db: Database, uid: int, pid: int) returns (r: Result<()>)
    requires db.Valid()
    modifies db
    ensures db.Valid()
    ensures r.Ok? <==> OwnsProject(old(db.projects), uid, pid)
    ensures r.Err? ==> r == Err(404, NotFound) && unchanged(db)
    ensures r.Ok? ==> db.projects == old(db.projects) - {pid}
    ensures r.Ok? ==> db.entries == (map k | k in old(db.entries) && old(db.entries)[k].projectId != pid :: old(db.entries)[k])
    ensures r.Ok? ==> db.invoices == (map k | k in old(db.invoices) && old(db.invoices)[k].projectId != pid :: old(db.invoices)[k])
    ensures r.Ok? ==> db.documents == (map k | k in old(db.documents) && old(db.documents)[k].projectId != pid :: old(db.documents)[k])
    ensures unchanged(db`users, db`clients, db`nextId)
  {
    if !OwnsProject(db.projects, uid, pid) {
      return Err(404, NotFound);
    }
    db.RemoveProject(pid);
    r := Ok(());
  }

  // ----------------------------------------------------------------- stats

  datatype ProjectStats = ProjectStats(total: int, byStatus: map<string, int>,
                                       recent: seq<Project>, publicCount: int)

  function StatusCount(mine: seq<Project>, s: string): nat
  {
    |GroupOf(mine, ProjectStatus, s)|
  }

  /** The newest `n` projects, newest first. */
  function Newest(mine: seq<Project>, n: nat): (r: seq<Project>)
    ensures |r| == if |mine| < n then |mine| else n
    ensures forall i :: 0 <= i < |r| ==> r[i] == mine[|mine| - 1 - i]
  {
    var rev := Reverse(mine);
    if |rev| <= n then rev else rev[..n]
  }

  /** `GET /projects/stats`: the user's project count, a count for each of
      the four statuses (filled in a loop), the five newest projects and the
      number of public ones. */
  method ProjectStatsOf(db: Database, uid: int) returns (r: ProjectStats)
    requires db.Valid()
    ensures var mine := UserProjects(db.projects, uid, db.nextId);
            r.total == |mine|
            && (forall s :: s in r.byStatus <==> s in Statuses)
            && (forall s :: s in r.byStatus ==> r.byStatus[s] == StatusCount(mine, s))
            && r.recent == Newest(mine, 5)
            && r.publicCount == |Where(mine, IsPublic)|
  {
    var mine := UserProjects(db.projects, uid, db.nextId);
    var byStatus: map<string, int> := map[];
    for i := 0 to |Statuses|
      invariant forall s :: s in byStatus <==> s in Statuses[..i]
      invariant forall s :: s in byStatus ==> byStatus[s] == StatusCount(mine, s)
    {
      byStatus := byStatus[Statuses[i] := StatusCount(mine, Statuses[i])];
    }
    assert Statuses[..|Statuses|] == Statuses;
    r := ProjectStats(|mine|, byStatus, Newest(mine, 5), |Where(mine, IsPublic)|);
  }

  /** Every project past the first `|mine| - |Newest(mine, n)|` is among the newest. */
  lemma NewestTail(mine: seq<Project>, n: nat)
    ensures forall i :: |mine| - |Newest(mine, n)| <= i < |mine| ==> mine[i] in Newest(mine, n)
  {
    var r := Newest(mine, n);
    forall i | |mine| - |r| <= i < |mine| ensures mine[i] in r {
      assert r[|mine| - 1 - i] == mine[i];
    }
  }

  /** Newest first: taken from the back of an ascending list, ids descend. */
  lemma NewestDescending(mine: seq<Project>, n: nat)
    requires forall i, j :: 0 <= i < j < |mine| ==> mine[i].id < mine[j].id
    ensures forall i, j :: 0 <= i < j < |Newest(mine, n)| ==> Newest(mine, n)[i].id > Newest(mine, n)[j].id
  {
    var r := Newest(mine, n);
    var m := |mine|;
    forall i, j | 0 <= i < j < |r| ensures r[i].id > r[j].id {
      assert r[i] == mine[m - 1 - i] && r[j] == mine[m - 1 - j];
    }
  }

  /** A project left out of the newest `n` is older than every one kept. */
  lemma NewestOlder(mine: seq<Project>, n: nat, a: int, b: int)
    requires forall i, j :: 0 <= i < j < |mine| ==> mine[i].id < mine[j].id
    requires 0 <= a < |mine| && mine[a] !in Newest(mine, n) && 0 <= b < |Newest(mine, n)|
    ensures mine[a].id < Newest(mine, n)[b].id
  {
    var r := Newest(mine, n);
    var m := |mine|;
    NewestTail(mine, n);
    assert a < m - |r|;
    assert r[b] == mine[m - 1 - b];
  }

  /** The recent list holds the user's newest projects: at most five, newest
      first, and every project left out is older than all of them. */
  lemma RecentAreNewest(mine: seq<Project>)
    requires forall i, j :: 0 <= i < j < |mine| ==> mine[i].id < mine[j].id
    ensures |Newest(mine, 5)| <= 5
    ensures forall i, j :: 0 <= i < j < |Newest(mine, 5)| ==> Newest(mine, 5)[i].id > Newest(mine, 5)[j].id
    ensures forall p, q :: p in mine && p !in Newest(mine, 5) && q in Newest(mine, 5) ==> p.id < q.id
  {
    var r := Newest(mine, 5);
    NewestDescending(mine, 5);
    forall p, q | p in mine && p !in r && q in r ensures p.id < q.id {
      var a :| 0 <= a < |mine| && mine[a] == p;
      var b :| 0 <= b < |r| && r[b] == q;
      NewestOlder(mine, 5, a, b);
    }
  }

  function One(p: Project): real
  {
    1.0
  }

  lemma {:induction false} CountAsSum(xs: seq<Project>)
    ensures SumOf(xs, One) == |xs| as real
    decreases |xs|
  {
    if xs != [] {
      CountAsSum(xs[..|xs| - 1]);
    }
  }

  function StatusCountsFrom(mine: seq<Project>, keys: seq<string>): int
  {
    if keys == [] then 0 else StatusCountsFrom(mine, keys[..|keys| - 1]) + StatusCount(mine, keys[|keys| - 1])
  }

  lemma {:induction false} StatusCountsAsGroups(mine: seq<Project>, keys: seq<string>)
    ensures StatusCountsFrom(mine, keys) as real == SumGroups(keys, mine, ProjectStatus, One)
    decreases |keys|
  {
    if keys != [] {
      StatusCountsAsGroups(mine, keys[..|keys| - 1]);
      CountAsSum(GroupOf(mine, ProjectStatus, keys[|keys| - 1]));
    }
  }

  /** The four status counts add up to the number of projects whose status
      is one of the four, and so to the total when every status is. */
  lemma StatusCountsAddUp(mine: seq<Project>)
    ensures StatusCountsFrom(mine, Statuses) == |Where(mine, (p: Project) => p.status in Statuses)|
    ensures (forall p :: p in mine ==> p.status in Statuses) ==> StatusCountsFrom(mine, Statuses) == |mine|
  {
    var inFour := (p: Project) => p.status in Statuses;
    StatusCountsAsGroups(mine, Statuses);
    SumGroupsCovered(Statuses, mine, ProjectStatus, One, inFour);
    CountAsSum(Where(mine, inFour));
    if forall p :: p in mine ==> p.status in Statuses {
      WhereAll(mine, inFour);
    }
  }

  lemma {:induction false} WhereAll(xs: seq<Project>, p: Project -> bool)
    requires forall x :: x in xs ==> p(x)
    ensures Where(xs, p) == xs
    decreases |xs|
  {
    if xs != [] {
      assert forall x :: x in xs[..|xs| - 1] ==> x in xs;
      WhereAll(xs[..|xs| - 1], p);
      assert xs[|xs| - 1] in xs;
    }
  }

  // ---------------------------------------------------------- toggle-public

  /** `POST /projects/<id>/toggle-public`: an explicit `true` needs a
      completed project; an explicit value is stored; an absent key flips the
      flag, with no status check. */
  function TogglePublic(pr: Project, given: Option<bool>): (r: Result<Project>)
    ensures given == Some(true) && pr.status != "completed" ==> r == Err(400, OnlyCompletedPublic)
    ensures r.Ok? <==> !(given == Some(true) && pr.status != "completed")
    ensures r.Ok? ==> r.value == pr.(isPublic := OrElse(given, !pr.isPublic))
  {
    if given == Some(true) && pr.status != "completed" then Err(400, OnlyCompletedPublic)
    else Ok(pr.(isPublic := OrElse(given, !pr.isPublic)))
  }

  /** Asking for `true` explicitly publishes only completed projects. */
  lemma ExplicitPublishNeedsCompleted(pr: Project)
    requires TogglePublic(pr, Some(true)).Ok?
    ensures pr.status == "completed" && TogglePublic(pr, Some(true)).value.isPublic
  {
  }

  /** Toggling twice without the key restores the flag. */
  lemma ToggleTwiceRestores(pr: Project)
    ensures TogglePublic(TogglePublic(pr, None).value, None) == Ok(pr)
  {
  }

  /** Without the key the completed-only rule is not applied. */
  lemma ToggleWithoutKeyPublishesAnything(pr: Project)
    requires !pr.isPublic && pr.status == "pending"
    ensures TogglePublic(pr, None) == Ok(pr.(isPublic := true))
  {
  }

  method ToggleProjectPublic(db: Database, uid: int, pid: int, given: Option<bool>) returns (r: Result<Project>)
    requires db.Valid()
    modifies db
    ensures db.Valid()
    ensures !OwnsProject(old(db.projects), uid, pid) ==> r == Err(404, NotFound)
    ensures OwnsProject(old(db.projects), uid, pid) ==> r == TogglePublic(old(db.projects)[pid], given)
    ensures r.Err? ==> unchanged(db)
    ensures r.Ok? ==> db.projects == old(db.projects)[pid := r.value]
    ensures unchanged(db`users, db`clients, db`entries, db`invoices, db`documents, db`nextId)
  {
    if !OwnsProject(db.projects, uid, pid) {
      return Err(404, NotFound);
    }
    r := TogglePublic(db.projects[pid], given);
    if r.Ok? {
      db.projects := db.projects[pid := r.value];
    }
  }
}
