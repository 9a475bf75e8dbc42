/** The portfolio routes (backend/routes/portfolio.py): a user's public page,
    the settings page behind it, and what may be shown on it. */
module PortfolioRoutes {
  import opened Common
  import opened Calendar
  import opened Ledger
  import opened ProjectModel

  const LocalBaseUrl := "http://localhost:5001"
  const PrivatePortfolio := "This portfolio is private"

  /** `get_base_url`: the configured server name when it is truthy,
      otherwise the local address. */
  function BaseUrl(serverName: Option<string>): (r: string)
    ensures StartsWith(r, "http://")
    ensures !Present(serverName) ==> r == LocalBaseUrl
    ensures Present(serverName) ==> r[|"http://"|..] == serverName.value
  {
    if Present(serverName) then "http://" + serverName.value else LocalBaseUrl
  }

  /** Lines 31 and 78: the stored image path behind the base URL, or None
      when no image is stored. */
  function ImageUrl(base: string, image: Option<string>): (r: Option<string>)
    ensures r.Some? <==> Present(image)
    ensures r.Some? ==> StartsWith(r.value, base) && r.value[|base|..] == image.value
  {
    if Present(image) then Some(base + image.value) else None
  }

  /** The user called `username`, found among the rows with ids below `bound`. */
  function UserNamed(users: map<int, User>, bound: int, username: string): (r: Option<User>)
    requires forall k :: k in users ==> 1 <= k < bound && users[k].id == k
    ensures r.None? <==> forall k :: k in users ==> users[k].username != username
    ensures r.Some? ==> r.value.id in users && users[r.value.id] == r.value && r.value.username == username
  {
    var named := Select(users, bound, (u: User) => u.username == username, UserId);
    if named == [] then None else Some(named[0])
  }

  // ------------------------------------------------------------- portfolio

  /** A project as the public page lists it. */
  datatype ShownProject = ShownProject(title: string, description: string, startDate: Option<string>,
                                       endDate: Option<string>, totalHours: real, totalBilled: real,
                                       category: string, isPublic: bool)

  datatype PortfolioView = PortfolioView(username: string, name: string, bio: Option<string>,
                                         profileImage: Option<string>, specialization: string,
                                         email: string, isPublic: bool, projects: seq<ShownProject>)

  function ShowProject(p: Project): (s: ShownProject)
    requires ProjectDatesValid(p)
    ensures s.title == p.title && s.category == p.status && s.isPublic == p.isPublic
    ensures s.startDate == IsoOrNone(p.startDate) && s.endDate == IsoOrNone(p.endDate)
  {
    ShownProject(p.title, p.description, IsoOrNone(p.startDate), IsoOrNone(p.endDate),
                 p.totalHours, p.totalBilled, p.status, p.isPublic)
  }

  /** A project the public page may show: the user's, completed and public. */
  function Showcased(uid: int): Project -> bool
  {
    (p: Project) => p.userId == uid && p.status == "completed" && p.isPublic
  }

  /** The first `n` of rows listed latest first are the latest `n`: no row
      after them is newer than one among them. */
  lemma NewestPrefix(s: seq<Project>, n: nat)
    requires n <= |s|
    requires forall i, j :: 0 <= i < j < |s| ==> s[i].id > s[j].id
    ensures forall x, y :: x in s && x !in s[..n] && y in s[..n] ==> x.id < y.id
    ensures forall x :: x in s[..n] ==> x in s
    ensures forall i, j :: 0 <= i < j < n ==> s[..n][i].id > s[..n][j].id
    ensures n == |s| ==> s[..n] == s
  {
    assert s[..|s|] == s;
    forall x, y | x in s && x !in s[..n] && y in s[..n] ensures x.id < y.id {
      var j :| 0 <= j < |s| && s[j] == x;
      var i :| 0 <= i < n && s[..n][i] == y;
    }
  }

  /** Every completed public project of the user, the latest first. */
  function ShowcasedNewest(projects: map<int, Project>, bound: int, uid: int): (r: seq<Project>)
    requires forall k :: k in projects ==> 1 <= k < bound && projects[k].id == k
    ensures forall p :: p in r ==> p.id in projects && projects[p.id] == p && Showcased(uid)(p)
    ensures forall k :: k in projects && Showcased(uid)(projects[k]) ==> projects[k] in r
    ensures forall i, j :: 0 <= i < j < |r| ==> r[i].id > r[j].id
  {
    var all := Select(projects, bound, Showcased(uid), ProjectId);
    ReverseNewestFirst(all, ProjectId);
    Reverse(all)
  }

  /** Lines 45-49: at most five of the user's completed public projects, the
      latest first; no project left out is newer than one that is shown. */
  function Showcase(projects: map<int, Project>, bound: int, uid: int): (r: seq<Project>)
    requires forall k :: k in projects ==> 1 <= k < bound && projects[k].id == k
    ensures |r| <= 5
    ensures forall p :: p in r ==> p.id in projects && projects[p.id] == p && Showcased(uid)(p)
    ensures forall i, j :: 0 <= i < j < |r| ==> r[i].id > r[j].id
    ensures forall k, p :: k in projects && Showcased(uid)(projects[k]) && projects[k] !in r && p in r ==> k < p.id
    ensures |r| < 5 ==> forall k :: k in projects && Showcased(uid)(projects[k]) ==> projects[k] in r
  {
    var newest := ShowcasedNewest(projects, bound, uid);
    var n := if |newest| <= 5 then |newest| else 5;
    NewestPrefix(newest, n);
    newest[..n]
  }

  /** Lines 17-62 on a request by `viewer`, the username of the signed-in
      user (None when nobody is): an unknown user is 404; a private
      portfolio is 404 to anyone else; otherwise the public fields, the
      image behind the base URL and the showcase. */
  function Portfolio(users: map<int, User>, projects: map<int, Project>, bound: int, username: string,
                     viewer: Option<string>, serverName: Option<string>): (r: Result<PortfolioView>)
    requires forall k :: k in users ==> 1 <= k < bound && users[k].id == k
    requires forall k :: k in projects ==> 1 <= k < bound && projects[k].id == k && ProjectDatesValid(projects[k])
    ensures UserNamed(users, bound, username).None? ==> r == Err(404, NotFound)
    ensures (UserNamed(users, bound, username).Some? && !UserNamed(users, bound, username).value.isPublic
             && viewer != Some(username)) ==> r == Err(404, PrivatePortfolio)
    ensures r.Ok? <==> UserNamed(users, bound, username).Some?
                       && (UserNamed(users, bound, username).value.isPublic || viewer == Some(username))
    ensures r.Ok? ==> r.value == PortfolioPage(UserNamed(users, bound, username).value, projects, bound, serverName)
  {
    match UserNamed(users, bound, username)
    case None => Err(404, NotFound)
    case Some(u) =>
      if !u.isPublic && viewer != Some(username) then Err(404, PrivatePortfolio)
      else Ok(PortfolioPage(u, projects, bound, serverName))
  }

  /** Lines 51-62: the user's public fields, the image behind the base URL
      and the showcase, each project as the page shows it. */
  function PortfolioPage(u: User, projects: map<int, Project>, bound: int, serverName: Option<string>): (r: PortfolioView)
    requires forall k :: k in projects ==> 1 <= k < bound && projects[k].id == k && ProjectDatesValid(projects[k])
    ensures r.username == u.username && r.email == u.email && r.isPublic == u.isPublic
    ensures r.profileImage == ImageUrl(BaseUrl(serverName), u.profileImage)
    ensures var shown := Showcase(projects, bound, u.id);
            |r.projects| == |shown| && forall i :: 0 <= i < |shown| ==> r.projects[i] == ShowProject(shown[i])
  {
    var shown := Showcase(projects, bound, u.id);
    PortfolioView(u.username, u.name, u.bio, ImageUrl(BaseUrl(serverName), u.profileImage),
                  u.specialization, u.email, u.isPublic, ShowAll(shown))
  }

  function ShowAll(ps: seq<Project>): (r: seq<ShownProject>)
    requires forall i :: 0 <= i < |ps| ==> ProjectDatesValid(ps[i])
    ensures |r| == |ps| && forall i :: 0 <= i < |ps| ==> r[i] == ShowProject(ps[i])
  {
    if ps == [] then [] else [ShowProject(ps[0])] + ShowAll(ps[1..])
  }

  /** The owner always sees their own page, public or not. */
  lemma OwnerSeesOwnPortfolio(users: map<int, User>, projects: map<int, Project>, bound: int,
                              username: string, serverName: Option<string>)
    requires forall k :: k in users ==> 1 <= k < bound && users[k].id == k
    requires forall k :: k in projects ==> 1 <= k < bound && projects[k].id == k && ProjectDatesValid(projects[k])
    requires exists k :: k in users && users[k].username == username
    ensures Portfolio(users, projects, bound, username, Some(username), serverName).Ok?
  {
  }

  // -------------------------------------------------------------- settings

  /** A project as the settings page lists it. */
  datatype SettingsProject = SettingsProject(id: int, title: string, isPublic: bool, description: string,
                                             startDate: Option<string>, endDate: Option<string>,
                                             totalHours: real, totalBilled: real)

  datatype SettingsView = SettingsView(username: string, name: string, bio: Option<string>,
                                       profileImage: Option<string>, specialization: string,
                                       isPublic: bool, projects: seq<SettingsProject>)

  function SettingsEntry(p: Project): (s: SettingsProject)
    requires ProjectDatesValid(p)
    ensures s.id == p.id && s.isPublic == p.isPublic
  {
    SettingsProject(p.id, p.title, p.isPublic, p.description, IsoOrNone(p.startDate), IsoOrNone(p.endDate),
                    p.totalHours, p.totalBilled)
  }

  function SettingsEntries(ps: seq<Project>): (r: seq<SettingsProject>)
    requires forall i :: 0 <= i < |ps| ==> ProjectDatesValid(ps[i])
    ensures |r| == |ps| && forall i :: 0 <= i < |ps| ==> r[i] == SettingsEntry(ps[i])
  {
    if ps == [] then [] else [SettingsEntry(ps[0])] + SettingsEntries(ps[1..])
  }

  /** Lines 90-93: every completed project of the user, shown on the page
      or not, in id order. */
  function Completed(projects: map<int, Project>, bound: int, uid: int): (r: seq<Project>)
    requires forall k :: k in projects ==> 1 <= k < bound && projects[k].id == k
    ensures forall p :: p in r ==> p.id in projects && projects[p.id] == p && p.userId == uid && p.status == "completed"
    ensures forall k :: k in projects && projects[k].userId == uid && projects[k].status == "completed" ==> projects[k] in r
  {
    Select(projects, bound, (p: Project) => p.userId == uid && p.status == "completed", ProjectId)
  }

  /** `GET /portfolio/settings`: the user's profile and an entry for every
      completed project of theirs. */
  function PortfolioSettings(u: User, projects: map<int, Project>, bound: int, serverName: Option<string>): (r: SettingsView)
    requires forall k :: k in projects ==> 1 <= k < bound && projects[k].id == k && ProjectDatesValid(projects[k])
    ensures r.username == u.username && r.isPublic == u.isPublic
    ensures r.profileImage == ImageUrl(BaseUrl(serverName), u.profileImage)
    ensures var mine := Completed(projects, bound, u.id);
            |r.projects| == |mine| && forall i :: 0 <= i < |mine| ==> r.projects[i] == SettingsEntry(mine[i])
  {
    var mine := Completed(projects, bound, u.id);
    assert forall i :: 0 <= i < |mine| ==> mine[i] in mine;
    SettingsView(u.username, u.name, u.bio, ImageUrl(BaseUrl(serverName), u.profileImage),
                 u.specialization, u.isPublic, SettingsEntries(mine))
  }

  // ---------------------------------------------------------------- update

  /** One element of the body's `projects`; `None` is an absent key. */
  datatype VisibilityItem = VisibilityItem(id: Option<int>, isPublic: Option<Json>)

  /** A body of `update_portfolio_settings`; `None` is an absent key. */
  datatype SettingsPayload = SettingsPayload(bio: Option<string>, specialization: Option<string>,
                                             isPublic: Option<Json>, projects: Option<seq<VisibilityItem>>)

  /** The item changes the visibility of project `k` of user `uid`. */
  predicate Sets(it: VisibilityItem, projects: map<int, Project>, uid: int)
  {
    it.id.Some? && it.isPublic.Some? && OwnsProject(projects, uid, it.id.value)
  }

  /** One turn of the loop of lines 132-141: an item with both keys naming a
      project of the user sets its flag to the value's truth; any other item
      is skipped. */
  function SetVisibility(projects: map<int, Project>, uid: int, it: VisibilityItem): (r: map<int, Project>)
    ensures r.Keys == projects.Keys
    ensures forall k :: k in projects ==> r[k] == projects[k].(isPublic := r[k].isPublic)
  {
    if Sets(it, projects, uid) then
      projects[it.id.value := projects[it.id.value].(isPublic := Truthy(it.isPublic.value))]
    else projects
  }

  /** The whole loop, item after item. */
  function Visibility(projects: map<int, Project>, uid: int, items: seq<VisibilityItem>): (r: map<int, Project>)
    ensures r.Keys == projects.Keys
    ensures forall k :: k in projects ==> r[k] == projects[k].(isPublic := r[k].isPublic)
  {
    if items == [] then projects
    else SetVisibility(Visibility(projects, uid, items[..|items| - 1]), uid, items[|items| - 1])
  }

  /** The value the last item naming project `k` gives it, if any item does. */
  function LastSetting(items: seq<VisibilityItem>, k: int): Option<bool>
  {
    if items == [] then None
    else
      var it := items[|items| - 1];
      if it.id == Some(k) && it.isPublic.Some? then Some(Truthy(it.isPublic.value))
      else LastSetting(items[..|items| - 1], k)
  }

  /** The loop's effect, stated without the loop: a project of the user
      takes the value of the last item naming it, with no check of its
      status; every other project is left as it is. */
  lemma {:induction false} VisibilityIsLastSetting(projects: map<int, Project>, uid: int, items: seq<VisibilityItem>, k: int)
    requires k in projects
    ensures projects[k].userId == uid ==>
              Visibility(projects, uid, items)[k] == projects[k].(isPublic := OrElse(LastSetting(items, k), projects[k].isPublic))
    ensures projects[k].userId != uid ==> Visibility(projects, uid, items)[k] == projects[k]
  {
    if items != [] {
      VisibilityIsLastSetting(projects, uid, items[..|items| - 1], k);
    }
  }

  /** `PUT /portfolio/settings`: the user's bio, specialization and flag
      change when present, then the project flags as `Visibility` says. */
  method UpdatePortfolioSettings(db: Database, uid: int, p: SettingsPayload)
    requires db.Valid() && uid in db.users
    modifies db
    ensures db.Valid()
    ensures db.users == old(db.users)[uid := old(db.users)[uid].(bio := if p.bio.Some? then p.bio else old(db.users)[uid].bio,
                                                                specialization := OrElse(p.specialization, old(db.users)[uid].specialization),
                                                                isPublic := if p.isPublic.Some? then Truthy(p.isPublic.value)
                                                                            else old(db.users)[uid].isPublic)]
    ensures db.projects == Visibility(old(db.projects), uid, OrElse(p.projects, []))
    ensures unchanged(db`clients, db`entries, db`invoices, db`documents, db`nextId)
  {
    var u := db.users[uid];
    if p.bio.Some? {
      u := u.(bio := p.bio);
    }
    if p.specialization.Some? {
      u := u.(specialization := p.specialization.value);
    }
    if p.isPublic.Some? {
      u := u.(isPublic := Truthy(p.isPublic.value));
    }
    var items := OrElse(p.projects, []);
    var projects := db.projects;
    for i := 0 to |items|
      invariant projects == Visibility(db.projects, uid, items[..i])
    {
      assert items[..i + 1][..i] == items[..i];
      if Sets(items[i], projects, uid) {
        projects := projects[items[i].id.value := projects[items[i].id.value].(isPublic := Truthy(items[i].isPublic.value))];
      }
    }
    assert items[..|items|] == items;
    StoreSettings(db, u, projects);
  }

  /** Writes back the user's row and the project rows, which differ from the
      stored ones in profile fields and flags only. */
  method StoreSettings(db: Database, u: User, projects: map<int, Project>)
    requires db.Valid() && u.id in db.users
    requires u.username == db.users[u.id].username && u.email == db.users[u.id].email
    requires projects.Keys == db.projects.Keys
    requires forall k :: k in projects ==> projects[k] == db.projects[k].(isPublic := projects[k].isPublic)
    modifies db
    ensures db.Valid()
    ensures db.users == old(db.users)[u.id := u] && db.projects == projects
    ensures unchanged(db`clients, db`entries, db`invoices, db`documents, db`nextId)
  {
    db.SetUser(u);
    StoreProjects(db, projects);
  }

  method StoreProjects(db: Database, projects: map<int, Project>)
    requires db.Valid()
    requires projects.Keys == db.projects.Keys
    requires forall k :: k in projects ==> projects[k] == db.projects[k].(isPublic := projects[k].isPublic)
    modifies db`projects
    ensures db.Valid()
    ensures db.projects == projects
  {
    db.projects := projects;
    assert db.UsersValid() && db.ClientsValid();
  }
}
