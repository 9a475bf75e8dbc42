/** What the list pages of the client share: the query string a filter panel
    turns into, and the lookup that names a row's project. */
module Listings {
  import opened Common
  import opened Grouping

  /** One `key=value` pair of a `URLSearchParams`. */
  datatype Param = Param(key: string, value: string)

  predicate Filled(p: Param)
  {
    p.value != ""
  }

  /** `if (value) queryParams.append(key, value)` for each candidate in
      turn: the filled ones, in the order they were tried. */
  function QueryOf(candidates: seq<Param>): (r: seq<Param>)
    ensures forall p :: p in r <==> p in candidates && p.value != ""
    ensures SubsequenceOf(r, candidates)
  {
    WhereSubsequence(candidates, Filled);
    Where(candidates, Filled)
  }

  /** A project as the list pages receive it. */
  datatype ProjectRef = ProjectRef(id: int, title: string, clientId: int)

  /** A client as the list pages receive it. */
  datatype ClientRef = ClientRef(id: int, name: string)

  const UnknownProject := "Unknown Project"
  const UnknownClient := "Unknown Client"

  /** `projects.find(p => p.id === id)`: the first project with that id. */
  function FindProject(projects: seq<ProjectRef>, id: int): (r: Option<ProjectRef>)
    ensures r.None? <==> forall i :: 0 <= i < |projects| ==> projects[i].id != id
    ensures r.Some? ==> exists i :: 0 <= i < |projects| && projects[i] == r.value && r.value.id == id
                                    && forall j :: 0 <= j < i ==> projects[j].id != id
  {
    if projects == [] then None
    else if projects[0].id == id then Some(projects[0])
    else
      var rest := FindProject(projects[1..], id);
      assert rest.Some? ==> exists i :: 0 <= i < |projects| && projects[i] == rest.value && forall j :: 0 <= j < i ==> projects[j].id != id by {
        if rest.Some? {
          var i :| 0 <= i < |projects[1..]| && projects[1..][i] == rest.value && rest.value.id == id
                   && forall j :: 0 <= j < i ==> projects[1..][j].id != id;
          assert projects[i + 1] == rest.value;
          assert forall j :: 0 <= j < i + 1 ==> projects[j].id != id by {
            forall j | 0 <= j < i + 1 ensures projects[j].id != id {
              if j > 0 { assert projects[j] == projects[1..][j - 1]; }
            }
          }
        }
      }
      rest
  }

  /** `clients.find(c => c.id === id)`: the first client with that id. */
  function FindClient(clients: seq<ClientRef>, id: int): (r: Option<ClientRef>)
    ensures r.None? <==> forall i :: 0 <= i < |clients| ==> clients[i].id != id
    ensures r.Some? ==> exists i :: 0 <= i < |clients| && clients[i] == r.value && r.value.id == id
                                    && forall j :: 0 <= j < i ==> clients[j].id != id
  {
    if clients == [] then None
    else if clients[0].id == id then Some(clients[0])
    else
      var rest := FindClient(clients[1..], id);
      assert rest.Some? ==> exists i :: 0 <= i < |clients| && clients[i] == rest.value && forall j :: 0 <= j < i ==> clients[j].id != id by {
        if rest.Some? {
          var i :| 0 <= i < |clients[1..]| && clients[1..][i] == rest.value && rest.value.id == id
                   && forall j :: 0 <= j < i ==> clients[1..][j].id != id;
          assert clients[i + 1] == rest.value;
          assert forall j :: 0 <= j < i + 1 ==> clients[j].id != id by {
            forall j | 0 <= j < i + 1 ensures clients[j].id != id {
              if j > 0 { assert clients[j] == clients[1..][j - 1]; }
            }
          }
        }
      }
      rest
  }

  /** `getProjectName` (frontend/src/pages/Invoices.jsx:127-130 and, word for
      word, frontend/src/pages/TimeTracking.jsx:204-207). */
  function ProjectName(projects: seq<ProjectRef>, id: int): (r: string)
    ensures (forall i :: 0 <= i < |projects| ==> projects[i].id != id) ==> r == UnknownProject
    ensures (exists i :: 0 <= i < |projects| && projects[i].id == id) ==>
              exists i :: 0 <= i < |projects| && projects[i].id == id && r == projects[i].title
                          && forall j :: 0 <= j < i ==> projects[j].id != id
  {
    match FindProject(projects, id)
    case None => UnknownProject
    case Some(p) => p.title
  }

  /** `getClientName`: the name of the client of the row's project, unknown
      when the project or that client is missing. */
  function ClientName(projects: seq<ProjectRef>, clients: seq<ClientRef>, id: int): (r: string)
    ensures (forall i :: 0 <= i < |projects| ==> projects[i].id != id) ==> r == UnknownClient
    ensures FindProject(projects, id).Some? ==>
              ((forall i :: 0 <= i < |clients| ==> clients[i].id != FindProject(projects, id).value.clientId)
               ==> r == UnknownClient)
    ensures FindProject(projects, id).Some? && FindClient(clients, FindProject(projects, id).value.clientId).Some? ==>
              r == FindClient(clients, FindProject(projects, id).value.clientId).value.name
    ensures r != UnknownClient ==> exists c :: c in clients && c.name == r
  {
    match FindProject(projects, id)
    case None => UnknownClient
    case Some(p) =>
      match FindClient(clients, p.clientId)
      case None => UnknownClient
      case Some(c) => c.name
  }

  /** Whichever duplicate comes later, the name shown is the first
      project's: adding projects after it never renames a row. */
  lemma {:induction false} ProjectNameKeepsFirst(projects: seq<ProjectRef>, more: seq<ProjectRef>, id: int)
    requires exists i :: 0 <= i < |projects| && projects[i].id == id
    ensures ProjectName(projects + more, id) == ProjectName(projects, id)
    decreases |projects|
  {
    if projects[0].id != id {
      assert (projects + more)[1..] == projects[1..] + more;
      var i :| 0 <= i < |projects| && projects[i].id == id;
      assert projects[1..][i - 1].id == id;
      ProjectNameKeepsFirst(projects[1..], more, id);
    }
  }

  /** Read by position: the row shows the name of the first client whose id
      is the client id of the first project with the row's id. */
  lemma ClientNameByPosition(projects: seq<ProjectRef>, clients: seq<ClientRef>, id: int, i: int, k: int)
    requires 0 <= i < |projects| && projects[i].id == id && forall j :: 0 <= j < i ==> projects[j].id != id
    requires 0 <= k < |clients| && clients[k].id == projects[i].clientId
    requires forall j :: 0 <= j < k ==> clients[j].id != projects[i].clientId
    ensures ClientName(projects, clients, id) == clients[k].name
  {
    var p := FindProject(projects, id).value;
    var pi :| 0 <= pi < |projects| && projects[pi] == p && p.id == id && forall j :: 0 <= j < pi ==> projects[j].id != id;
    assert pi == i;
    var c := FindClient(clients, p.clientId).value;
    var ci :| 0 <= ci < |clients| && clients[ci] == c && c.id == p.clientId
              && forall j :: 0 <= j < ci ==> clients[j].id != p.clientId;
    assert ci == k;
  }
}
