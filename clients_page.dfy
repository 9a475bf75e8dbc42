/** The clients page (frontend/src/pages/Clients.jsx): the search over the
    loaded clients, the edit form's values, the form's checks, and the list
    state a delete changes. */
module ClientsPage {
  import opened Common
  import opened Grouping

  const DeleteFailed := "Failed to delete client"
  const SaveFailed := "Failed to save client"
  const LoadFailed := "Failed to load clients"

  /** A client as the page receives it; the optional fields may be null. */
  datatype ClientRow = ClientRow(id: int, name: string, email: Option<string>, phone: Option<string>,
                                 company: Option<string>, address: Option<string>, notes: Option<string>)

  /** `field && field.toLowerCase().includes(term)` for an optional field. */
  predicate FieldMatches(field: Option<string>, term: string)
  {
    Present(field) && Contains(Lower(field.value), term)
  }

  /** Lines 96-99: the lower-cased term occurs in the name, the company or
      the email, each lower-cased. */
  predicate Matches(c: ClientRow, term: string)
  {
    Contains(Lower(c.name), Lower(term)) || FieldMatches(c.company, Lower(term))
    || FieldMatches(c.email, Lower(term))
  }

  /** The search's test, given the lower-cased term. */
  function MatchesLowered(needle: string): ClientRow -> bool
  {
    (c: ClientRow) => Contains(Lower(c.name), needle) || FieldMatches(c.company, needle)
                      || FieldMatches(c.email, needle)
  }

  /** Lines 95-100: the clients the search keeps, in list order. */
  function Filtered(clients: seq<ClientRow>, term: string): (r: seq<ClientRow>)
    ensures forall c :: c in r <==> c in clients && Matches(c, term)
    ensures SubsequenceOf(r, clients)
    ensures forall c :: multiset(r)[c] == if Matches(c, term) then multiset(clients)[c] else 0
  {
    if clients == [] then []
    else
      WhereSubsequence(clients, MatchesLowered(Lower(term)));
      forall c ensures multiset(Where(clients, MatchesLowered(Lower(term))))[c]
                       == if Matches(c, term) then multiset(clients)[c] else 0 {
        WhereCount(clients, MatchesLowered(Lower(term)), c);
      }
      Where(clients, MatchesLowered(Lower(term)))
  }

  /** An empty search keeps every client, in order. */
  lemma EmptySearchKeepsAll(clients: seq<ClientRow>)
    ensures Filtered(clients, "") == clients
  {
    if clients != [] {
      assert Lower("") == "";
      forall i | 0 <= i < |clients| ensures MatchesLowered("")(clients[i]) {
        ContainsEmpty(Lower(clients[i].name));
      }
      WhereAll(clients, MatchesLowered(""));
    }
  }

  /** The search ignores the case of the term. */
  lemma SearchIgnoresTermCase(clients: seq<ClientRow>, a: string, b: string)
    requires Lower(a) == Lower(b)
    ensures Filtered(clients, a) == Filtered(clients, b)
  {
  }

  /** The form's six inputs. */
  datatype ClientForm = ClientForm(name: string, email: string, phone: string, company: string,
                                   address: string, notes: string)

  const BlankForm := ClientForm("", "", "", "", "", "")

  /** `value || ''`. */
  function TextOrEmpty(field: Option<string>): (r: string)
    ensures field.None? ==> r == ""
    ensures field.Some? ==> r == field.value
  {
    match field
    case None => ""
    case Some(s) => s
  }

  /** Lines 74-82: the edit form starts from the client, every missing
      field as the empty text. */
  function EditValues(c: ClientRow): (r: ClientForm)
    ensures r.name == c.name
    ensures r.email == TextOrEmpty(c.email) && r.phone == TextOrEmpty(c.phone)
    ensures r.company == TextOrEmpty(c.company) && r.address == TextOrEmpty(c.address)
    ensures r.notes == TextOrEmpty(c.notes)
  {
    ClientForm(c.name, TextOrEmpty(c.email), TextOrEmpty(c.phone), TextOrEmpty(c.company),
               TextOrEmpty(c.address), TextOrEmpty(c.notes))
  }

  /** A client without optional fields opens a form that is blank but for
      the name. */
  lemma BareClientForm(c: ClientRow)
    requires c.email.None? && c.phone.None? && c.company.None? && c.address.None? && c.notes.None?
    ensures EditValues(c) == BlankForm.(name := c.name)
  {
  }

  /** Lines 38-45: a name is required and an email, when one is given, must
      look like one; `isEmail` is the form library's test. */
  predicate FormAccepted(v: ClientForm, isEmail: string -> bool)
  {
    v.name != "" && (v.email == "" || isEmail(v.email))
  }

  /** The keeps-other-ids test of line 87. */
  function OtherThan(id: int): ClientRow -> bool
  {
    (c: ClientRow) => c.id != id
  }

  /** The page's `clients` and `error` state. */
  class ClientList {
    var clients: seq<ClientRow>
    var error: Option<string>

    constructor()
      ensures clients == [] && error.None?
    {
      clients, error := [], None;
    }

    /** Lines 20-35. */
    method Load(reply: Outcome<seq<ClientRow>>)
      modifies this
      ensures reply.Success? ==> clients == reply.payload && error == old(error)
      ensures reply.Failure? ==> clients == [] && error == Some(LoadFailed)
    {
      if reply.Success? {
        clients := reply.payload;
      } else {
        clients, error := [], Some(LoadFailed);
      }
    }

    /** Lines 84-93: once confirmed and deleted on the server, exactly the
        clients with that id leave the list, the others keeping their
        order; a failure keeps the list and sets the error. */
    method Delete(id: int, confirmed: bool, reply: Outcome<()>)
      modifies this
      ensures !confirmed ==> clients == old(clients) && error == old(error)
      ensures confirmed && reply.Success? ==>
                && (forall c :: c in clients <==> c in old(clients) && c.id != id)
                && (forall c :: multiset(clients)[c] == if c.id != id then multiset(old(clients))[c] else 0)
                && SubsequenceOf(clients, old(clients)) && error == old(error)
      ensures confirmed && reply.Failure? ==>
                clients == old(clients) && error == Some(ServerMessageOr(reply.body, DeleteFailed))
    {
      if !confirmed {
        return;
      }
      if reply.Success? {
        WhereSubsequence(clients, OtherThan(id));
        forall c ensures multiset(Where(clients, OtherThan(id)))[c]
                         == if c.id != id then multiset(clients)[c] else 0 {
          WhereCount(clients, OtherThan(id), c);
        }
        clients := Where(clients, OtherThan(id));
      } else {
        error := Some(ServerMessageOr(reply.body, DeleteFailed));
      }
    }

    /** Lines 48-70: an accepted form is sent and the list fetched again;
        `sent` says whether it went to the server. */
    method Save(v: ClientForm, isEmail: string -> bool, server: Outcome<()>, reloaded: Outcome<seq<ClientRow>>)
      returns (sent: bool)
      modifies this
      ensures sent <==> FormAccepted(v, isEmail)
      ensures !sent ==> clients == old(clients) && error == old(error)
      ensures sent && server.Failure? ==>
                clients == old(clients) && error == Some(ServerMessageOr(server.body, SaveFailed))
      ensures sent && server.Success? && reloaded.Success? ==> clients == reloaded.payload && error == old(error)
      ensures sent && server.Success? && reloaded.Failure? ==>
                clients == old(clients) && error == Some(ServerMessageOr(reloaded.body, SaveFailed))
    {
      sent := FormAccepted(v, isEmail);
      if !sent {
        return;
      }
      if server.Failure? {
        error := Some(ServerMessageOr(server.body, SaveFailed));
      } else if reloaded.Success? {
        clients := reloaded.payload;
      } else {
        error := Some(ServerMessageOr(reloaded.body, SaveFailed));
      }
    }
  }
}
