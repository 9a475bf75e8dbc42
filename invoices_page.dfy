/** The invoice list page (frontend/src/pages/Invoices.jsx): the filter
    query, the `overdue` label the page puts on sent invoices whose due day
    has begun, the colour and the actions each status gets, and the list
    state that loads and reloads. */
module InvoicesPage {
  import opened Common
  import opened Calendar
  import opened Grouping
  import opened Listings
  import opened Ledger
  import opened InvoiceModel
  import InvoiceRoutes

  const Draft := "draft"
  const Sent := "sent"
  const Paid := "paid"
  const Overdue := "overdue"

  /** The browser's clock: today's date and the milliseconds since its
      local midnight. */
  datatype Clock = Clock(today: Date, millisIntoDay: nat)

  /** `isPast(parseISO(text))` for a date-only text: midnight of that day
      lies before now. A text that does not parse is an invalid date, which
      is never past. */
  predicate MidnightPassed(text: string, clock: Clock)
  {
    match ParseIso(text)
    case None => false
    case Some(d) =>
      Valid(clock.today)
      && (Ordinal(d) < Ordinal(clock.today) || (Ordinal(d) == Ordinal(clock.today) && clock.millisIntoDay > 0))
  }

  /** Lines 47-49: sent, with a due date, and that date past. */
  predicate LooksOverdue(inv: InvoiceView, clock: Clock)
  {
    inv.status == Sent && Present(inv.dueDate) && MidnightPassed(inv.dueDate.value, clock)
  }

  /** Lines 46-51 on one invoice. */
  function Relabel(inv: InvoiceView, clock: Clock): (r: InvoiceView)
    ensures LooksOverdue(inv, clock) ==> r == inv.(status := Overdue)
    ensures !LooksOverdue(inv, clock) ==> r == inv
  {
    if LooksOverdue(inv, clock) then inv.(status := Overdue) else inv
  }

  /** Lines 46-51: the fetched list with each invoice relabelled. */
  function Relabelled(invs: seq<InvoiceView>, clock: Clock): (r: seq<InvoiceView>)
    ensures |r| == |invs| && forall i :: 0 <= i < |invs| ==> r[i] == Relabel(invs[i], clock)
  {
    seq(|invs|, i requires 0 <= i < |invs| => Relabel(invs[i], clock))
  }

  /** Relabelling changes only sent invoices, only their status, and only to
      `overdue`; length and order are kept. */
  lemma RelabelledChangesOnlySent(invs: seq<InvoiceView>, clock: Clock)
    ensures var r := Relabelled(invs, clock);
            forall i :: 0 <= i < |invs| && r[i] != invs[i] ==>
              invs[i].status == Sent && r[i].status == Overdue && r[i].(status := Sent) == invs[i]
  {
  }

  /** Relabelling twice is relabelling once. */
  lemma RelabelledIdempotent(invs: seq<InvoiceView>, clock: Clock)
    ensures Relabelled(Relabelled(invs, clock), clock) == Relabelled(invs, clock)
  {
  }

  /** Every invoice the server's statistics count as overdue is shown as
      overdue here. */
  lemma ServerOverdueShownOverdue(inv: Invoice, clock: Clock)
    requires PyDate(inv.issueDate) && (inv.dueDate.Some? ==> PyDate(inv.dueDate.value))
    requires InvoiceRoutes.OverdueOn(clock.today)(inv)
    ensures Relabel(InvoiceToDict(inv), clock).status == Overdue
  {
  }

  /** The converse fails on the due day itself: once its midnight has
      passed the page shows the invoice as overdue, while the server,
      comparing dates, does not count it until the next day. */
  lemma DueDayShownOverdue(inv: Invoice, clock: Clock)
    requires PyDate(inv.issueDate) && PyDate(clock.today)
    requires inv.status == Sent && inv.dueDate == Some(clock.today) && clock.millisIntoDay > 0
    ensures Relabel(InvoiceToDict(inv), clock).status == Overdue
    ensures !InvoiceRoutes.OverdueOn(clock.today)(inv)
  {
    var v := InvoiceToDict(inv);
    assert ParseIso(v.dueDate.value) == Some(clock.today);
    assert |v.dueDate.value| == 10 by {
      assert v.dueDate.value == Iso(clock.today);
    }
  }

  // ------------------------------------------------------------ the query

  /** The three selects of the filter panel. */
  datatype InvoiceFilters = InvoiceFilters(status: string, projectId: string, clientId: string)

  const NoFilters := InvoiceFilters("", "", "")

  function FilterCandidates(f: InvoiceFilters): seq<Param>
  {
    [Param("status", f.status), Param("project_id", f.projectId), Param("client_id", f.clientId)]
  }

  /** Lines 33-36: `status`, `project_id` and `client_id`, in that order,
      each only when it is set. */
  function InvoiceQuery(f: InvoiceFilters): (r: seq<Param>)
    ensures Param("status", f.status) in r <==> f.status != ""
    ensures Param("project_id", f.projectId) in r <==> f.projectId != ""
    ensures Param("client_id", f.clientId) in r <==> f.clientId != ""
    ensures forall p :: p in r ==> p.key in {"status", "project_id", "client_id"}
    ensures SubsequenceOf(r, FilterCandidates(f))
  {
    QueryOf(FilterCandidates(f))
  }

  // ------------------------------------------------- colours and actions

  const PaidStyle := "bg-green-100 text-green-800"
  const SentStyle := "bg-blue-100 text-blue-800"
  const OverdueStyle := "bg-red-100 text-red-800"
  const DraftStyle := "bg-gray-100 text-gray-800"

  /** Lines 139-146. */
  function StatusColor(status: string): (r: string)
    ensures status == Paid ==> r == PaidStyle
    ensures status == Sent ==> r == SentStyle
    ensures status == Overdue ==> r == OverdueStyle
    ensures status !in {Paid, Sent, Overdue} ==> r == DraftStyle
  {
    if status == Paid then PaidStyle
    else if status == Sent then SentStyle
    else if status == Overdue then OverdueStyle
    else DraftStyle
  }

  /** Two statuses look alike exactly when they are equal or both fall to
      the draft style. */
  lemma StatusColorSeparates(a: string, b: string)
    ensures StatusColor(a) == StatusColor(b) <==>
              a == b || (a !in {Paid, Sent, Overdue} && b !in {Paid, Sent, Overdue})
  {
  }

  /** The buttons a row offers besides viewing and the download. */
  datatype Offered = Offered(markSent: bool, markPaid: bool, edit: bool, delete: bool)

  /** Lines 366-410 (and, with the same tests, InvoiceDetail.jsx:170-187
      and 207-225). */
  function OfferedFor(status: string): (r: Offered)
    ensures r.markSent <==> status == Draft
    ensures r.markPaid <==> status == Sent || status == Overdue
    ensures r.edit <==> status == Draft
    ensures r.delete <==> status == Draft
  {
    Offered(status == Draft, status == Sent || status == Overdue, status == Draft, status == Draft)
  }

  /** No status offers both transitions, a paid invoice offers none, and
      only a draft can be edited or deleted, exactly when it can be sent. */
  lemma OneTransitionAtATime(status: string)
    ensures !(OfferedFor(status).markSent && OfferedFor(status).markPaid)
    ensures status == Paid ==> OfferedFor(status) == Offered(false, false, false, false)
    ensures OfferedFor(status).edit == OfferedFor(status).delete == OfferedFor(status).markSent
  {
  }

  /** The relabel never changes what a row offers: an overdue invoice is
      paid the way a sent one is. */
  lemma RelabelKeepsOffered(inv: InvoiceView, clock: Clock)
    ensures OfferedFor(Relabel(inv, clock).status) == OfferedFor(inv.status)
  {
  }

  // ------------------------------------------------------------ the page

  const LoadFailed := "Failed to load invoices"

  /** The three changes a row's buttons make. */
  datatype Change = Delete | MarkPaid | MarkSent

  function ChangeFailed(c: Change): string
  {
    match c
    case Delete => "Failed to delete invoice"
    case MarkPaid => "Failed to mark invoice as paid"
    case MarkSent => "Failed to mark invoice as sent"
  }

  /** The page's `invoices`, `filters`, `error` and `loading` state. */
  class InvoiceList {
    var invoices: seq<InvoiceView>
    var filters: InvoiceFilters
    var error: Option<string>
    var loading: bool

    /** Lines 11-20. */
    constructor()
      ensures invoices == [] && filters == NoFilters && error.None? && loading
    {
      invoices, filters, error, loading := [], NoFilters, None, true;
    }

    /** Lines 114-120. */
    method ResetFilters()
      modifies this`filters
      ensures filters == NoFilters
    {
      filters := NoFilters;
    }

    /** Lines 28-71, run whenever the filters change: the query it asks
        with, and the relabelled list or, on failure, an empty one and the
        error. A success leaves an earlier error in place. */
    method Load(clock: Clock, reply: Outcome<seq<InvoiceView>>) returns (query: seq<Param>)
      modifies this`invoices, this`error, this`loading
      ensures query == InvoiceQuery(filters)
      ensures !loading
      ensures reply.Success? ==> invoices == Relabelled(reply.payload, clock) && error == old(error)
      ensures reply.Failure? ==> invoices == [] && error == Some(LoadFailed)
    {
      loading := true;
      query := InvoiceQuery(filters);
      if reply.Success? {
        invoices := Relabelled(reply.payload, clock);
      } else {
        error := Some(LoadFailed);
        invoices := [];
      }
      loading := false;
    }

    /** Lines 73-112: a delete asks for confirmation first; once the server
        has made the change the list is fetched again, with no query and no
        relabel. Whichever request fails sets the server's message, or the
        change's own. `reload` is the query the list is fetched with, if
        it is. */
    method Apply(change: Change, confirmed: bool, server: Outcome<()>, reloaded: Outcome<seq<InvoiceView>>)
      returns (reload: Option<seq<Param>>)
      modifies this`invoices, this`error
      ensures change == Delete && !confirmed ==> reload.None? && invoices == old(invoices) && error == old(error)
      ensures change != Delete || confirmed ==>
                && (reload.Some? <==> server.Success?)
                && (reload.Some? ==> reload.value == [])
                && (server.Failure? ==>
                      invoices == old(invoices) && error == Some(ServerMessageOr(server.body, ChangeFailed(change))))
                && (server.Success? && reloaded.Success? ==> invoices == reloaded.payload && error == old(error))
                && (server.Success? && reloaded.Failure? ==>
                      invoices == old(invoices) && error == Some(ServerMessageOr(reloaded.body, ChangeFailed(change))))
    {
      reload := None;
      if change == Delete && !confirmed {
        return;
      }
      if server.Failure? {
        error := Some(ServerMessageOr(server.body, ChangeFailed(change)));
        return;
      }
      reload := Some([]);
      match reloaded
      case Success(fetched) =>
        invoices := fetched;
      case Failure(body) =>
        error := Some(ServerMessageOr(body, ChangeFailed(change)));
    }
  }
}
