/** The page of one invoice (frontend/src/pages/InvoiceDetail.jsx): it loads
    the invoice, then its project, then that project's client, relabels a
    sent invoice whose due day has begun, and replaces what it shows with
    the server's copy after marking the invoice sent or paid. Colours and
    buttons follow the same tests as the list page. */
module InvoiceDetailPage {
  import opened Common
  import opened Listings
  import opened InvoiceModel
  import opened InvoicesPage

  const DetailLoadFailed := "Failed to load invoice details"
  const DeleteFailed := "Failed to delete invoice"
  const MarkSentFailed := "Failed to mark invoice as sent"
  const MarkPaidFailed := "Failed to mark invoice as paid"
  const ListPath := "/invoices"

  /** The GET requests the page makes, in order. */
  datatype Request = InvoiceAt(id: string) | ProjectAt(projectId: int) | ClientAt(clientId: int)

  /** The page's `invoice`, `project`, `client`, `error` and `loading`
      state, for the invoice whose id is in the address. */
  class InvoiceDetail {
    const id: string
    var invoice: Option<InvoiceView>
    var project: Option<ProjectRef>
    var client: Option<ClientRef>
    var error: Option<string>
    var loading: bool

    /** Lines 18-24. */
    constructor(id: string)
      ensures this.id == id && invoice.None? && project.None? && client.None? && error.None? && loading
    {
      this.id := id;
      invoice, project, client, error, loading := None, None, None, None, true;
    }

    /** Lines 27-59: each request waits for the one before and needs its
        answer; the first failure stops the chain, keeps what was already
        shown and sets the error. */
    method Load(clock: Clock, invoiceReply: Outcome<InvoiceView>, projectReply: Outcome<ProjectRef>,
                clientReply: Outcome<ClientRef>) returns (requested: seq<Request>)
      modifies this`invoice, this`project, this`client, this`error, this`loading
      ensures !loading
      ensures invoiceReply.Failure? ==>
                && requested == [InvoiceAt(id)] && error == Some(DetailLoadFailed)
                && invoice == old(invoice) && project == old(project) && client == old(client)
      ensures invoiceReply.Success? ==>
                && invoice == Some(Relabel(invoiceReply.payload, clock))
                && |requested| >= 2 && requested[..2] == [InvoiceAt(id), ProjectAt(invoiceReply.payload.projectId)]
      ensures invoiceReply.Success? && projectReply.Failure? ==>
                |requested| == 2 && error == Some(DetailLoadFailed) && project == old(project) && client == old(client)
      ensures invoiceReply.Success? && projectReply.Success? ==>
                && requested == [InvoiceAt(id), ProjectAt(invoiceReply.payload.projectId),
                                 ClientAt(projectReply.payload.clientId)]
                && project == Some(projectReply.payload)
      ensures invoiceReply.Success? && projectReply.Success? && clientReply.Failure? ==>
                error == Some(DetailLoadFailed) && client == old(client)
      ensures invoiceReply.Success? && projectReply.Success? && clientReply.Success? ==>
                client == Some(clientReply.payload) && error == old(error)
    {
      loading := true;
      requested := [InvoiceAt(id)];
      if invoiceReply.Failure? {
        error := Some(DetailLoadFailed);
        loading := false;
        return;
      }
      invoice := Some(Relabel(invoiceReply.payload, clock));
      requested := requested + [ProjectAt(invoiceReply.payload.projectId)];
      if projectReply.Failure? {
        error := Some(DetailLoadFailed);
        loading := false;
        return;
      }
      project := Some(projectReply.payload);
      requested := requested + [ClientAt(projectReply.payload.clientId)];
      if clientReply.Failure? {
        error := Some(DetailLoadFailed);
        loading := false;
        return;
      }
      client := Some(clientReply.payload);
      loading := false;
    }

    /** Lines 62-72: after confirmation the invoice is deleted and the page
        leaves for the list; a failure stays here with the error. */
    method Delete(confirmed: bool, reply: Outcome<()>) returns (navigateTo: Option<string>)
      modifies this`error
      ensures !confirmed ==> navigateTo.None? && error == old(error)
      ensures confirmed && reply.Success? ==> navigateTo == Some(ListPath) && error == old(error)
      ensures confirmed && reply.Failure? ==> navigateTo.None? && error == Some(DeleteFailed)
    {
      navigateTo := None;
      if !confirmed {
        return;
      }
      if reply.Success? {
        navigateTo := Some(ListPath);
      } else {
        error := Some(DeleteFailed);
      }
    }

    /** Lines 75-83: the invoice the server returns replaces the one shown,
        as it comes, with no relabel. */
    method MarkSent(reply: Outcome<InvoiceView>)
      modifies this`invoice, this`error
      ensures reply.Success? ==> invoice == Some(reply.payload) && error == old(error)
      ensures reply.Failure? ==> invoice == old(invoice) && error == Some(MarkSentFailed)
    {
      if reply.Success? {
        invoice := Some(reply.payload);
      } else {
        error := Some(MarkSentFailed);
      }
    }

    /** Lines 86-94, the same for marking paid. */
    method MarkPaid(reply: Outcome<InvoiceView>)
      modifies this`invoice, this`error
      ensures reply.Success? ==> invoice == Some(reply.payload) && error == old(error)
      ensures reply.Failure? ==> invoice == old(invoice) && error == Some(MarkPaidFailed)
    {
      if reply.Success? {
        invoice := Some(reply.payload);
      } else {
        error := Some(MarkPaidFailed);
      }
    }
  }
}
