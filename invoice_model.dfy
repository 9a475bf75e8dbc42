/** The invoice row's computed properties and its JSON form (models/invoice.py). */
module InvoiceModel {
  import opened Common
  import opened Calendar
  import opened Grouping
  import opened Ledger

  /** The status column's default. */
  const DefaultStatus := "draft"

  /** `InvoiceItem.total`. */
  function ItemTotal(it: Item): real
  {
    it.quantity * it.unitPrice
  }

  /** `Invoice.total_amount`: `sum(item.total for item in self.items)`. */
  function TotalAmount(items: seq<Item>): real
  {
    SumOf(items, ItemTotal)
  }

  lemma TotalAmountEmpty()
    ensures TotalAmount([]) == 0.0
  {
  }

  /** Adding a line adds its total; every line counts exactly once. */
  lemma TotalAmountAppend(items: seq<Item>, more: seq<Item>)
    ensures TotalAmount(items + more) == TotalAmount(items) + TotalAmount(more)
  {
    SumOfAppend(items, more, ItemTotal);
  }

  /** A line with a zero quantity or a zero price adds nothing. */
  lemma ZeroLineAddsNothing(items: seq<Item>, it: Item)
    requires it.quantity == 0.0 || it.unitPrice == 0.0
    ensures TotalAmount(items + [it]) == TotalAmount(items)
  {
    assert (items + [it])[..|items|] == items;
  }

  datatype ItemView = ItemView(description: string, quantity: real, unitPrice: real, total: real)

  datatype InvoiceView = InvoiceView(id: int, projectId: int, number: string,
                                     issueDate: Option<string>, dueDate: Option<string>,
                                     status: string, notes: string, totalAmount: real,
                                     items: seq<ItemView>)

  function ItemToDict(it: Item): (v: ItemView)
    ensures v.total == v.quantity * v.unitPrice
    ensures v.description == it.description && v.quantity == it.quantity && v.unitPrice == it.unitPrice
  {
    ItemView(it.description, it.quantity, it.unitPrice, ItemTotal(it))
  }

  function ItemsToDict(items: seq<Item>): (r: seq<ItemView>)
    ensures |r| == |items|
    ensures forall i :: 0 <= i < |items| ==> r[i] == ItemToDict(items[i])
  {
    if items == [] then [] else ItemsToDict(items[..|items| - 1]) + [ItemToDict(items[|items| - 1])]
  }

  function ViewTotal(v: ItemView): real
  {
    v.total
  }

  lemma {:induction false} ViewTotalsMatch(items: seq<Item>)
    ensures SumOf(ItemsToDict(items), ViewTotal) == TotalAmount(items)
    decreases |items|
  {
    if items != [] {
      var init := items[..|items| - 1];
      var views := ItemsToDict(items);
      assert views[..|views| - 1] == ItemsToDict(init);
      ViewTotalsMatch(init);
    }
  }

  lemma OptionalRoundTrip(d: Option<Date>)
    requires d.Some? ==> PyDate(d.value)
    ensures d.Some? ==> ParseIso(Iso(d.value)) == d
  {
    if d.Some? {
      ParseIsoRoundTrip(d.value);
    }
  }

  /** `Invoice.to_dict()`: its `total_amount` is the sum of the `total`s it
      lists, each line's total is quantity times price, and the dates are the
      ISO text that reads back as the stored dates. */
  function InvoiceToDict(inv: Invoice): (v: InvoiceView)
    requires PyDate(inv.issueDate) && (inv.dueDate.Some? ==> PyDate(inv.dueDate.value))
    ensures v.totalAmount == SumOf(v.items, ViewTotal)
    ensures |v.items| == |inv.items|
    ensures forall i :: 0 <= i < |v.items| ==> v.items[i] == ItemToDict(inv.items[i])
    ensures v.issueDate.Some? && ParseIso(v.issueDate.value) == Some(inv.issueDate)
    ensures v.dueDate.None? <==> inv.dueDate.None?
    ensures v.dueDate.Some? ==> ParseIso(v.dueDate.value) == inv.dueDate
    ensures v.status == inv.status && v.number == inv.number
  {
    ViewTotalsMatch(inv.items);
    ParseIsoRoundTrip(inv.issueDate);
    OptionalRoundTrip(inv.dueDate);
    InvoiceView(inv.id, inv.projectId, inv.number, Some(Iso(inv.issueDate)),
                if inv.dueDate.Some? then Some(Iso(inv.dueDate.value)) else None,
                inv.status, inv.notes, TotalAmount(inv.items), ItemsToDict(inv.items))
  }
}
