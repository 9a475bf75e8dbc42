/** The invoice editor page (frontend/src/pages/InvoiceForm.jsx): the list of
    line items the user edits, its running total, the lines generated from
    tracked time, and the validation made before the invoice is sent. Line items
    are objects: editing one changes it in place, wherever it is referenced. */
module InvoiceEditor {
  import opened Common
  import opened Calendar
  import opened Grouping

  const NoItems := "At least one invoice item is required"
  const IncompleteItems := "All invoice items must have a description and quantity"

  /** What a date input receives: nothing, a string from the server, or a
      date object. */
  datatype DateValue = NoDate | DateText(s: string) | DateObject(d: Date)

  /** Lines 12-15: empty for a falsy value, the first ten characters of a
      string, and `yyyy-MM-dd` for a date object. */
  function FormatDateForInput(v: DateValue): (r: string)
    requires v.DateObject? ==> PyDate(v.d)
    ensures v.NoDate? || v == DateText("") ==> r == ""
    ensures v.DateText? ==> |r| == Min(|v.s|, 10) && r == v.s[..|r|]
    ensures v.DateObject? ==> r == Iso(v.d) && ParseIso(r) == Some(v.d)
  {
    match v
    case NoDate => ""
    case DateText(s) => s[..Min(|s|, 10)]
    case DateObject(d) => ParseIsoRoundTrip(d); Iso(d)
  }

  function Min(a: int, b: int): int
  {
    if a <= b then a else b
  }

  /** A project of the select box. */
  datatype ProjectChoice = ProjectChoice(id: nat, hourlyRate: Option<real>)

  /** `projects.find(p => p.id.toString() === selected)`: the position of
      the first project whose id, as text, is the selected value. */
  function FindProject(projects: seq<ProjectChoice>, selected: string): (r: Option<nat>)
    ensures r.None? <==> forall i :: 0 <= i < |projects| ==> NatToString(projects[i].id) != selected
    ensures r.Some? ==> && r.value < |projects| && NatToString(projects[r.value].id) == selected
                        && forall j :: 0 <= j < r.value ==> NatToString(projects[j].id) != selected
  {
    if projects == [] then None
    else if NatToString(projects[0].id) == selected then Some(0)
    else match FindProject(projects[1..], selected)
      case None => None
      case Some(i) => Some(i + 1)
  }

  /** Lines 138-141: that project's rate, or 0 when there is none or its
      rate is null or 0. */
  function ProjectRate(projects: seq<ProjectChoice>, selected: string): (r: real)
    ensures FindProject(projects, selected).None? ==> r == 0.0
    ensures FindProject(projects, selected).Some? ==>
              r == OrElse(projects[FindProject(projects, selected).value].hourlyRate, 0.0)
  {
    match FindProject(projects, selected)
    case None => 0.0
    case Some(i) => OrElse(projects[i].hourlyRate, 0.0)
  }

  // ----------------------------------------------------------------- rows

  /** A line item's fields; `total` is absent on a row that never had one. */
  datatype ItemRow = ItemRow(description: string, quantity: real, unitPrice: real, total: Option<real>)

  /** Lines 29 and 144: a blank row; a row added later is priced at the
      project's rate but its total stays 0 until it is edited. */
  function BlankRow(price: real): ItemRow
  {
    ItemRow("", 1.0, price, Some(0.0))
  }

  /** `item.total || 0`. */
  function TotalOrZero(row: ItemRow): real
  {
    match row.total
    case None => 0.0
    case Some(t) => t
  }

  /** Lines 160-162: the stored totals added up, a missing one counting 0. */
  function CalculateTotal(rows: seq<ItemRow>): (r: real)
    ensures rows == [] ==> r == 0.0
  {
    SumOf(rows, TotalOrZero)
  }

  /** A new row adds nothing to the total, whatever its price. */
  lemma AddedRowAddsNothing(rows: seq<ItemRow>, price: real)
    ensures CalculateTotal(rows + [BlankRow(price)]) == CalculateTotal(rows)
  {
    SumOfAppend(rows, [BlankRow(price)], TotalOrZero);
    assert [BlankRow(price)][..0] == [];
  }

  /** Removing a row takes exactly its stored total off. */
  lemma RemovedRowTotal(rows: seq<ItemRow>, i: nat)
    requires i < |rows|
    ensures CalculateTotal(rows[..i] + rows[i + 1..]) == CalculateTotal(rows) - TotalOrZero(rows[i])
  {
    assert rows == rows[..i] + [rows[i]] + rows[i + 1..];
    SumOfAppend(rows[..i] + [rows[i]], rows[i + 1..], TotalOrZero);
    SumOfAppend(rows[..i], [rows[i]], TotalOrZero);
    SumOfAppend(rows[..i], rows[i + 1..], TotalOrZero);
    assert [rows[i]][..0] == [];
  }

  /** Replacing one row changes the total by the change in its own total. */
  lemma ReplacedRowTotal(rows: seq<ItemRow>, i: nat, row: ItemRow)
    requires i < |rows|
    ensures CalculateTotal(rows[i := row]) == CalculateTotal(rows) - TotalOrZero(rows[i]) + TotalOrZero(row)
  {
    RemovedRowTotal(rows, i);
    RemovedRowTotal(rows[i := row], i);
    assert rows[i := row][..i] == rows[..i];
    assert rows[i := row][i + 1..] == rows[i + 1..];
  }

  /** Where `splice(index, 1)` starts: a negative index counts from the
      end, and one past the end removes nothing. */
  function SpliceStart(n: nat, index: int): (r: nat)
    ensures r <= n
  {
    if index < 0 then (if n + index < 0 then 0 else n + index)
    else if index > n then n else index
  }

  /** Lines 147-151 on rows: the row at the index, if any, goes; the others
      keep their order. */
  function Spliced<T>(rows: seq<T>, index: int): (r: seq<T>)
    ensures var s := SpliceStart(|rows|, index);
            && (s < |rows| ==> |r| == |rows| - 1 && r == rows[..s] + rows[s + 1..])
            && (s == |rows| ==> r == rows)
  {
    var s := SpliceStart(|rows|, index);
    if s < |rows| then rows[..s] + rows[s + 1..] else rows
  }

  /** Removing an index in range drops exactly that row: every other row
      keeps its place before it or moves one up after it. */
  lemma SplicedInRange<T>(rows: seq<T>, index: nat)
    requires index < |rows|
    ensures var r := Spliced(rows, index);
            && |r| == |rows| - 1
            && (forall j :: 0 <= j < index ==> r[j] == rows[j])
            && (forall j :: index <= j < |r| ==> r[j] == rows[j + 1])
  {
  }

  /** The fields `updateItem` is called with. */
  datatype Field = Description | Quantity | UnitPrice

  /** `parseFloat(value) || 0`: the number read, or 0 when nothing is. */
  function NumberOrZero(parsed: Option<real>): real
  {
    match parsed
    case None => 0.0
    case Some(x) => x
  }

  /** Line 156: a row's amount, its quantity at its unit price. */
  function Amount(quantity: real, unitPrice: real): real
  {
    quantity * unitPrice
  }

  /** Lines 153-158 on one row: the field takes the value (read as a number
      for quantity and price) and the total is recomputed. `parseFloat` is
      the browser's number reader. */
  function UpdatedRow(row: ItemRow, field: Field, value: string, parseFloat: string -> Option<real>): (r: ItemRow)
    ensures r.total == Some(Amount(r.quantity, r.unitPrice))
    ensures field == Description ==> r.description == value && r.quantity == row.quantity && r.unitPrice == row.unitPrice
    ensures field == Quantity ==> r.quantity == NumberOrZero(parseFloat(value))
                                  && r.description == row.description && r.unitPrice == row.unitPrice
    ensures field == UnitPrice ==> r.unitPrice == NumberOrZero(parseFloat(value))
                                   && r.description == row.description && r.quantity == row.quantity
  {
    var changed := (match field
      case Description => row.(description := value)
      case Quantity => row.(quantity := NumberOrZero(parseFloat(value)))
      case UnitPrice => row.(unitPrice := NumberOrZero(parseFloat(value))));
    changed.(total := Some(Amount(changed.quantity, changed.unitPrice)))
  }

  /** Editing a row twice with the same value is editing it once. */
  lemma UpdateRowIdempotent(row: ItemRow, field: Field, value: string, parseFloat: string -> Option<real>)
    ensures UpdatedRow(UpdatedRow(row, field, value, parseFloat), field, value, parseFloat)
            == UpdatedRow(row, field, value, parseFloat)
  {
  }

  /** The entries the page lists for the selected project. */
  datatype FormEntry = FormEntry(date: string, hours: real, description: string)

  /** Line 168: the first ten characters of the entry's date. */
  function DayKey(e: FormEntry): string
  {
    e.date[..Min(|e.date|, 10)]
  }

  function EntryHours(e: FormEntry): real
  {
    e.hours
  }

  function EntryDescriptions(es: seq<FormEntry>): (r: seq<string>)
    ensures |r| == |es| && forall i :: 0 <= i < |es| ==> r[i] == es[i].description
  {
    if es == [] then [] else [es[0].description] + EntryDescriptions(es[1..])
  }

  /** Lines 174-183 for the day `day`: its entries' hours at the rate. */
  function DayRow(es: seq<FormEntry>, day: string, rate: real): ItemRow
  {
    var group := GroupOf(es, DayKey, day);
    ItemRow("Work on " + day + ": " + Join(EntryDescriptions(group), ", "), SumOf(group, EntryHours), rate,
            Some(Amount(SumOf(group, EntryHours), rate)))
  }

  /** Lines 167-183: one row per day the entries fall on, in order of first
      appearance. */
  function GeneratedRows(es: seq<FormEntry>, rate: real): (r: seq<ItemRow>)
    ensures var days := DistinctKeys(es, DayKey);
            |r| == |days| && forall i :: 0 <= i < |days| ==> r[i] == DayRow(es, days[i], rate)
  {
    var days := DistinctKeys(es, DayKey);
    seq(|days|, i requires 0 <= i < |days| => DayRow(es, days[i], rate))
  }

  function RowQuantity(row: ItemRow): real
  {
    row.quantity
  }

  /** Generating from time bills every hour once: the quantities add up to
      the hours of all entries. */
  lemma GeneratedRowsCoverHours(es: seq<FormEntry>, rate: real)
    ensures SumOf(GeneratedRows(es, rate), RowQuantity) == SumOf(es, EntryHours)
  {
    var days := DistinctKeys(es, DayKey);
    var rows := GeneratedRows(es, rate);
    SumOfPointwise(rows, RowQuantity, days, GroupSum(es, DayKey, EntryHours));
    SumGroupsAsSum(days, es, DayKey, EntryHours);
    SumGroupsTotal(es, DayKey, EntryHours);
  }

  /** There are as many generated rows as distinct days, and each row's
      total is its quantity at the rate. */
  lemma GeneratedRowsConsistent(es: seq<FormEntry>, rate: real)
    ensures var rows := GeneratedRows(es, rate);
            && |rows| == |DistinctKeys(es, DayKey)|
            && forall i :: 0 <= i < |rows| ==>
                 rows[i].unitPrice == rate && rows[i].total == Some(Amount(rows[i].quantity, rate))
  {
    var days := DistinctKeys(es, DayKey);
    var rows := GeneratedRows(es, rate);
    forall i | 0 <= i < |rows|
      ensures rows[i].unitPrice == rate && rows[i].total == Some(Amount(rows[i].quantity, rate))
    {
      var group := GroupOf(es, DayKey, days[i]);
      assert rows[i] == DayRow(es, days[i], rate);
      assert rows[i].quantity == SumOf(group, EntryHours);
    }
  }

  /** An item the form accepts: a description and a positive quantity. */
  predicate Complete(row: ItemRow)
  {
    row.description != "" && row.quantity > 0.0
  }

  /** Lines 99-110: an empty list is refused, then the first incomplete row
      refuses the whole list; `None` lets the invoice be sent. */
  method CheckItems(rows: seq<ItemRow>) returns (error: Option<string>)
    ensures rows == [] ==> error == Some(NoItems)
    ensures rows != [] && (exists i :: 0 <= i < |rows| && !Complete(rows[i])) ==> error == Some(IncompleteItems)
    ensures error.None? <==> rows != [] && forall i :: 0 <= i < |rows| ==> Complete(rows[i])
  {
    if |rows| == 0 {
      return Some(NoItems);
    }
    for i := 0 to |rows|
      invariant forall j :: 0 <= j < i ==> Complete(rows[j])
    {
      if rows[i].description == "" || rows[i].quantity <= 0.0 {
        return Some(IncompleteItems);
      }
    }
    error := None;
  }

  // ------------------------------------------------------------- the editor

  /** One line item object. */
  class LineItem {
    var description: string
    var quantity: real
    var unitPrice: real
    var total: Option<real>

    function Row(): ItemRow
      reads this
    {
      ItemRow(description, quantity, unitPrice, total)
    }

    constructor(row: ItemRow)
      ensures Row() == row
    {
      description, quantity, unitPrice, total := row.description, row.quantity, row.unitPrice, row.total;
    }

    /** Lines 155-156: assigns the field, then the total. */
    method Update(field: Field, value: string, parseFloat: string -> Option<real>)
      modifies this
      ensures Row() == UpdatedRow(old(Row()), field, value, parseFloat)
    {
      if field == Description {
        description := value;
      } else if field == Quantity {
        quantity := NumberOrZero(parseFloat(value));
      } else {
        unitPrice := NumberOrZero(parseFloat(value));
      }
      total := Some(Amount(quantity, unitPrice));
    }
  }

  function RowsOf(objs: seq<LineItem>): (r: seq<ItemRow>)
    reads set o | o in objs
    ensures |r| == |objs| && forall i :: 0 <= i < |objs| ==> r[i] == objs[i].Row()
  {
    if objs == [] then [] else [objs[0].Row()] + RowsOf(objs[1..])
  }

  /** A fresh, distinct item object for each row, in order. */
  method NewItems(rows: seq<ItemRow>) returns (made: seq<LineItem>)
    ensures |made| == |rows|
    ensures forall j :: 0 <= j < |rows| ==> fresh(made[j]) && made[j].Row() == rows[j]
    ensures forall j, k :: 0 <= j < k < |made| ==> made[j] != made[k]
  {
    made := [];
    for i := 0 to |rows|
      invariant |made| == i
      invariant forall j :: 0 <= j < i ==> fresh(made[j]) && made[j].Row() == rows[j]
      invariant forall j, k :: 0 <= j < k < i ==> made[j] != made[k]
    {
      var item := new LineItem(rows[i]);
      made := made + [item];
    }
  }

  /** The `items` state of the page: a list of distinct item objects. */
  class ItemList {
    var items: seq<LineItem>

    ghost predicate Valid()
      reads this
    {
      forall i, j :: 0 <= i < j < |items| ==> items[i] != items[j]
    }

    function Rows(): seq<ItemRow>
      reads this, set o | o in items
    {
      RowsOf(items)
    }

    /** Line 28-30: one blank row. */
    constructor()
      ensures Valid() && Rows() == [BlankRow(0.0)] && fresh(items[0])
    {
      var first := new LineItem(BlankRow(0.0));
      items := [first];
    }

    /** Lines 143-145: appends a blank row priced at the selected project's
        rate. */
    method AddItem(projects: seq<ProjectChoice>, selected: string)
      requires Valid()
      modifies this
      ensures Valid()
      ensures Rows() == old(Rows()) + [BlankRow(ProjectRate(projects, selected))]
    {
      var item := new LineItem(BlankRow(ProjectRate(projects, selected)));
      items := items + [item];
    }

    /** Lines 147-151: a copy of the list without the row at `index`. */
    method RemoveItem(index: int)
      requires Valid()
      modifies this
      ensures Valid()
      ensures items == Spliced(old(items), index)
      ensures Rows() == Spliced(old(Rows()), index)
    {
      var s := SpliceStart(|items|, index);
      if s < |items| {
        items := items[..s] + items[s + 1..];
      }
    }

    /** Lines 153-158: the row object at `index` is changed in place, and so
        is every reference to it; the other rows stay as they were. */
    method UpdateItem(index: nat, field: Field, value: string, parseFloat: string -> Option<real>)
      requires Valid() && index < |items|
      modifies items[index]
      ensures Valid()
      ensures Rows() == old(Rows())[index := UpdatedRow(old(Rows())[index], field, value, parseFloat)]
    {
      items[index].Update(field, value, parseFloat);
    }

    /** Lines 164-186: with a project selected and entries listed, the rows
        are replaced by new ones generated from the entries; otherwise
        nothing happens. */
    method GenerateFromTime(projects: seq<ProjectChoice>, selected: string, entries: seq<FormEntry>)
      requires Valid()
      modifies this
      ensures Valid()
      ensures selected == "" || entries == [] ==> items == old(items)
      ensures selected != "" && entries != [] ==>
                Rows() == GeneratedRows(entries, ProjectRate(projects, selected))
                && forall i :: 0 <= i < |items| ==> fresh(items[i])
    {
      if selected == "" || |entries| == 0 {
        return;
      }
      var rows := GeneratedRows(entries, ProjectRate(projects, selected));
      var made := NewItems(rows);
      items := made;
      assert forall j :: 0 <= j < |rows| ==> RowsOf(made)[j] == rows[j];
    }
  }
}
