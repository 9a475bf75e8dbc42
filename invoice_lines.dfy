/** What the invoice routes (backend/routes/invoices.py) compute before they
    touch the store: invoice numbers, the lines that bill time entries, and
    the date read back from such a line. */
module InvoiceLines {
  import opened Common
  import opened Calendar
  import opened Grouping
  import opened Ledger
  import opened SqlLike
  import opened InvoiceModel
  import ProjectModel

  function InvoiceId(inv: Invoice): int
  {
    inv.id
  }

  // -------------------------------------------------------------- numbering

  /** `f'INV-{user_id}-{year}-'`. */
  function InvoicePrefix(uid: nat, year: nat): string
  {
    "INV-" + NatToString(uid) + "-" + NatToString(year) + "-"
  }

  lemma PrefixHasNoWildcards(uid: nat, year: nat)
    ensures NoWildcards(InvoicePrefix(uid, year))
  {
    var a, b := NatToString(uid), NatToString(year);
    var s := InvoicePrefix(uid, year);
    forall i | 0 <= i < |s| ensures s[i] != '%' && s[i] != '_' {
      if 4 <= i < 4 + |a| {
        assert s[i] == a[i - 4];
      } else if 5 + |a| <= i < 5 + |a| + |b| {
        assert s[i] == b[i - 5 - |a|];
      }
    }
  }

  /** `Invoice.invoice_number.like(prefix + '%')`, as a named test. */
  function CarriesPrefix(prefix: string): Invoice -> bool
  {
    (inv: Invoice) => ILike(prefix + "%", inv.number)
  }

  /** The number lines 90-96 and 510-516 compute: one more than the count of
      the user's invoices whose number carries the prefix, zero-padded to at
      least four digits. */
  function InvoiceNumberAsWritten(prefix: string, mine: seq<Invoice>): string
  {
    prefix + ZeroPad(|Where(mine, CarriesPrefix(prefix))| + 1, 4)
  }

  lemma InvoiceNumberAsWrittenFormat(prefix: string, mine: seq<Invoice>)
    ensures var r := InvoiceNumberAsWritten(prefix, mine);
            StartsWith(r, prefix) && AllDigits(r[|prefix|..]) && |r[|prefix|..]| >= 4
            && DigitsValue(r[|prefix|..]) == |Where(mine, CarriesPrefix(prefix))| + 1
  {
    var n := |Where(mine, CarriesPrefix(prefix))| + 1;
    var r := InvoiceNumberAsWritten(prefix, mine);
    assert r[..|prefix|] == prefix && r[|prefix|..] == ZeroPad(n, 4);
    ZeroPadValue(n, 4);
  }

  /** A number that carries the prefix is counted. */
  lemma PrefixedNumberIsCounted(prefix: string, rest: string)
    requires NoWildcards(prefix)
    ensures ILike(prefix + "%", prefix + rest)
  {
    var s := prefix + rest;
    assert s[..|prefix|] == prefix && s[|prefix|..] == rest;
    AnyMatchesPercent(rest);
    LiteralPrefix(prefix, "%", s);
  }

  /** The count is not a sequence number: after `...-0001` is deleted, the
      remaining `...-0002` is counted once and the next number is `...-0002`
      again, which the unique column then refuses. */
  lemma AsWrittenNumberRepeats(prefix: string, second: Invoice)
    requires NoWildcards(prefix) && second.number == prefix + ZeroPad(2, 4)
    ensures InvoiceNumberAsWritten(prefix, [second]) == second.number
  {
    PrefixedNumberIsCounted(prefix, ZeroPad(2, 4));
    assert Where([second], CarriesPrefix(prefix)) == [second] by {
      assert [second][..0] == [];
    }
  }

  /** The sequence number a stored number carries after the prefix (0 when
      it carries none). */
  function SequenceOf(prefix: string, number: string): nat
  {
    if StartsWith(number, prefix) && AllDigits(number[|prefix|..]) then DigitsValue(number[|prefix|..]) else 0
  }

  function MaxSequence(prefix: string, numbers: seq<string>): (m: nat)
    ensures forall n :: n in numbers ==> SequenceOf(prefix, n) <= m
  {
    if numbers == [] then 0
    else
      var init := MaxSequence(prefix, numbers[..|numbers| - 1]);
      var last := SequenceOf(prefix, numbers[|numbers| - 1]);
      assert numbers == numbers[..|numbers| - 1] + [numbers[|numbers| - 1]];
      if last > init then last else init
  }

  /** The invoice number as intended: the prefix and, zero-padded to at least
      four digits, one more than the largest sequence number already used
      with that prefix, so it is never one of the stored numbers. */
  function InvoiceNumber(prefix: string, numbers: seq<string>): (r: string)
    ensures StartsWith(r, prefix) && AllDigits(r[|prefix|..]) && |r[|prefix|..]| >= 4
    ensures SequenceOf(prefix, r) == MaxSequence(prefix, numbers) + 1
    ensures r !in numbers
  {
    var n := MaxSequence(prefix, numbers) + 1;
    var r := prefix + ZeroPad(n, 4);
    assert r[..|prefix|] == prefix && r[|prefix|..] == ZeroPad(n, 4);
    ZeroPadValue(n, 4);
    r
  }

  function Numbers(invs: seq<Invoice>): (r: seq<string>)
    ensures |r| == |invs| && forall i :: 0 <= i < |invs| ==> r[i] == invs[i].number
  {
    if invs == [] then [] else [invs[0].number] + Numbers(invs[1..])
  }

  predicate AnyInvoice(inv: Invoice)
  {
    true
  }

  /** Every stored invoice number. */
  function StoredNumbers(invoices: map<int, Invoice>, bound: int): (r: seq<string>)
    requires forall k :: k in invoices ==> 1 <= k < bound && invoices[k].id == k
    ensures forall k :: k in invoices ==> invoices[k].number in r
  {
    var all := Select(invoices, bound, AnyInvoice, InvoiceId);
    var r := Numbers(all);
    forall k | k in invoices ensures invoices[k].number in r {
      var i :| 0 <= i < |all| && all[i] == invoices[k];
      assert r[i] == invoices[k].number;
    }
    r
  }

  /** The number a new invoice of user `uid` gets in `year`: new across the
      whole table. */
  function NextNumber(invoices: map<int, Invoice>, bound: int, uid: nat, year: nat): (r: string)
    requires forall k :: k in invoices ==> 1 <= k < bound && invoices[k].id == k
    ensures StartsWith(r, InvoicePrefix(uid, year))
    ensures forall k :: k in invoices ==> invoices[k].number != r
  {
    InvoiceNumber(InvoicePrefix(uid, year), StoredNumbers(invoices, bound))
  }

  // ------------------------------------------------------------------ lines

  /** One element of a body's `items`; `None` is an absent key. */
  datatype ItemPayload = ItemPayload(description: Option<string>, quantity: Option<real>, unitPrice: Option<real>)

  /** A line from the body: description '', quantity 1 and unit price 0 by default. */
  function ItemFrom(p: ItemPayload): (it: Item)
    ensures p.description.None? ==> it.description == ""
    ensures p.quantity.None? ==> it.quantity == 1.0
    ensures p.unitPrice.None? ==> it.unitPrice == 0.0
  {
    Item(OrElse(p.description, ""), OrElse(p.quantity, 1.0), OrElse(p.unitPrice, 0.0))
  }

  function ItemsFrom(ps: seq<ItemPayload>): (r: seq<Item>)
    ensures |r| == |ps| && forall i :: 0 <= i < |ps| ==> r[i] == ItemFrom(ps[i])
  {
    if ps == [] then [] else [ItemFrom(ps[0])] + ItemsFrom(ps[1..])
  }

  /** `project.hourly_rate or current_user.hourly_rate or 0`. */
  function BillingRate(p: Project, u: User): (r: real)
    ensures p.hourlyRate.Some? && p.hourlyRate.value != 0.0 ==> r == p.hourlyRate.value
    ensures !(p.hourlyRate.Some? && p.hourlyRate.value != 0.0) ==> r == u.hourlyRate
  {
    if p.hourlyRate.Some? && p.hourlyRate.value != 0.0 then p.hourlyRate.value
    else if u.hourlyRate != 0.0 then u.hourlyRate
    else 0.0
  }

  /** `f"Time: {entry.description} ({entry.date.isoformat()})"`. */
  function TimeItemText(e: TimeEntry): string
    requires PyDate(e.date)
  {
    "Time: " + e.description + " (" + Iso(e.date) + ")"
  }

  function TimeItem(e: TimeEntry, rate: real): Item
    requires PyDate(e.date)
  {
    Item(TimeItemText(e), e.hours, rate)
  }

  function TimeItems(es: seq<TimeEntry>, rate: real): (r: seq<Item>)
    requires forall i :: 0 <= i < |es| ==> PyDate(es[i].date)
    ensures |r| == |es| && forall i :: 0 <= i < |es| ==> r[i] == TimeItem(es[i], rate)
  {
    if es == [] then [] else TimeItems(es[..|es| - 1], rate) + [TimeItem(es[|es| - 1], rate)]
  }

  /** What one entry is billed: its hours at the rate. */
  function BilledAt(rate: real): TimeEntry -> real
  {
    (e: TimeEntry) => e.hours * rate
  }

  lemma TimeItemBilled(e: TimeEntry, rate: real)
    requires PyDate(e.date)
    ensures ItemTotal(TimeItem(e, rate)) == BilledAt(rate)(e)
  {
  }

  lemma TimeItemsLineSum(es: seq<TimeEntry>, rate: real)
    requires forall i :: 0 <= i < |es| ==> PyDate(es[i].date)
    ensures TotalAmount(TimeItems(es, rate)) == SumOf(es, BilledAt(rate))
  {
    var lines := TimeItems(es, rate);
    forall i | 0 <= i < |es| ensures BilledAt(rate)(es[i]) == ItemTotal(lines[i]) {
      TimeItemBilled(es[i], rate);
    }
    SumOfPointwise(es, BilledAt(rate), lines, ItemTotal);
  }

  /** Time lines bill the entries' total hours at the rate. */
  lemma TimeItemsTotal(es: seq<TimeEntry>, rate: real)
    requires forall i :: 0 <= i < |es| ==> PyDate(es[i].date)
    ensures TotalAmount(TimeItems(es, rate)) == SumOf(es, ProjectModel.EntryHours) * rate
  {
    TimeItemsLineSum(es, rate);
    BilledAtTotal(es, rate);
  }

  lemma BilledAtTotal(es: seq<TimeEntry>, rate: real)
    ensures SumOf(es, BilledAt(rate)) == SumOf(es, ProjectModel.EntryHours) * rate
  {
    assert forall e :: e in es ==> BilledAt(rate)(e) == ProjectModel.EntryHours(e) * rate;
    SumOfScaled(es, ProjectModel.EntryHours, BilledAt(rate), rate);
  }

  // ------------------------------------------------- dates in time-line text

  /** The text before the first `c`, all of it when there is none:
      `s.split(c)[0]`. */
  function Before(s: string, c: char): (r: string)
    ensures c !in s ==> r == s
    ensures c in s ==> |r| < |s| && s[|r|] == c && r == s[..|r|] && c !in r
  {
    match IndexOf(s, c)
    case None => s
    case Some(i) => s[..i]
  }

  /** What line 244 reads as the date of a time line:
      `description.split('(')[1].split(')')[0]` parsed with strptime; None
      where that raises (no `(`, or text that is not a date). */
  function TimeItemDateAsWritten(description: string): Option<Date>
  {
    match IndexOf(description, '(')
    case None => None
    case Some(i) => ParseIso(Before(Before(description[i + 1..], '('), ')'))
  }

  /** The date of a time line as intended: the text between the last `(` and
      the `)` after it, which is where line 149 writes the date. */
  function TimeItemDate(description: string): Option<Date>
  {
    match LastIndexOf(description, '(')
    case None => None
    case Some(i) => ParseIso(Before(description[i + 1..], ')'))
  }

  lemma FirstIndexAt(s: string, c: char, k: nat)
    requires k < |s| && s[k] == c && c !in s[..k]
    ensures IndexOf(s, c) == Some(k) && Before(s, c) == s[..k]
  {
    assert s[k] in s;
    var i := IndexOf(s, c).value;
    forall j | 0 <= j < i ensures s[j] != c {
      assert s[..i][j] == s[j];
    }
    forall j | 0 <= j < k ensures s[j] != c {
      assert s[..k][j] == s[j];
    }
  }

  lemma LastIndexAt(s: string, c: char, k: nat)
    requires k < |s| && s[k] == c && c !in s[k + 1..]
    ensures LastIndexOf(s, c) == Some(k)
  {
    assert s[k] in s;
    var i := LastIndexOf(s, c).value;
    forall j | i < j < |s| ensures s[j] != c {
      assert s[i + 1..][j - i - 1] == s[j];
    }
    forall j | k < j < |s| ensures s[j] != c {
      assert s[k + 1..][j - k - 1] == s[j];
    }
  }

  lemma DropAppend(a: string, b: string, k: nat)
    requires k <= |a|
    ensures (a + b)[k..] == a[k..] + b
  {
  }

  lemma IsoHasNoParens(d: Date)
    requires PyDate(d)
    ensures '(' !in Iso(d) && ')' !in Iso(d)
  {
    var s := Iso(d);
    assert forall i :: 0 <= i < |s| ==> IsDigit(s[i]) || s[i] == '-';
  }

  /** Every time line reads back as its entry's date, whatever the
      entry's description says: deleting the invoice finds the entry. */
  lemma TimeItemDateRoundTrip(e: TimeEntry)
    requires PyDate(e.date)
    ensures StartsWith(TimeItemText(e), "Time:")
    ensures TimeItemDate(TimeItemText(e)) == Some(e.date)
  {
    TimeItemTextMarked(e);
    var iso := Iso(e.date);
    var s := TimeItemText(e);
    var k := TimeItemTextTail(e);
    LastIndexAt(s, '(', k);
    FirstIndexAt(iso + ")", ')', |iso|);
    assert (iso + ")")[..|iso|] == iso;
    ParseIsoRoundTrip(e.date);
  }

  lemma TimeItemTextMarked(e: TimeEntry)
    requires PyDate(e.date)
    ensures StartsWith(TimeItemText(e), "Time:")
  {
    assert TimeItemText(e)[..5] == "Time:";
  }

  /** The text ends with `(`, the date and `)`, and the `(` is the last one. */
  lemma TimeItemTextTail(e: TimeEntry) returns (k: nat)
    requires PyDate(e.date)
    ensures k < |TimeItemText(e)| && TimeItemText(e)[k] == '('
    ensures TimeItemText(e)[k + 1..] == Iso(e.date) + ")"
    ensures '(' !in TimeItemText(e)[k + 1..] && ')' !in Iso(e.date) && '(' !in Iso(e.date) + ")"
  {
    var s := TimeItemText(e);
    k := |"Time: " + e.description + " "|;
    IsoHasNoParens(e.date);
    assert s[k] == '(' && s[k + 1..] == Iso(e.date) + ")";
  }

  /** When the description holds no `(`, line 244 finds the date too. */
  lemma TimeItemDateAsWrittenPlain(e: TimeEntry)
    requires PyDate(e.date) && '(' !in e.description
    ensures TimeItemDateAsWritten(TimeItemText(e)) == Some(e.date)
  {
    var iso := Iso(e.date);
    var s := TimeItemText(e);
    var k := |"Time: " + e.description + " "|;
    IsoHasNoParens(e.date);
    assert s[k] == '(' && s[k + 1..] == iso + ")";
    assert '(' !in s[..k] by {
      assert s[..k] == "Time: " + e.description + " ";
    }
    FirstIndexAt(s, '(', k);
    assert '(' !in iso + ")";
    FirstIndexAt(iso + ")", ')', |iso|);
    assert (iso + ")")[..|iso|] == iso;
    ParseIsoRoundTrip(e.date);
  }

  lemma ReadsBug(tail: string)
    ensures TimeItemDateAsWritten("Time: Fix (bug) (" + tail) == None
  {
    var lit := "Time: Fix (bug) (";
    var s := lit + tail;
    assert lit[..10] == "Time: Fix " && lit[10] == '(';
    assert s[..10] == lit[..10] && s[10] == '(';
    assert '(' !in "Time: Fix ";
    FirstIndexAt(s, '(', 10);
    DropAppend(lit, tail, 11);
    var rest := s[11..];
    assert lit[11..] == "bug) (";
    assert rest[..5] == "bug) " && rest[5] == '(';
    assert '(' !in "bug) ";
    FirstIndexAt(rest, '(', 5);
    var first := Before(rest, '(');
    assert first == "bug) ";
    assert first[3] == ')' && first[..3] == "bug";
    assert ')' !in "bug";
    FirstIndexAt(first, ')', 3);
    assert Before(first, ')') == "bug";
  }

  /** With a `(` in the description, line 244 reads the description instead
      of the date, and the entry is never released. */
  lemma TimeItemDateAsWrittenMisses(e: TimeEntry)
    requires PyDate(e.date) && e.description == "Fix (bug)"
    ensures TimeItemDateAsWritten(TimeItemText(e)) == None
    ensures TimeItemDate(TimeItemText(e)) == Some(e.date)
  {
    TimeItemDateRoundTrip(e);
    FixBugText(e);
    ReadsBug(Iso(e.date) + ")");
  }

  lemma FixBugText(e: TimeEntry)
    requires PyDate(e.date) && e.description == "Fix (bug)"
    ensures TimeItemText(e) == "Time: Fix (bug) (" + (Iso(e.date) + ")")
  {
    Regroup("Time: ", e.description, " (", Iso(e.date), ")");
    assert "Time: " + "Fix (bug)" + " (" == "Time: Fix (bug) (";
  }

  lemma Regroup(a: string, b: string, c: string, d: string, e: string)
    ensures a + b + c + d + e == (a + b + c) + (d + e)
  {
  }

  /** A line generated from time carries the `Time:` mark; the per-day lines
      of the from-time route do not, so deleting their invoice releases
      nothing. */
  lemma WorkLinesAreNotTimeLines(s: string)
    ensures !StartsWith("Work on " + s, "Time:")
  {
    assert ("Work on " + s)[0] == 'W';
  }

  // ------------------------------------------------ lines deleting releases

  /** The date `delete_invoice` reads from a line with `read`: only lines
      marked `Time:` are looked at. */
  function TimeLineDate(it: Item, read: string -> Option<Date>): Option<Date>
  {
    if StartsWith(it.description, "Time:") then read(it.description) else None
  }

  /** The dates named by the time lines of `items`. */
  function TimeLineDates(items: seq<Item>, read: string -> Option<Date>): (r: set<Date>)
    ensures forall i :: 0 <= i < |items| && TimeLineDate(items[i], read).Some? ==>
              TimeLineDate(items[i], read).value in r
    ensures forall d :: d in r ==> exists i :: 0 <= i < |items| && TimeLineDate(items[i], read) == Some(d)
  {
    if items == [] then {}
    else
      var init := items[..|items| - 1];
      var last := items[|items| - 1];
      assert forall i :: 0 <= i < |init| ==> init[i] == items[i];
      match TimeLineDate(last, read)
      case None => TimeLineDates(init, read)
      case Some(d) => TimeLineDates(init, read) + {d}
  }

  /** Every entry a time line bills is found again from that line, wherever
      the line sits among the invoice's lines. */
  lemma TimeItemsReleased(base: seq<Item>, es: seq<TimeEntry>, rate: real)
    requires forall i :: 0 <= i < |es| ==> PyDate(es[i].date)
    ensures forall e :: e in es ==> e.date in TimeLineDates(base + TimeItems(es, rate), TimeItemDate)
  {
    var items := base + TimeItems(es, rate);
    forall e | e in es ensures e.date in TimeLineDates(items, TimeItemDate) {
      var i :| 0 <= i < |es| && es[i] == e;
      TimeItemDateRoundTrip(e);
      assert items[|base| + i] == TimeItem(e, rate);
      assert TimeLineDate(items[|base| + i], TimeItemDate) == Some(e.date);
    }
  }

  /** Read as line 244 reads it, the time line of an entry described
      `Fix (bug)` names no date, so deleting its invoice leaves the entry
      invoiced; read from the last `(`, it names the entry's date. */
  lemma AsWrittenReleasesNothing(e: TimeEntry, rate: real)
    requires PyDate(e.date) && e.description == "Fix (bug)"
    ensures TimeLineDates([TimeItem(e, rate)], TimeItemDateAsWritten) == {}
    ensures TimeLineDates([TimeItem(e, rate)], TimeItemDate) == {e.date}
  {
    TimeItemDateAsWrittenMisses(e);
    TimeItemDateRoundTrip(e);
    assert [TimeItem(e, rate)][..0] == [];
  }

  // ------------------------------------------------------ lines per workday

  function Descriptions(es: seq<TimeEntry>): (r: seq<string>)
    ensures |r| == |es| && forall i :: 0 <= i < |es| ==> r[i] == es[i].description
  {
    if es == [] then [] else Descriptions(es[..|es| - 1]) + [es[|es| - 1].description]
  }

  /** `f"Work on {date_str}: {', '.join(descriptions)}"` for one day's
      entries, billing their summed hours at the rate. */
  function WorkItem(day: Date, group: seq<TimeEntry>, rate: real): Item
    requires PyDate(day)
  {
    Item("Work on " + Iso(day) + ": " + Join(Descriptions(group), ", "),
         SumOf(group, ProjectModel.EntryHours), rate)
  }

  /** One line per day of `days`, each for the entries of that day. */
  function WorkItems(es: seq<TimeEntry>, days: seq<Date>, rate: real): (r: seq<Item>)
    requires forall i :: 0 <= i < |days| ==> PyDate(days[i])
    ensures |r| == |days|
    ensures forall i :: 0 <= i < |days| ==> r[i] == WorkItem(days[i], GroupOf(es, EntryDate, days[i]), rate)
  {
    seq(|days|, i requires 0 <= i < |days| => WorkItem(days[i], GroupOf(es, EntryDate, days[i]), rate))
  }

  /** The days the entries fall on, in order of first appearance: the keys of
      `entries_by_date`. */
  function WorkDays(es: seq<TimeEntry>): (r: seq<Date>)
    requires forall i :: 0 <= i < |es| ==> PyDate(es[i].date)
    ensures r == DistinctKeys(es, EntryDate)
    ensures forall i :: 0 <= i < |r| ==> PyDate(r[i])
  {
    var r := DistinctKeys(es, EntryDate);
    forall i | 0 <= i < |r| ensures PyDate(r[i]) {
      assert r[i] in r;
      var j :| 0 <= j < |es| && EntryDate(es[j]) == r[i];
    }
    r
  }

  /** What the line of day `d` bills: the day's hours at the rate. */
  function DayBilled(es: seq<TimeEntry>, rate: real): Date -> real
  {
    (d: Date) => GroupSum(es, EntryDate, ProjectModel.EntryHours)(d) * rate
  }

  lemma WorkItemBilled(es: seq<TimeEntry>, d: Date, rate: real)
    requires PyDate(d)
    ensures ItemTotal(WorkItem(d, GroupOf(es, EntryDate, d), rate)) == DayBilled(es, rate)(d)
  {
    var it := WorkItem(d, GroupOf(es, EntryDate, d), rate);
    assert it.quantity == GroupSum(es, EntryDate, ProjectModel.EntryHours)(d) && it.unitPrice == rate;
  }

  /** Grouping by day loses no hours: the per-day lines bill all the
      entries' hours at the rate. */
  lemma WorkItemsTotal(es: seq<TimeEntry>, rate: real)
    requires forall i :: 0 <= i < |es| ==> PyDate(es[i].date)
    ensures TotalAmount(WorkItems(es, WorkDays(es), rate)) == SumOf(es, ProjectModel.EntryHours) * rate
  {
    WorkItemsBillDays(es, WorkDays(es), rate);
    WorkDaysBilled(es, rate);
  }

  lemma WorkDaysBilled(es: seq<TimeEntry>, rate: real)
    requires forall i :: 0 <= i < |es| ==> PyDate(es[i].date)
    ensures SumOf(WorkDays(es), DayBilled(es, rate)) == SumOf(es, ProjectModel.EntryHours) * rate
  {
    var days := WorkDays(es);
    var billed := SumOf(days, DayBilled(es, rate));
    var perDay := SumOf(days, GroupSum(es, EntryDate, ProjectModel.EntryHours));
    var total := SumOf(es, ProjectModel.EntryHours);
    DaysBilledTotal(es, days, rate);
    assert billed == perDay * rate;
    DaysHoursTotal(es);
    assert perDay == total;
    ScaledEqual(billed, perDay, total, rate);
  }

  lemma DaysHoursTotal(es: seq<TimeEntry>)
    requires forall i :: 0 <= i < |es| ==> PyDate(es[i].date)
    ensures SumOf(WorkDays(es), GroupSum(es, EntryDate, ProjectModel.EntryHours)) == SumOf(es, ProjectModel.EntryHours)
  {
    SumGroupsAsSum(WorkDays(es), es, EntryDate, ProjectModel.EntryHours);
    SumGroupsTotal(es, EntryDate, ProjectModel.EntryHours);
  }

  lemma ScaledEqual(total: real, a: real, b: real, rate: real)
    requires total == a * rate && a == b
    ensures total == b * rate
  {
  }

  lemma WorkItemsBillDays(es: seq<TimeEntry>, days: seq<Date>, rate: real)
    requires forall i :: 0 <= i < |days| ==> PyDate(days[i])
    ensures TotalAmount(WorkItems(es, days, rate)) == SumOf(days, DayBilled(es, rate))
  {
    var lines := WorkItems(es, days, rate);
    forall i | 0 <= i < |lines| ensures ItemTotal(lines[i]) == DayBilled(es, rate)(days[i]) {
      WorkItemBilled(es, days[i], rate);
    }
    SumOfPointwise(lines, ItemTotal, days, DayBilled(es, rate));
  }

  lemma DaysBilledTotal(es: seq<TimeEntry>, days: seq<Date>, rate: real)
    ensures SumOf(days, DayBilled(es, rate)) == SumOf(days, GroupSum(es, EntryDate, ProjectModel.EntryHours)) * rate
  {
    var hours := GroupSum(es, EntryDate, ProjectModel.EntryHours);
    assert forall d :: d in days ==> DayBilled(es, rate)(d) == hours(d) * rate;
    SumOfScaled(days, hours, DayBilled(es, rate), rate);
  }

  /** No per-day line is a time line, so deleting an invoice made from time
      releases no entry. */
  lemma WorkItemsReleaseNothing(es: seq<TimeEntry>, days: seq<Date>, rate: real, read: string -> Option<Date>)
    requires forall i :: 0 <= i < |days| ==> PyDate(days[i])
    ensures TimeLineDates(WorkItems(es, days, rate), read) == {}
  {
    var lines := WorkItems(es, days, rate);
    forall i | 0 <= i < |lines| ensures TimeLineDate(lines[i], read).None? {
      var text := Iso(days[i]) + ": " + Join(Descriptions(GroupOf(es, EntryDate, days[i])), ", ");
      assert lines[i].description == "Work on " + text;
      WorkLinesAreNotTimeLines(text);
    }
  }
}
