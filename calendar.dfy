/** Proleptic Gregorian dates as Python's `datetime.date` and date-fns see them:
    the ordinal day number (`date.toordinal()`), the next and previous day
    (`+ timedelta(days=1)`), `isoformat()` and `strptime(s, '%Y-%m-%d')`. */
module Calendar {
  import opened Common

  datatype Date = Date(year: int, month: int, day: int)

  /** Python's `date.max`; stepping past it raises OverflowError. */
  const MaxDate := Date(9999, 12, 31)

  predicate IsLeap(y: int)
  {
    y % 4 == 0 && (y % 100 != 0 || y % 400 == 0)
  }

  function DaysInMonth(y: int, m: int): int
    requires 1 <= m <= 12
  {
    if m == 2 then (if IsLeap(y) then 29 else 28)
    else if m == 4 || m == 6 || m == 9 || m == 11 then 30
    else 31
  }

  predicate Valid(d: Date)
  {
    d.year >= 1 && 1 <= d.month <= 12 && 1 <= d.day <= DaysInMonth(d.year, d.month)
  }

  /** A date Python's `datetime.date` can hold (years 1 through 9999). */
  predicate PyDate(d: Date)
  {
    Valid(d) && d.year <= 9999
  }

  /** Python's `_days_before_year`. */
  function DaysBeforeYear(y: int): int
  {
    var p := y - 1;
    p * 365 + p / 4 - p / 100 + p / 400
  }

  /** Python's `_days_before_month`: the table plus one in a leap year after February. */
  function DaysBeforeMonth(y: int, m: int): int
    requires 1 <= m <= 12
  {
    var table := [0, 31, 59, 90, 120, 151, 181, 212, 243, 273, 304, 334];
    table[m - 1] + (if m > 2 && IsLeap(y) then 1 else 0)
  }

  /** `date.toordinal()`: 0001-01-01 is day 1. */
  function Ordinal(d: Date): int
    requires Valid(d)
  {
    DaysBeforeYear(d.year) + DaysBeforeMonth(d.year, d.month) + d.day
  }

  predicate Before(a: Date, b: Date)
    requires Valid(a) && Valid(b)
  {
    Ordinal(a) < Ordinal(b)
  }

  predicate NotAfter(a: Date, b: Date)
    requires Valid(a) && Valid(b)
  {
    Ordinal(a) <= Ordinal(b)
  }

  lemma YearLength(y: int)
    requires y >= 1
    ensures DaysBeforeYear(y + 1) == DaysBeforeYear(y) + (if IsLeap(y) then 366 else 365)
  {
    Step4(y);
    Step100(y);
    Step400(y);
    LeapDivisors(y);
  }

  /** Stepping from `y - 1` to `y` adds one to `y / 4` exactly when 4 divides `y`;
      likewise for 100 and 400 below. */
  lemma Step4(y: int)
    ensures y / 4 == (y - 1) / 4 + (if y % 4 == 0 then 1 else 0)
  {
  }

  lemma Step100(y: int)
    ensures y / 100 == (y - 1) / 100 + (if y % 100 == 0 then 1 else 0)
  {
  }

  lemma Step400(y: int)
    ensures y / 400 == (y - 1) / 400 + (if y % 400 == 0 then 1 else 0)
  {
  }

  lemma LeapDivisors(y: int)
    ensures y % 400 == 0 ==> y % 100 == 0
    ensures y % 100 == 0 ==> y % 4 == 0
  {
  }

  lemma {:induction false} YearsAscend(y1: int, y2: int)
    requires 1 <= y1 < y2
    ensures DaysBeforeYear(y1) + 365 <= DaysBeforeYear(y2)
    decreases y2 - y1
  {
    YearLength(y1);
    if y1 + 1 < y2 {
      YearsAscend(y1 + 1, y2);
    }
  }

  /** The day of the year lies within the year's days. */
  lemma DayOfYearBounds(d: Date)
    requires Valid(d)
    ensures DaysBeforeYear(d.year) < Ordinal(d) <= DaysBeforeYear(d.year + 1)
  {
    YearLength(d.year);
  }

  lemma MonthsAscend(y: int, m1: int, m2: int)
    requires 1 <= m1 < m2 <= 12
    ensures DaysBeforeMonth(y, m1) + DaysInMonth(y, m1) <= DaysBeforeMonth(y, m2)
  {
  }

  /** Python compares dates field by field; that order is the ordinal order,
      so two valid dates with the same ordinal are the same date. */
  lemma OrdinalInjective(a: Date, b: Date)
    requires Valid(a) && Valid(b) && Ordinal(a) == Ordinal(b)
    ensures a == b
  {
    if a.year < b.year {
      DayOfYearBounds(a); DayOfYearBounds(b);
      if a.year + 1 < b.year { YearsAscend(a.year + 1, b.year); }
      assert false;
    } else if b.year < a.year {
      DayOfYearBounds(a); DayOfYearBounds(b);
      if b.year + 1 < a.year { YearsAscend(b.year + 1, a.year); }
      assert false;
    } else if a.month < b.month {
      MonthsAscend(a.year, a.month, b.month);
      assert false;
    } else if b.month < a.month {
      MonthsAscend(a.year, b.month, a.month);
      assert false;
    }
  }

  /** `date + timedelta(days=1)`. */
  function NextDay(d: Date): Date
    requires Valid(d)
  {
    if d.day < DaysInMonth(d.year, d.month) then Date(d.year, d.month, d.day + 1)
    else if d.month < 12 then Date(d.year, d.month + 1, 1)
    else Date(d.year + 1, 1, 1)
  }

  lemma NextDayOrdinal(d: Date)
    requires Valid(d)
    ensures Valid(NextDay(d)) && Ordinal(NextDay(d)) == Ordinal(d) + 1
  {
    if d.day == DaysInMonth(d.year, d.month) && d.month == 12 {
      YearLength(d.year);
    }
  }

  /** `date - timedelta(days=1)`. */
  function PrevDay(d: Date): Date
    requires Valid(d)
  {
    if d.day > 1 then Date(d.year, d.month, d.day - 1)
    else if d.month > 1 then Date(d.year, d.month - 1, DaysInMonth(d.year, d.month - 1))
    else Date(d.year - 1, 12, 31)
  }

  lemma PrevDayOrdinal(d: Date)
    requires Valid(d) && Ordinal(d) > 1
    ensures Valid(PrevDay(d)) && Ordinal(PrevDay(d)) == Ordinal(d) - 1
  {
    if d.day == 1 && d.month == 1 && d.year > 1 {
      YearLength(d.year - 1);
    }
  }

  /** The date `n` days after `d`. */
  function AddDays(d: Date, n: nat): (r: Date)
    requires Valid(d)
    ensures Valid(r) && Ordinal(r) == Ordinal(d) + n
    decreases n
  {
    if n == 0 then d else NextDayOrdinal(d); AddDays(NextDay(d), n - 1)
  }

  /** The date `n` days before `d`. */
  function SubtractDays(d: Date, n: nat): (r: Date)
    requires Valid(d) && Ordinal(d) > n
    ensures Valid(r) && Ordinal(r) == Ordinal(d) - n
    decreases n
  {
    if n == 0 then d else PrevDayOrdinal(d); SubtractDays(PrevDay(d), n - 1)
  }

  lemma OrdinalPositive(d: Date)
    requires Valid(d)
    ensures Ordinal(d) >= 1
  {
    var p := d.year - 1;
    assert p / 100 <= p / 4;
  }

  lemma WeekStartOf(o: int)
    ensures WeekdayOf(o - WeekdayOf(o)) == 0
  {
    var k := (o - 1) / 7;
    assert o - 1 - WeekdayOf(o) == 7 * k;
  }

  lemma WeekdayBelow(o: int)
    requires o >= 1
    ensures 0 <= WeekdayOf(o) < o
  {
  }

  lemma WeekEndOf(o: int)
    ensures WeekdayOf(o + 6 - WeekdayOf(o)) == 6
  {
    var k := (o - 1) / 7;
    assert o + 5 - WeekdayOf(o) == 7 * k + 6;
  }

  /** Moving forward to the Sunday of a week stays within that week. */
  lemma WeekEndStep(o: int, w: int, end: int)
    requires w == WeekdayOf(o) && end == o + 6 - w
    ensures WeekdayOf(end) == 6 && end - 7 < o <= end
  {
    WeekEndOf(o);
  }

  /** Day of the week, Monday = 0 … Sunday = 6 (0001-01-01 was a Monday). */
  function Weekday(d: Date): (w: int)
    requires Valid(d)
    ensures 0 <= w < 7
  {
    WeekdayOf(Ordinal(d))
  }

  function WeekdayOf(ordinal: int): int
  {
    (ordinal - 1) % 7
  }

  /** date-fns `startOfWeek(d, { weekStartsOn: 1 })`: the Monday of `d`'s week. */
  function StartOfWeek(d: Date): (r: Date)
    requires Valid(d)
    ensures Valid(r) && Weekday(r) == 0
    ensures Ordinal(r) <= Ordinal(d) < Ordinal(r) + 7
  {
    OrdinalPositive(d);
    WeekStartOf(Ordinal(d));
    WeekdayBelow(Ordinal(d));
    SubtractDays(d, Weekday(d))
  }

  /** date-fns `endOfWeek(d, { weekStartsOn: 1 })`: the Sunday of `d`'s week. */
  function EndOfWeek(d: Date): (r: Date)
    requires Valid(d)
    ensures Valid(r) && Weekday(r) == 6
    ensures Ordinal(r) - 7 < Ordinal(d) <= Ordinal(r)
  {
    var w := Weekday(d);
    var r := AddDays(d, 6 - w);
    WeekEndStep(Ordinal(d), w, Ordinal(r));
    r
  }

  /** `datetime(today.year, today.month, 1)`. */
  function FirstOfMonth(d: Date): (r: Date)
    requires Valid(d)
    ensures Valid(r) && r.year == d.year && r.month == d.month && r.day == 1
    ensures NotAfter(r, d)
  {
    Date(d.year, d.month, 1)
  }

  /** Every day from `start` through `end`, ascending: date-fns
      `eachDayOfInterval` and the `current_date += timedelta(days=1)` walk. */
  function DaysFrom(start: Date, end: Date): (r: seq<Date>)
    requires Valid(start) && Valid(end)
    ensures Ordinal(start) > Ordinal(end) ==> r == []
    ensures Ordinal(start) <= Ordinal(end) ==> |r| == Ordinal(end) - Ordinal(start) + 1
    decreases Ordinal(end) - Ordinal(start)
  {
    if Ordinal(start) > Ordinal(end) then []
    else NextDayOrdinal(start); [start] + DaysFrom(NextDay(start), end)
  }

  /** The i-th day of the walk is `i` days after the start. */
  lemma {:induction false} DaysFromAt(start: Date, end: Date, i: int)
    requires Valid(start) && Valid(end) && 0 <= i < |DaysFrom(start, end)|
    ensures Valid(DaysFrom(start, end)[i])
    ensures Ordinal(DaysFrom(start, end)[i]) == Ordinal(start) + i
    decreases Ordinal(end) - Ordinal(start)
  {
    NextDayOrdinal(start);
    if i > 0 {
      DaysFromAt(NextDay(start), end, i - 1);
    }
  }

  /** The walk holds exactly the valid dates between the bounds, each once. */
  lemma DaysFromMembers(start: Date, end: Date, d: Date)
    requires Valid(start) && Valid(end) && Valid(d)
    ensures d in DaysFrom(start, end) <==> NotAfter(start, d) && NotAfter(d, end)
  {
    var r := DaysFrom(start, end);
    if d in r {
      var i :| 0 <= i < |r| && r[i] == d;
      DaysFromAt(start, end, i);
    }
    if NotAfter(start, d) && NotAfter(d, end) {
      var i := Ordinal(d) - Ordinal(start);
      DaysFromAt(start, end, i);
      OrdinalInjective(r[i], d);
    }
  }

  /** No day appears twice in the walk. */
  lemma DaysFromDistinct(start: Date, end: Date)
    requires Valid(start) && Valid(end)
    ensures forall i, j :: 0 <= i < j < |DaysFrom(start, end)| ==> DaysFrom(start, end)[i] != DaysFrom(start, end)[j]
  {
    var r := DaysFrom(start, end);
    forall i, j | 0 <= i < j < |r| ensures r[i] != r[j] {
      DaysFromAt(start, end, i);
      DaysFromAt(start, end, j);
    }
  }

  /** A date no later than a date Python can hold is one Python can hold. */
  lemma NotAfterPyDate(a: Date, b: Date)
    requires Valid(a) && PyDate(b) && Ordinal(a) <= Ordinal(b)
    ensures PyDate(a)
  {
    if a.year > b.year {
      DayOfYearBounds(a);
      DayOfYearBounds(b);
      if b.year + 1 < a.year {
        YearsAscend(b.year + 1, a.year);
      }
    }
  }

  /** `date.max` is the last date Python can hold. */
  lemma MaxDateIsLast(d: Date)
    requires PyDate(d) && Ordinal(MaxDate) <= Ordinal(d)
    ensures d == MaxDate
  {
    DayOfYearBounds(d);
    DayOfYearBounds(MaxDate);
    YearLength(9999);
    if d.year < 9999 {
      if d.year + 1 < 9999 {
        YearsAscend(d.year + 1, 9999);
      }
    }
    OrdinalInjective(d, MaxDate);
  }

  // ------------------------------------------------------------- text forms

  /** Python's `isoformat()`: `%04d-%02d-%02d`. */
  function Iso(d: Date): (s: string)
    requires PyDate(d)
    ensures |s| == 10 && s[4] == '-' && s[7] == '-'
  {
    var y := d.year;
    [DigitChar(y / 1000), DigitChar(y / 100 % 10), DigitChar(y / 10 % 10), DigitChar(y % 10), '-',
     DigitChar(d.month / 10), DigitChar(d.month % 10), '-',
     DigitChar(d.day / 10), DigitChar(d.day % 10)]
  }

  predicate NonZeroDigit(c: char)
  {
    '1' <= c <= '9'
  }

  /** The `%m` alternatives `1[0-2]|0[1-9]` of strptime's pattern. */
  predicate TwoDigitMonth(a: char, b: char)
  {
    (a == '1' && '0' <= b <= '2') || (a == '0' && NonZeroDigit(b))
  }

  /** Length of the text the `%d` group `3[01]|[12]\d|0[1-9]|[1-9]| [1-9]`
      takes at the start of `s`, trying the alternatives in order; 0 when
      none applies. */
  function DayFieldLength(s: string): (n: nat)
    ensures n <= |s| && n <= 2
  {
    if |s| >= 2 && ((s[0] == '3' && (s[1] == '0' || s[1] == '1'))
                    || ((s[0] == '1' || s[0] == '2') && IsDigit(s[1]))
                    || (s[0] == '0' && NonZeroDigit(s[1]))) then 2
    else if |s| >= 1 && NonZeroDigit(s[0]) then 1
    else if |s| >= 2 && s[0] == ' ' && NonZeroDigit(s[1]) then 2
    else 0
  }

  /** The value of a `%d` or `%m` field (an optional leading space, then digits). */
  function FieldValue(s: string): nat
  {
    if |s| == 2 && IsDigit(s[0]) && IsDigit(s[1]) then DigitValue(s[0]) * 10 + DigitValue(s[1])
    else if |s| == 2 && IsDigit(s[1]) then DigitValue(s[1])
    else if |s| == 1 && IsDigit(s[0]) then DigitValue(s[0])
    else 0
  }

  /** `datetime.strptime(s, '%Y-%m-%d').date()`: four digits of year, one or two
      of month, one or two of day (or a space and one digit), nothing after
      the day, and a date that exists; None where Python raises ValueError. */
  function ParseIso(s: string): (r: Option<Date>)
    ensures r.Some? ==> PyDate(r.value)
  {
    if |s| < 8 || !(AllDigits(s[..4]) && s[4] == '-') then None
    else
      FourDigits(s[..4]);
      var year := DigitsValue(s[..4]);
      var monthLen := if TwoDigitMonth(s[5], s[6]) && s[7] == '-' then 2
                      else if NonZeroDigit(s[5]) && s[6] == '-' then 1
                      else 0;
      if monthLen == 0 then None
      else
        var month := FieldValue(s[5..5 + monthLen]);
        var rest := s[6 + monthLen..];
        var dayLen := DayFieldLength(rest);
        if dayLen == 0 || dayLen != |rest| then None
        else
          var day := FieldValue(rest);
          if year >= 1 && 1 <= month <= 12 && 1 <= day <= DaysInMonth(year, month)
          then Some(Date(year, month, day)) else None
  }

  lemma FourDigits(s: string)
    requires |s| == 4 && AllDigits(s)
    ensures DigitsValue(s) == DigitValue(s[0]) * 1000 + DigitValue(s[1]) * 100
                              + DigitValue(s[2]) * 10 + DigitValue(s[3])
  {
    var s3, s2, s1 := s[..3], s[..2], s[..1];
    assert s3[..2] == s2 && s2[..1] == s1 && s1[..0] == [];
    assert DigitsValue(s1) == DigitValue(s[0]);
    assert DigitsValue(s2) == DigitValue(s[0]) * 10 + DigitValue(s[1]);
    assert DigitsValue(s3) == DigitsValue(s2) * 10 + DigitValue(s[2]);
  }

  lemma DecimalDigits(y: int)
    requires 0 <= y <= 9999
    ensures y == (y / 1000) * 1000 + (y / 100 % 10) * 100 + (y / 10 % 10) * 10 + y % 10
  {
    var a, b, c, e := y / 1000, y / 100 % 10, y / 10 % 10, y % 10;
    assert y / 10 == (y / 100) * 10 + c;
    assert y / 100 == a * 10 + b;
  }

  /** What `isoformat()` writes, `strptime` reads back. */
  lemma ParseIsoRoundTrip(d: Date)
    requires PyDate(d)
    ensures ParseIso(Iso(d)) == Some(d)
  {
    var s := Iso(d);
    var y := d.year;
    assert AllDigits(s[..4]);
    FourDigits(s[..4]);
    DecimalDigits(y);
    assert DigitsValue(s[..4]) == y;
    assert TwoDigitMonth(s[5], s[6]);
    assert s[5..7] == [s[5], s[6]];
    assert FieldValue(s[5..7]) == d.month;
    var rest := s[8..];
    assert rest == [s[8], s[9]];
    assert DayFieldLength(rest) == 2;
    assert FieldValue(rest) == d.day;
  }
}
