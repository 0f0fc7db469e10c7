// src/components/common/DatePicker.tsx: the month grid of the date picker,
// whose weeks start on Saturday, the `YYYY-MM-DD` value it hands back and
// the weekend shading.  The weekday of the first of the month comes from
// `Date`, so it is a parameter (0 = Sunday … 6 = Saturday, as `getDay`).

module DatePicker {
  import opened Wrappers
  import opened Text

  /** A cell of the grid: a padding blank or a day of the viewed month. */
  datatype Cell = Blank | Day(day: nat)

  predicate IsLeapYear(year: int)
  {
    (year % 4 == 0 && year % 100 != 0) || year % 400 == 0
  }

  /** `new Date(year, month, 0).getDate()` for a month from 1 to 12: the number of its last day. */
  function DaysInMonth(year: int, month: int): (n: nat)
    requires 1 <= month <= 12
    ensures 28 <= n <= 31
    ensures n == 29 <==> month == 2 && IsLeapYear(year)
  {
    if month == 2 then (if IsLeapYear(year) then 29 else 28)
    else if month == 4 || month == 6 || month == 9 || month == 11 then 30
    else 31
  }

  /** The blanks before the 1st: the weekday of the 1st counted from Saturday. */
  function LeadingBlanks(firstWeekday: nat): nat
    requires firstWeekday < 7
  {
    (firstWeekday + 1) % 7
  }

  /** The blanks after the last day, up to the end of its week. */
  function TrailingBlanks(filled: nat): nat
  {
    (7 - filled % 7) % 7
  }

  function Blanks(n: nat): (r: seq<Cell>)
    ensures |r| == n && forall i :: 0 <= i < n ==> r[i] == Blank
  {
    seq(n, _ => Blank)
  }

  function DaysFrom(first: nat, count: nat): (r: seq<Cell>)
    ensures |r| == count && forall i :: 0 <= i < count ==> r[i] == Day(first + i)
  {
    seq(count, i requires 0 <= i < count => Day(first + i))
  }

  /** The grid `getCalendarDays` builds: leading blanks, the days 1..n in order, trailing blanks. */
  function CalendarGrid(firstWeekday: nat, daysInMonth: nat): seq<Cell>
    requires firstWeekday < 7
  {
    var lead := LeadingBlanks(firstWeekday);
    Blanks(lead) + DaysFrom(1, daysInMonth) + Blanks(TrailingBlanks(lead + daysInMonth))
  }

  /** `getCalendarDays()`: a loop of leading blanks, a loop over the days, and blanks until the weeks are whole. */
  method GetCalendarDays(year: int, month: int, firstWeekday: nat) returns (days: seq<Cell>)
    requires 1 <= month <= 12 && firstWeekday < 7
    ensures days == CalendarGrid(firstWeekday, DaysInMonth(year, month))
  {
    days := [];
    var firstDayOfWeek := (firstWeekday + 1) % 7;
    var i := 0;
    while i < firstDayOfWeek
      invariant 0 <= i <= firstDayOfWeek && days == Blanks(i)
    {
      days := days + [Blank];
      i := i + 1;
    }
    var lastDay := DaysInMonth(year, month);
    var d := 1;
    while d <= lastDay
      invariant 1 <= d <= lastDay + 1
      invariant days == Blanks(firstDayOfWeek) + DaysFrom(1, d - 1)
    {
      days := days + [Day(d)];
      d := d + 1;
    }
    ghost var full := days;
    TrailingFills(|full|);
    while |days| % 7 != 0
      invariant |full| <= |days| <= |full| + TrailingBlanks(|full|)
      invariant days == full + Blanks(|days| - |full|)
      decreases TrailingBlanks(|full|) - (|days| - |full|)
    {
      days := days + [Blank];
    }
    if |days| - |full| < TrailingBlanks(|full|) {
      TrailingIsLeast(|full|, |days| - |full|);
    }
  }

  /** The trailing blanks complete the last week. */
  lemma TrailingFills(n: nat)
    ensures TrailingBlanks(n) < 7 && (n + TrailingBlanks(n)) % 7 == 0
  {
    var q, r := n / 7, n % 7;
    assert n == 7 * q + r;
    if r != 0 {
      assert TrailingBlanks(n) == 7 - r;
      assert n + TrailingBlanks(n) == 7 * (q + 1);
    }
  }

  /** Fewer blanks leave the last week unfinished. */
  lemma TrailingIsLeast(n: nat, k: nat)
    requires k < TrailingBlanks(n)
    ensures (n + k) % 7 != 0
  {
    var q, r := n / 7, n % 7;
    assert n == 7 * q + r;
    assert r != 0;
    assert TrailingBlanks(n) == 7 - r;
    assert n + k == 7 * q + (r + k) && 0 < r + k < 7;
  }

  /** The grid is whole weeks: between four and six of them, with fewer than a week of padding at either end. */
  lemma GridShape(firstWeekday: nat, daysInMonth: nat)
    requires firstWeekday < 7 && 28 <= daysInMonth <= 31
    ensures |CalendarGrid(firstWeekday, daysInMonth)| % 7 == 0
    ensures 28 <= |CalendarGrid(firstWeekday, daysInMonth)| <= 42
    ensures LeadingBlanks(firstWeekday) < 7
    ensures TrailingBlanks(LeadingBlanks(firstWeekday) + daysInMonth) < 7
  {
    var lead := LeadingBlanks(firstWeekday);
    var t := TrailingBlanks(lead + daysInMonth);
    TrailingFills(lead + daysInMonth);
    var total := lead + daysInMonth + t;
    assert |CalendarGrid(firstWeekday, daysInMonth)| == total;
    var q := total / 7;
    assert total == 7 * q;
    assert 28 <= total <= 43;
    assert q <= 6;
  }

  /** Every day of the month is in the grid once, at its place after the leading blanks, and nowhere else. */
  lemma DaysInOrder(firstWeekday: nat, daysInMonth: nat, i: nat)
    requires firstWeekday < 7 && i < |CalendarGrid(firstWeekday, daysInMonth)|
    ensures CalendarGrid(firstWeekday, daysInMonth)[i].Day? <==>
      LeadingBlanks(firstWeekday) <= i < LeadingBlanks(firstWeekday) + daysInMonth
    ensures CalendarGrid(firstWeekday, daysInMonth)[i].Day? ==>
      CalendarGrid(firstWeekday, daysInMonth)[i].day == i - LeadingBlanks(firstWeekday) + 1
  {
    var lead := LeadingBlanks(firstWeekday);
    var g := CalendarGrid(firstWeekday, daysInMonth);
    if i < lead {
      assert g[i] == Blanks(lead)[i];
    } else if i < lead + daysInMonth {
      assert g[i] == DaysFrom(1, daysInMonth)[i - lead];
    } else {
      assert g[i] == Blanks(TrailingBlanks(lead + daysInMonth))[i - lead - daysInMonth];
    }
  }

  /** `isWeekend(date, index)`: the first two columns, Saturday and Sunday, whatever the cell holds. */
  predicate IsWeekend(index: nat)
  {
    index % 7 == 0 || index % 7 == 1
  }

  /** The weekday (0 = Sunday) of day `d` of a month whose 1st falls on `firstWeekday`. */
  function WeekdayOf(firstWeekday: nat, d: nat): nat
    requires d >= 1
  {
    (firstWeekday + d - 1) % 7
  }

  /** The shaded columns are exactly the Saturdays and Sundays of the month. */
  lemma WeekendColumnsAreWeekends(firstWeekday: nat, daysInMonth: nat, d: nat)
    requires firstWeekday < 7 && 1 <= d <= daysInMonth
    ensures IsWeekend(LeadingBlanks(firstWeekday) + d - 1) <==>
      WeekdayOf(firstWeekday, d) == 6 || WeekdayOf(firstWeekday, d) == 0
    ensures CalendarGrid(firstWeekday, daysInMonth)[LeadingBlanks(firstWeekday) + d - 1] == Day(d)
  {
    DaysInOrder(firstWeekday, daysInMonth, LeadingBlanks(firstWeekday) + d - 1);
  }

  /** `formatValueDate(date)`: the year, then the month and the day zero-padded to two digits. */
  function FormatValueDate(year: nat, month: nat, day: nat): (r: string)
    ensures Split(r, '-') == [NatToString(year), PadStart(NatToString(month), 2, '0'), PadStart(NatToString(day), 2, '0')]
    ensures forall k :: 0 <= k < 3 ==> AllDigits(Split(r, '-')[k]) && |Split(r, '-')[k]| > 0
  {
    var y, m, d := NatToString(year), PadStart(NatToString(month), 2, '0'), PadStart(NatToString(day), 2, '0');
    NatToStringDigits(year);
    NatToStringDigits(month);
    NatToStringDigits(day);
    ZeroPadValue(NatToString(month), 2);
    ZeroPadValue(NatToString(day), 2);
    PadStartShape(NatToString(month), 2, '0');
    PadStartShape(NatToString(day), 2, '0');
    DigitFieldsSplit(y, m, d);
    y + "-" + m + "-" + d
  }

  /** Three digit runs joined by dashes split back into those runs. */
  lemma DigitFieldsSplit(y: string, m: string, d: string)
    requires AllDigits(y) && AllDigits(m) && AllDigits(d)
    ensures Split(y + "-" + m + "-" + d, '-') == [y, m, d]
  {
    assert y + "-" + m + "-" + d == y + ['-'] + (m + ['-'] + d);
    SplitConcat(y, '-', m + ['-'] + d);
    SplitConcat(m, '-', d);
    SplitWithout(y, '-');
    SplitWithout(m, '-');
    SplitWithout(d, '-');
  }

  /** Three fields of four, two and two characters joined by dashes sit at fixed places. */
  lemma DashedFields(y: string, m: string, d: string)
    requires |y| == 4 && |m| == 2 && |d| == 2
    ensures |y + "-" + m + "-" + d| == 10
    ensures (y + "-" + m + "-" + d)[4] == '-' && (y + "-" + m + "-" + d)[7] == '-'
    ensures (y + "-" + m + "-" + d)[..4] == y
    ensures (y + "-" + m + "-" + d)[5..7] == m
    ensures (y + "-" + m + "-" + d)[8..] == d
  {
  }

  /** A number below 100 padded to two places is two characters long and reads back as itself. */
  lemma TwoDigitsReadBack(n: nat)
    requires n < 100
    ensures |PadStart(NatToString(n), 2, '0')| == 2
    ensures ParseInt(PadStart(NatToString(n), 2, '0')) == Some(n)
  {
    NatToStringLength(n);
    PadStartShape(NatToString(n), 2, '0');
    ParsePadded(n, 2);
  }

  /** For a four-digit year the value is ten characters, and its fields read back as the date. */
  lemma FormatValueDateReadsBack(year: nat, month: nat, day: nat)
    requires 1000 <= year < 10000 && 1 <= month <= 12 && 1 <= day <= 31
    ensures |FormatValueDate(year, month, day)| == 10
    ensures FormatValueDate(year, month, day)[4] == '-' && FormatValueDate(year, month, day)[7] == '-'
    ensures ParseInt(FormatValueDate(year, month, day)[..4]) == Some(year)
    ensures ParseInt(FormatValueDate(year, month, day)[5..7]) == Some(month)
    ensures ParseInt(FormatValueDate(year, month, day)[8..]) == Some(day)
  {
    NatToStringLength(year);
    TwoDigitsReadBack(month);
    TwoDigitsReadBack(day);
    ParsePadded(year, 0);
    DashedFields(NatToString(year), PadStart(NatToString(month), 2, '0'), PadStart(NatToString(day), 2, '0'));
  }
}
