/**
  Proleptic Gregorian dates as day ordinals (day 1 is 0001-01-01, the last one 9999-12-31), and
  the year and month windows the backfill cuts a date range into.
 */
module Calendar {
  import opened Prelude

  const MAX_YEAR := 9999

  predicate Leap(y: int) {
    y % 4 == 0 && (y % 100 != 0 || y % 400 == 0)
  }

  function DaysInMonth(y: int, m: int): (n: int)
    requires 1 <= m <= 12
    ensures 28 <= n <= 31
  {
    if m == 2 then (if Leap(y) then 29 else 28)
    else if m == 4 || m == 6 || m == 9 || m == 11 then 30
    else 31
  }

  function DaysBeforeYear(y: int): int
    requires y >= 1
  {
    (y - 1) * 365 + (y - 1) / 4 - (y - 1) / 100 + (y - 1) / 400
  }

  function DaysBeforeMonth(y: int, m: int): int
    requires 1 <= m <= 13
  {
    if m == 1 then 0 else DaysBeforeMonth(y, m - 1) + DaysInMonth(y, m - 1)
  }

  predicate ValidDate(y: int, m: int, d: int) {
    1 <= y && 1 <= m <= 12 && 1 <= d <= DaysInMonth(y, m)
  }

  function Ordinal(y: int, m: int, d: int): int
    requires 1 <= y && 1 <= m <= 12
  {
    DaysBeforeYear(y) + DaysBeforeMonth(y, m) + d
  }

  /** 9999-12-31 */
  const MAX_ORDINAL := 3652059

  /** 9999-12-01 */
  const LAST_MONTH := 3652029

  lemma MaxOrdinal()
    ensures MAX_ORDINAL == Ordinal(MAX_YEAR, 12, 31)
    ensures LAST_MONTH == Ordinal(MAX_YEAR, 12, 1)
  {
    MonthTable(MAX_YEAR);
  }

  predicate IsDay(n: int) {
    1 <= n <= MAX_ORDINAL
  }

  // ---------------------------------------------------------------------------------------
  // From ordinals back to years and months

  lemma MonthTable(y: int)
    ensures DaysBeforeMonth(y, 1) == 0 && DaysBeforeMonth(y, 2) == 31
    ensures DaysBeforeMonth(y, 12) == if Leap(y) then 335 else 334
    ensures DaysBeforeMonth(y, 13) == if Leap(y) then 366 else 365
  {
    assert DaysBeforeMonth(y, 2) == 31;
    assert DaysBeforeMonth(y, 3) == if Leap(y) then 60 else 59;
    assert DaysBeforeMonth(y, 4) == DaysBeforeMonth(y, 3) + 31;
    assert DaysBeforeMonth(y, 5) == DaysBeforeMonth(y, 4) + 30;
    assert DaysBeforeMonth(y, 6) == DaysBeforeMonth(y, 5) + 31;
    assert DaysBeforeMonth(y, 7) == DaysBeforeMonth(y, 6) + 30;
    assert DaysBeforeMonth(y, 8) == DaysBeforeMonth(y, 7) + 31;
    assert DaysBeforeMonth(y, 9) == DaysBeforeMonth(y, 8) + 31;
    assert DaysBeforeMonth(y, 10) == DaysBeforeMonth(y, 9) + 30;
    assert DaysBeforeMonth(y, 11) == DaysBeforeMonth(y, 10) + 31;
    assert DaysBeforeMonth(y, 12) == DaysBeforeMonth(y, 11) + 30;
  }

  lemma DivisionSteps(y: int)
    requires y >= 1
    ensures y / 4 == (y - 1) / 4 + if y % 4 == 0 then 1 else 0
    ensures y / 100 == (y - 1) / 100 + if y % 100 == 0 then 1 else 0
    ensures y / 400 == (y - 1) / 400 + if y % 400 == 0 then 1 else 0
  {
  }

  lemma CenturyRule(y: int)
    ensures y % 400 == 0 ==> y % 100 == 0
    ensures y % 100 == 0 ==> y % 4 == 0
  {
    if y % 400 == 0 {
      HundredDivides(y);
    }
    if y % 100 == 0 {
      FourDivides(y);
    }
  }

  lemma HundredDivides(y: int)
    requires y % 400 == 0
    ensures y % 100 == 0
  {
    var k, q, r := y / 400, y / 100, y % 100;
    assert y == 400 * k;
    assert y == 100 * q + r;
    assert r == 100 * (4 * k - q);
  }

  lemma FourDivides(y: int)
    requires y % 100 == 0
    ensures y % 4 == 0
  {
    var k, q, r := y / 100, y / 4, y % 4;
    assert y == 100 * k;
    assert y == 4 * q + r;
    assert r == 4 * (25 * k - q);
  }

  /** Months fill a year exactly, leap years included. */
  lemma YearLength(y: int)
    requires y >= 1
    ensures DaysBeforeYear(y + 1) == DaysBeforeYear(y) + DaysBeforeMonth(y, 13)
  {
    MonthTable(y);
    DivisionSteps(y);
    CenturyRule(y);
  }

  lemma {:induction false} YearsIncrease(a: int, b: int)
    requires 1 <= a < b
    ensures DaysBeforeYear(a) + 365 <= DaysBeforeYear(b)
    decreases b - a
  {
    YearLength(b - 1);
    MonthTable(b - 1);
    if a < b - 1 {
      YearsIncrease(a, b - 1);
    }
  }

  lemma {:induction false} MonthsIncrease(y: int, a: int, b: int)
    requires 1 <= a < b <= 13
    ensures DaysBeforeMonth(y, a) + DaysInMonth(y, a) <= DaysBeforeMonth(y, b)
    decreases b - a
  {
    if a < b - 1 {
      MonthsIncrease(y, a, b - 1);
    }
  }

  function YearFrom(n: int, y: int): int
    requires y >= 1
    decreases n - 365 * y
  {
    YearGap(y);
    if n <= DaysBeforeYear(y + 1) then y else YearFrom(n, y + 1)
  }

  lemma YearGap(y: int)
    requires y >= 1
    ensures DaysBeforeYear(y) >= 365 * (y - 1)
  {
    if y > 1 {
      YearGap(y - 1);
      YearsIncrease(y - 1, y);
    }
  }

  /** The year a day falls in. */
  function YearOf(n: int): int {
    YearFrom(n, 1)
  }

  function MonthFrom(y: int, rest: int, m: int): int
    requires 1 <= m <= 12
    decreases 12 - m
  {
    if m == 12 || rest <= DaysBeforeMonth(y, m + 1) then m else MonthFrom(y, rest, m + 1)
  }

  /** The month a day falls in. */
  function MonthOf(n: int): int {
    if YearOf(n) < 1 then 1 else MonthFrom(YearOf(n), n - DaysBeforeYear(YearOf(n)), 1)
  }

  lemma {:induction false} YearFromBounds(n: int, y: int)
    requires y >= 1 && DaysBeforeYear(y) < n
    ensures YearFrom(n, y) >= y
    ensures DaysBeforeYear(YearFrom(n, y)) < n <= DaysBeforeYear(YearFrom(n, y) + 1)
    decreases n - 365 * y
  {
    YearGap(y);
    if n > DaysBeforeYear(y + 1) {
      YearFromBounds(n, y + 1);
    }
  }

  lemma YearOfBounds(n: int)
    requires n >= 1
    ensures YearOf(n) >= 1 && DaysBeforeYear(YearOf(n)) < n <= DaysBeforeYear(YearOf(n) + 1)
  {
    YearFromBounds(n, 1);
  }

  lemma {:induction false} MonthFromBounds(y: int, rest: int, m: int)
    requires 1 <= m <= 12 && DaysBeforeMonth(y, m) < rest <= DaysBeforeMonth(y, 13)
    ensures m <= MonthFrom(y, rest, m) <= 12
    ensures DaysBeforeMonth(y, MonthFrom(y, rest, m)) < rest <= DaysBeforeMonth(y, MonthFrom(y, rest, m) + 1)
    decreases 12 - m
  {
    if !(m == 12 || rest <= DaysBeforeMonth(y, m + 1)) {
      MonthFromBounds(y, rest, m + 1);
    }
  }

  /** A day lies in the month and year computed for it. */
  lemma DateBounds(n: int)
    requires n >= 1
    ensures YearOf(n) >= 1 && DaysBeforeYear(YearOf(n)) < n <= DaysBeforeYear(YearOf(n) + 1)
    ensures 1 <= MonthOf(n) <= 12
    ensures Ordinal(YearOf(n), MonthOf(n), 1) <= n <= Ordinal(YearOf(n), MonthOf(n), DaysInMonth(YearOf(n), MonthOf(n)))
  {
    YearOfBounds(n);
    YearLength(YearOf(n));
    MonthFromBounds(YearOf(n), n - DaysBeforeYear(YearOf(n)), 1);
  }

  function DayOf(n: int): int {
    if YearOf(n) < 1 || !(1 <= MonthOf(n) <= 12) then 1 else n - Ordinal(YearOf(n), MonthOf(n), 1) + 1
  }

  /** Every valid date is recovered from its ordinal. */
  lemma DateRoundTrip(y: int, m: int, d: int)
    requires ValidDate(y, m, d)
    ensures Ordinal(y, m, d) >= 1
    ensures YearOf(Ordinal(y, m, d)) == y && MonthOf(Ordinal(y, m, d)) == m && DayOf(Ordinal(y, m, d)) == d
  {
    var n := Ordinal(y, m, d);
    YearLength(y);
    if y > 1 { YearsIncrease(1, y); }
    if m > 1 { MonthsIncrease(y, 1, m); }
    MonthsIncrease(y, m, 13);
    DateBounds(n);
    var year := YearOf(n);
    if year < y {
      if year + 1 < y { YearsIncrease(year + 1, y); }
    } else if year > y {
      if y + 1 < year { YearsIncrease(y + 1, year); }
    }
    assert year == y;
    var month := MonthOf(n);
    if month < m {
      MonthsIncrease(y, month, m);
    } else if month > m {
      MonthsIncrease(y, m, month);
    }
  }

  lemma SameMonth(y: int, m: int, n: int)
    requires 1 <= y && 1 <= m <= 12
    requires Ordinal(y, m, 1) <= n <= Ordinal(y, m, DaysInMonth(y, m))
    ensures n >= 1 && YearOf(n) == y && MonthOf(n) == m
  {
    DateRoundTrip(y, m, n - Ordinal(y, m, 1) + 1);
  }

  /** The first day of the following month starts where this month ends. */
  lemma NextMonthAdjoins(y: int, m: int)
    requires 1 <= y && 1 <= m <= 12
    ensures (if m == 12 then Ordinal(y + 1, 1, 1) else Ordinal(y, m + 1, 1)) == Ordinal(y, m, DaysInMonth(y, m)) + 1
  {
    YearLength(y);
  }

  // ---------------------------------------------------------------------------------------
  // Windows

  datatype Window = Window(first: int, last: int)

  predicate InWindow(w: Window, day: int) {
    w.first <= day <= w.last
  }

  /** Non-empty adjoining windows from the first day to the last. */
  ghost predicate Partitions(windows: seq<Window>, start: int, end: int) {
    && windows != []
    && windows[0].first == start
    && windows[|windows| - 1].last == end
    && (forall i :: 0 <= i < |windows| ==> windows[i].first <= windows[i].last)
    && (forall i :: 0 < i < |windows| ==> windows[i].first == windows[i - 1].last + 1)
  }

  lemma {:induction false} WindowsIncrease(windows: seq<Window>, start: int, end: int, i: nat, j: nat)
    requires Partitions(windows, start, end) && i < j < |windows|
    ensures windows[i].last < windows[j].first
    decreases j
  {
    if i < j - 1 {
      WindowsIncrease(windows, start, end, i, j - 1);
    }
  }

  /** Every day of the range is in exactly one window, and no window leaves the range. */
  lemma {:induction false} ExactlyOneWindow(windows: seq<Window>, start: int, end: int, day: int) returns (k: nat)
    requires Partitions(windows, start, end)
    requires start <= day <= end
    ensures k < |windows| && InWindow(windows[k], day)
    ensures forall j :: 0 <= j < |windows| && InWindow(windows[j], day) ==> j == k
  {
    k := 0;
    while windows[k].last < day
      invariant k < |windows| && windows[k].first <= day
      decreases |windows| - k
    {
      k := k + 1;
    }
    forall j | 0 <= j < |windows| && InWindow(windows[j], day) ensures j == k {
      if j < k {
        WindowsIncrease(windows, start, end, j, k);
      } else if k < j {
        WindowsIncrease(windows, start, end, k, j);
      }
    }
  }

  lemma {:induction false} WindowWithinRange(windows: seq<Window>, start: int, end: int, k: nat)
    requires Partitions(windows, start, end) && k < |windows|
    ensures start <= windows[k].first && windows[k].last <= end
  {
    if k > 0 {
      WindowsIncrease(windows, start, end, 0, k);
    }
    if k < |windows| - 1 {
      WindowsIncrease(windows, start, end, k, |windows| - 1);
    }
  }

  /** Months numbered consecutively across years. */
  function MonthNumber(n: int): int {
    12 * YearOf(n) + MonthOf(n)
  }

  /** Each window lies in one unit (a year, a month), and the units follow each other. */
  ghost predicate UnitByUnit(windows: seq<Window>, unit: int -> int) {
    && (forall i :: 0 <= i < |windows| ==> unit(windows[i].first) == unit(windows[i].last))
    && (forall i, j :: 0 <= i && j == i + 1 && j < |windows| ==> unit(windows[j].first) == unit(windows[i].first) + 1)
  }

  /** A day in the unit after the last window's. */
  ghost predicate Follows(windows: seq<Window>, day: int, unit: int -> int) {
    windows != [] ==> unit(day) == unit(windows[|windows| - 1].first) + 1
  }

  lemma LongerPartition(windows: seq<Window>, start: int, w: Window, unit: int -> int)
    requires w.first <= w.last
    requires if windows == [] then w.first == start else Partitions(windows, start, w.first - 1)
    requires UnitByUnit(windows, unit) && Follows(windows, w.first, unit) && unit(w.first) == unit(w.last)
    ensures Partitions(windows + [w], start, w.last)
    ensures UnitByUnit(windows + [w], unit)
  {
  }

  datatype DateError = EndBeforeStart | DateOutOfRange

  /** The end of the cursor's window: the last day of its year, or of the range. */
  method YearWindowEnd(cursor: int, end: int) returns (last: int)
    requires 1 <= cursor <= end
    ensures cursor <= last <= end
    ensures YearOf(last) == YearOf(cursor)
    ensures last < end ==> YearOf(last + 1) == YearOf(cursor) + 1
  {
    var year := YearOf(cursor);
    YearOfBounds(cursor);
    var yearEnd := Ordinal(year, 12, 31);
    MonthTable(year);
    YearLength(year);
    YearOfRange(year + 1, yearEnd + 1);
    last := if end < yearEnd then end else yearEnd;
    YearOfRange(year, last);
  }

  /** One window per calendar year touched; the source overflows only when the range ends on the last date. */
  method AnnualWindows(start: int, end: int) returns (r: Result<seq<Window>, DateError>)
    requires IsDay(start) && IsDay(end)
    ensures r.Ok? <==> start <= end < MAX_ORDINAL
    ensures r.Ok? ==> Partitions(r.value, start, end)
    ensures r.Ok? ==> UnitByUnit(r.value, YearOf)
  {
    if end < start {
      return Err(EndBeforeStart);
    }
    var windows: seq<Window> := [];
    var cursor := start;
    while cursor <= end
      invariant start <= cursor <= end + 1
      invariant if windows == [] then cursor == start else Partitions(windows, start, cursor - 1)
      invariant UnitByUnit(windows, YearOf)
      invariant cursor <= end ==> Follows(windows, cursor, YearOf)
      invariant cursor == end + 1 ==> end < MAX_ORDINAL
      decreases end - cursor
    {
      var windowEnd := YearWindowEnd(cursor, end);
      LongerPartition(windows, start, Window(cursor, windowEnd), YearOf);
      windows := windows + [Window(cursor, windowEnd)];
      if windowEnd == MAX_ORDINAL {
        return Err(DateOutOfRange);
      }
      cursor := windowEnd + 1;
    }
    r := Ok(windows);
  }

  lemma YearOfRange(y: int, n: int)
    requires y >= 1 && DaysBeforeYear(y) < n
    requires n <= DaysBeforeYear(y) + 365 || n <= DaysBeforeYear(y + 1)
    ensures n >= 1 && YearOf(n) == y
  {
    YearLength(y);
    MonthTable(y);
    if y > 1 { YearsIncrease(1, y); }
    YearOfBounds(n);
    var year := YearOf(n);
    if year < y {
      if year + 1 < y { YearsIncrease(year + 1, y); }
    } else if year > y {
      if y + 1 < year { YearsIncrease(y + 1, year); }
    }
  }

  /** The end of the cursor's window: the last day of its month, or of the range. */
  method MonthWindowEnd(cursor: int, end: int) returns (last: Result<int, DateError>)
    requires IsDay(cursor) && cursor <= end
    ensures last.Err? ==> cursor >= LAST_MONTH
    ensures last.Ok? ==> cursor <= last.value <= end && last.value < LAST_MONTH
    ensures last.Ok? ==> MonthNumber(last.value) == MonthNumber(cursor)
    ensures last.Ok? && last.value < end ==> MonthNumber(last.value + 1) == MonthNumber(cursor) + 1
  {
    if MonthOf(cursor) == 12 && YearOf(cursor) + 1 > MAX_YEAR {
      LastMonth(cursor);
      return Err(DateOutOfRange);
    }
    var nextMonth := FirstOfNextMonth(cursor);
    MonthBeforeLast(cursor);
    var windowEnd := if end < nextMonth - 1 then end else nextMonth - 1;
    MonthEdges(cursor, windowEnd);
    last := Ok(windowEnd);
  }

  function FirstOfNextMonth(n: int): int
    requires n >= 1
  {
    DateBounds(n);
    if MonthOf(n) == 12 then Ordinal(YearOf(n) + 1, 1, 1) else Ordinal(YearOf(n), MonthOf(n) + 1, 1)
  }

  /** Nothing before it leaves the month, and it starts the next one. */
  lemma MonthEdges(n: int, k: int)
    requires 1 <= n <= k < FirstOfNextMonth(n)
    ensures MonthNumber(k) == MonthNumber(n)
    ensures MonthNumber(FirstOfNextMonth(n)) == MonthNumber(n) + 1
  {
    DateBounds(n);
    var year, month := YearOf(n), MonthOf(n);
    NextMonthAdjoins(year, month);
    SameMonth(year, month, k);
    if month == 12 {
      SameMonth(year + 1, 1, FirstOfNextMonth(n));
    } else {
      SameMonth(year, month + 1, FirstOfNextMonth(n));
    }
  }

  /** One window per calendar month touched; the source overflows only when the range ends in December 9999. */
  method CalendarMonthWindows(start: int, end: int) returns (r: Result<seq<Window>, DateError>)
    requires IsDay(start) && IsDay(end)
    ensures r.Ok? <==> start <= end < LAST_MONTH
    ensures r.Ok? ==> Partitions(r.value, start, end)
    ensures r.Ok? ==> UnitByUnit(r.value, MonthNumber)
  {
    if end < start {
      return Err(EndBeforeStart);
    }
    var windows: seq<Window> := [];
    var cursor := start;
    while cursor <= end
      invariant start <= cursor <= end + 1
      invariant if windows == [] then cursor == start else Partitions(windows, start, cursor - 1)
      invariant UnitByUnit(windows, MonthNumber)
      invariant cursor <= end ==> Follows(windows, cursor, MonthNumber)
      invariant windows != [] ==> cursor <= LAST_MONTH
      decreases end - cursor
    {
      var windowEnd := MonthWindowEnd(cursor, end);
      if windowEnd.Err? {
        return Err(windowEnd.error);
      }
      LongerPartition(windows, start, Window(cursor, windowEnd.value), MonthNumber);
      windows := windows + [Window(cursor, windowEnd.value)];
      cursor := windowEnd.value + 1;
    }
    r := Ok(windows);
  }

  /** A day in a December of the last year or later is past the last representable next month. */
  lemma LastMonth(n: int)
    requires n >= 1 && MonthOf(n) == 12 && YearOf(n) >= MAX_YEAR
    ensures n >= LAST_MONTH
  {
    DateBounds(n);
    MaxOrdinal();
    MonthTable(MAX_YEAR);
    MonthTable(YearOf(n));
    if YearOf(n) > MAX_YEAR {
      YearsIncrease(MAX_YEAR, YearOf(n));
    }
  }

  /** Any other representable day has a next month within the representable dates. */
  lemma MonthBeforeLast(n: int)
    requires IsDay(n) && !(MonthOf(n) == 12 && YearOf(n) + 1 > MAX_YEAR)
    ensures n < FirstOfNextMonth(n) <= LAST_MONTH
  {
    DateBounds(n);
    NextMonthAdjoins(YearOf(n), MonthOf(n));
    var y, m := YearOf(n), MonthOf(n);
    MaxOrdinal();
    MonthTable(MAX_YEAR);
    YearLength(MAX_YEAR);
    if y > MAX_YEAR {
      YearsIncrease(MAX_YEAR, y);
      if MAX_YEAR + 1 < y { YearsIncrease(MAX_YEAR + 1, y); }
      assert false;
    }
    if m == 12 {
      if y + 1 < MAX_YEAR { YearsIncrease(y + 1, MAX_YEAR); }
    } else {
      if m + 1 < 12 { MonthsIncrease(y, m + 1, 12); }
      if y < MAX_YEAR {
        YearsIncrease(y, MAX_YEAR);
        MonthTable(y);
      }
    }
  }
}
