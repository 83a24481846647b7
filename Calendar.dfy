/**
 * Proleptic Gregorian dates as Python's `datetime.date` numbers them:
 * 0001-01-01 has ordinal 1, 9999-12-31 (the largest date) has ordinal
 * 3652059, and `weekday()` is `(ordinal + 6) % 7` with Monday = 0 and
 * Sunday = 6. The week tag `T/S` of a record is built from these numbers.
 */
module Calendar {
  import opened Wrappers
  import opened Strings

  datatype CalDate = CalDate(year: int, month: int, day: int)

  predicate IsLeap(y: int) { y % 4 == 0 && (y % 100 != 0 || y % 400 == 0) }

  function DaysInYear(y: int): int { if IsLeap(y) then 366 else 365 }

  function DaysInMonth(y: int, m: int): int
    requires 1 <= m <= 12
  {
    if m == 2 then (if IsLeap(y) then 29 else 28)
    else if m == 4 || m == 6 || m == 9 || m == 11 then 30
    else 31
  }

  /** The dates `datetime.date` can represent. */
  predicate ValidDate(d: CalDate) {
    1 <= d.year <= 9999 && 1 <= d.month <= 12 && 1 <= d.day <= DaysInMonth(d.year, d.month)
  }

  const MaxOrdinal: int := 3652059

  /** Days in the years before `y`, Python's closed form. */
  function DaysBeforeYear(y: int): int
    requires y >= 1
  {
    var p := y - 1;
    365 * p + p / 4 - p / 100 + p / 400
  }

  /** Days in the months of year `y` before month `m`. */
  function DaysBeforeMonth(y: int, m: int): int
    requires 1 <= m <= 13
  {
    if m == 1 then 0 else DaysBeforeMonth(y, m - 1) + DaysInMonth(y, m - 1)
  }

  function ToOrdinal(d: CalDate): int
    requires ValidDate(d)
  {
    DaysBeforeYear(d.year) + DaysBeforeMonth(d.year, d.month) + d.day
  }

  /** `date.weekday()`: Monday is 0, Sunday is 6. */
  function Weekday(n: int): int { (n + 6) % 7 }

  const Sunday: int := 6
  const Saturday: int := 5

  lemma {:induction false} YearStep(y: int)
    requires y >= 1
    ensures DaysBeforeYear(y + 1) == DaysBeforeYear(y) + DaysInYear(y)
  {
    Step4(y);
    Step100(y);
    Step400(y);
  }

  lemma {:induction false} Step4(y: int)
    ensures y / 4 - (y - 1) / 4 == if y % 4 == 0 then 1 else 0
  {
  }

  lemma {:induction false} Step100(y: int)
    ensures y / 100 - (y - 1) / 100 == if y % 100 == 0 then 1 else 0
  {
  }

  lemma {:induction false} Step400(y: int)
    ensures y / 400 - (y - 1) / 400 == if y % 400 == 0 then 1 else 0
  {
  }

  lemma {:induction false} YearsIncrease(a: int, b: int)
    requires 1 <= a <= b
    ensures DaysBeforeYear(a) + 365 * (b - a) <= DaysBeforeYear(b)
    decreases b - a
  {
    if a < b {
      YearsIncrease(a, b - 1);
      YearStep(b - 1);
    }
  }

  lemma {:induction false} MonthsFillYear(y: int)
    ensures DaysBeforeMonth(y, 12) + DaysInMonth(y, 12) == DaysInYear(y)
    ensures DaysBeforeMonth(y, 13) == DaysInYear(y)
  {
    assert DaysBeforeMonth(y, 2) == 31;
    assert DaysBeforeMonth(y, 3) == 31 + DaysInMonth(y, 2);
    assert DaysBeforeMonth(y, 4) == DaysBeforeMonth(y, 3) + 31;
    assert DaysBeforeMonth(y, 5) == DaysBeforeMonth(y, 3) + 61;
    assert DaysBeforeMonth(y, 6) == DaysBeforeMonth(y, 3) + 92;
    assert DaysBeforeMonth(y, 7) == DaysBeforeMonth(y, 3) + 122;
    assert DaysBeforeMonth(y, 8) == DaysBeforeMonth(y, 3) + 153;
    assert DaysBeforeMonth(y, 9) == DaysBeforeMonth(y, 3) + 184;
    assert DaysBeforeMonth(y, 10) == DaysBeforeMonth(y, 3) + 214;
    assert DaysBeforeMonth(y, 11) == DaysBeforeMonth(y, 3) + 245;
    assert DaysBeforeMonth(y, 12) == DaysBeforeMonth(y, 3) + 275;
  }

  /** The date in month `m` or later of year `y` that is `n` days after the
      last day of month `m - 1`. */
  function FindMonth(n: int, y: int, m: int): (d: CalDate)
    requires 1 <= m <= 12
    requires 1 <= n <= DaysInYear(y) - DaysBeforeMonth(y, m)
    ensures d.year == y && m <= d.month <= 12 && 1 <= d.day <= DaysInMonth(y, d.month)
    ensures DaysBeforeMonth(y, d.month) + d.day == DaysBeforeMonth(y, m) + n
    decreases 12 - m
  {
    MonthsFillYear(y);
    if n > DaysInMonth(y, m) then
      assert m < 12;
      NoMonthOverflow(y, m + 1);
      FindMonth(n - DaysInMonth(y, m), y, m + 1)
    else
      CalDate(y, m, n)
  }

  lemma {:induction false} NoMonthOverflow(y: int, m: int)
    requires 1 <= m <= 13
    ensures DaysBeforeMonth(y, m) <= DaysInYear(y)
    decreases 13 - m
  {
    MonthsFillYear(y);
    if m < 13 { NoMonthOverflow(y, m + 1); }
  }

  lemma {:induction false} YearBound(y: int)
    requires y >= 1
    ensures y >= 10000 ==> DaysBeforeYear(y) >= MaxOrdinal
  {
    if y >= 10000 { YearsIncrease(10000, y); }
  }

  lemma {:induction false} MonthsBeforeNonNegative(y: int, m: int)
    requires 1 <= m <= 13
    ensures DaysBeforeMonth(y, m) >= 0
  {
    if m > 1 { MonthsBeforeNonNegative(y, m - 1); }
  }

  /** The date that is `n` days after the last day of year `y - 1`. */
  function FindYear(n: int, y: int): (d: CalDate)
    requires n >= 1 && y >= 1
    ensures d.year >= y && 1 <= d.month <= 12 && 1 <= d.day <= DaysInMonth(d.year, d.month)
    ensures DaysBeforeYear(d.year) + DaysBeforeMonth(d.year, d.month) + d.day == DaysBeforeYear(y) + n
    decreases n
  {
    if n > DaysInYear(y) then
      YearStep(y);
      FindYear(n - DaysInYear(y), y + 1)
    else
      FindMonth(n, y, 1)
  }

  /** `date.fromordinal(n)`. */
  function FromOrdinal(n: int): (d: CalDate)
    requires 1 <= n <= MaxOrdinal
    ensures ValidDate(d) && ToOrdinal(d) == n
  {
    var d := FindYear(n, 1);
    YearBound(d.year);
    MonthsBeforeNonNegative(d.year, d.month);
    d
  }

  /** `strftime('%m/%d/%Y')`. */
  function FormatDate(d: CalDate): string
    requires ValidDate(d)
  {
    Pad2(d.month as nat) + "/" + Pad2(d.day as nat) + "/" + Pad4(d.year as nat)
  }

  /** Different dates have different `MM/DD/YYYY` strings, so grouping rows
      on the date string groups them on the date. */
  lemma {:induction false} FormatDateInjective(a: CalDate, b: CalDate)
    requires ValidDate(a) && ValidDate(b) && FormatDate(a) == FormatDate(b)
    ensures a == b
  {
    var s, t := FormatDate(a), FormatDate(b);
    var ma, da, ya := Pad2(a.month as nat), Pad2(a.day as nat), Pad4(a.year as nat);
    var mb, db, yb := Pad2(b.month as nat), Pad2(b.day as nat), Pad4(b.year as nat);
    assert s[0..2] == ma && t[0..2] == mb;
    assert s[3..5] == da && t[3..5] == db;
    assert s[6..10] == ya && t[6..10] == yb;
  }

  /** The Sunday on or before day `n`: `n - timedelta((weekday + 1) % 7)`. */
  function WeekStart(n: int): (s: int)
    ensures Weekday(s) == Sunday
    ensures s <= n <= s + 6 && Weekday(s + 6) == Saturday
    ensures forall t :: t <= n && Weekday(t) == Sunday ==> t <= s
  {
    n - (Weekday(n) + 1) % 7
  }

  /** `get_week_start_end_dates`: the Sunday-to-Saturday week of `d` as
      `"MM/DD/YYYY - MM/DD/YYYY"`, or `None` where `datetime` raises an
      overflow because the week reaches outside 0001-01-01 .. 9999-12-31. */
  function WeekTag(d: CalDate): Option<string>
    requires ValidDate(d)
  {
    var s := WeekStart(ToOrdinal(d));
    if 1 <= s && s + 6 <= MaxOrdinal then
      Some(FormatDate(FromOrdinal(s)) + " - " + FormatDate(FromOrdinal(s + 6)))
    else
      None
  }

  /** The tag names the Sunday on or before the date and the Saturday six days
      later; it is missing exactly when one of them is not a `datetime.date`. */
  lemma {:induction false} WeekTagNamesItsWeek(d: CalDate)
    requires ValidDate(d)
    ensures WeekTag(d).None? <==>
              WeekStart(ToOrdinal(d)) < 1 || WeekStart(ToOrdinal(d)) + 6 > MaxOrdinal
    ensures WeekTag(d).Some? ==>
              exists first, last ::
                ValidDate(first) && ValidDate(last) &&
                WeekTag(d).value == FormatDate(first) + " - " + FormatDate(last) &&
                Weekday(ToOrdinal(first)) == Sunday && Weekday(ToOrdinal(last)) == Saturday &&
                ToOrdinal(first) <= ToOrdinal(d) <= ToOrdinal(last) == ToOrdinal(first) + 6
  {
    var s := WeekStart(ToOrdinal(d));
    if 1 <= s && s + 6 <= MaxOrdinal {
      var first, last := FromOrdinal(s), FromOrdinal(s + 6);
      assert WeekTag(d).value == FormatDate(first) + " - " + FormatDate(last);
    }
  }
}
