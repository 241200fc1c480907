/**
 * The proleptic Gregorian calendar of chrono's `NaiveDate`, as far as the
 * chart-range code uses it: validity of a (year, month, day) triple, a day
 * number that orders dates and measures their distance, subtracting whole
 * days (`date - Duration::days(n)`), subtracting calendar months
 * (`checked_sub_months`, which clamps the day to the target month's length)
 * and the `%Y-%m-%d` rendering. Years are unbounded here; chrono's own
 * date range is not modelled.
 */
module Calendar {
  import opened Wrappers
  import opened Text

  datatype Date = Date(year: int, month: int, day: int)

  predicate IsLeapYear(y: int) {
    y % 4 == 0 && (y % 100 != 0 || y % 400 == 0)
  }

  function DaysInMonth(y: int, m: int): int
    requires 1 <= m <= 12
  {
    if m == 2 then (if IsLeapYear(y) then 29 else 28)
    else if m == 4 || m == 6 || m == 9 || m == 11 then 30
    else 31
  }

  predicate Valid(d: Date) {
    1 <= d.month <= 12 && 1 <= d.day <= DaysInMonth(d.year, d.month)
  }

  /** Days from 0001-01-01 to January 1 of year `y` (negative before year 1). */
  function DaysBeforeYear(y: int): int {
    365 * (y - 1) + (y - 1) / 4 - (y - 1) / 100 + (y - 1) / 400
  }

  /** Days from January 1 to the first of month `m` in year `y`. */
  function DaysBeforeMonth(y: int, m: int): int
    requires 1 <= m <= 12
  {
    if m == 1 then 0 else DaysBeforeMonth(y, m - 1) + DaysInMonth(y, m - 1)
  }

  /** The number of the day: 0 for 0001-01-01, counting up by one per day. */
  function DayNumber(d: Date): int
    requires Valid(d)
  {
    DaysBeforeYear(d.year) + DaysBeforeMonth(d.year, d.month) + d.day - 1
  }

  /** Months counted from January of year 0, so consecutive months have consecutive indices. */
  function MonthIndex(y: int, m: int): int {
    12 * y + m - 1
  }

  /** chrono's ordering of dates: by year, then month, then day. */
  predicate Before(a: Date, b: Date) {
    a.year < b.year
    || (a.year == b.year && a.month < b.month)
    || (a.year == b.year && a.month == b.month && a.day < b.day)
  }

  // ---------------------------------------------------------------------
  // Day numbers
  // ---------------------------------------------------------------------

  /** A year has 366 days when it is a leap year and 365 otherwise. */
  lemma YearLength(y: int)
    ensures DaysBeforeYear(y + 1) - DaysBeforeYear(y) == if IsLeapYear(y) then 366 else 365
  {
    DivStep4(y);
    DivStep100(y);
    DivStep400(y);
    LeapDivisors(y);
  }

  lemma DivStep4(y: int)
    ensures y / 4 - (y - 1) / 4 == if y % 4 == 0 then 1 else 0
  {
  }

  lemma DivStep100(y: int)
    ensures y / 100 - (y - 1) / 100 == if y % 100 == 0 then 1 else 0
  {
  }

  lemma DivStep400(y: int)
    ensures y / 400 - (y - 1) / 400 == if y % 400 == 0 then 1 else 0
  {
  }

  lemma LeapDivisors(y: int)
    ensures y % 400 == 0 ==> y % 100 == 0
    ensures y % 100 == 0 ==> y % 4 == 0
  {
  }

  /** The first of the month after (y, m) comes `DaysInMonth(y, m)` days after the first of (y, m). */
  lemma NextMonthStart(y: int, m: int)
    requires 1 <= m <= 12
    ensures m < 12 ==> DaysBeforeYear(y) + DaysBeforeMonth(y, m + 1)
                       == DaysBeforeYear(y) + DaysBeforeMonth(y, m) + DaysInMonth(y, m)
    ensures m == 12 ==> DaysBeforeYear(y + 1)
                        == DaysBeforeYear(y) + DaysBeforeMonth(y, 12) + DaysInMonth(y, 12)
  {
    if m == 12 {
      YearLength(y);
      DaysBeforeDecember(y);
    }
  }

  lemma DaysBeforeDecember(y: int)
    ensures DaysBeforeMonth(y, 12) == if IsLeapYear(y) then 335 else 334
  {
    var f := if IsLeapYear(y) then 29 else 28;
    assert DaysBeforeMonth(y, 2) == 31;
    assert DaysBeforeMonth(y, 3) == 31 + f;
    assert DaysBeforeMonth(y, 4) == 62 + f;
    assert DaysBeforeMonth(y, 5) == 92 + f;
    assert DaysBeforeMonth(y, 6) == 123 + f;
    assert DaysBeforeMonth(y, 7) == 153 + f;
    assert DaysBeforeMonth(y, 8) == 184 + f;
    assert DaysBeforeMonth(y, 9) == 215 + f;
    assert DaysBeforeMonth(y, 10) == 245 + f;
    assert DaysBeforeMonth(y, 11) == 276 + f;
  }

  /** The whole of an earlier month lies before the first day of a later month. */
  lemma {:induction false} EarlierMonthEndsBefore(y1: int, m1: int, y2: int, m2: int)
    requires 1 <= m1 <= 12 && 1 <= m2 <= 12
    requires MonthIndex(y1, m1) < MonthIndex(y2, m2)
    ensures DaysBeforeYear(y1) + DaysBeforeMonth(y1, m1) + DaysInMonth(y1, m1)
            <= DaysBeforeYear(y2) + DaysBeforeMonth(y2, m2)
    decreases MonthIndex(y2, m2) - MonthIndex(y1, m1)
  {
    var (py, pm) := if m2 == 1 then (y2 - 1, 12) else (y2, m2 - 1);
    assert MonthIndex(py, pm) == MonthIndex(y2, m2) - 1;
    NextMonthStart(py, pm);
    if MonthIndex(y1, m1) < MonthIndex(py, pm) {
      EarlierMonthEndsBefore(y1, m1, py, pm);
    } else {
      assert py == y1 && pm == m1;
    }
  }

  /** Day numbers order valid dates exactly as chrono compares them. */
  lemma DayNumberOrder(a: Date, b: Date)
    requires Valid(a) && Valid(b)
    ensures Before(a, b) <==> DayNumber(a) < DayNumber(b)
    ensures a == b <==> DayNumber(a) == DayNumber(b)
  {
    if MonthIndex(a.year, a.month) < MonthIndex(b.year, b.month) {
      EarlierMonthEndsBefore(a.year, a.month, b.year, b.month);
    } else if MonthIndex(b.year, b.month) < MonthIndex(a.year, a.month) {
      EarlierMonthEndsBefore(b.year, b.month, a.year, a.month);
    } else {
      assert a.year == b.year && a.month == b.month;
    }
  }

  // ---------------------------------------------------------------------
  // Subtracting days
  // ---------------------------------------------------------------------

  /** The day before `d`. */
  function PrevDay(d: Date): (p: Date)
    requires Valid(d)
    ensures Valid(p) && DayNumber(p) == DayNumber(d) - 1
  {
    if d.day > 1 then Date(d.year, d.month, d.day - 1)
    else if d.month > 1 then
      NextMonthStart(d.year, d.month - 1);
      Date(d.year, d.month - 1, DaysInMonth(d.year, d.month - 1))
    else
      NextMonthStart(d.year - 1, 12);
      Date(d.year - 1, 12, 31)
  }

  /** `d - Duration::days(n)`: the valid date exactly `n` days before `d`. */
  function SubDays(d: Date, n: nat): (r: Date)
    requires Valid(d)
    ensures Valid(r) && DayNumber(r) == DayNumber(d) - n
    decreases n
  {
    if n == 0 then d else SubDays(PrevDay(d), n - 1)
  }

  // ---------------------------------------------------------------------
  // Subtracting months
  // ---------------------------------------------------------------------

  /**
   * `d.checked_sub_months(Months::new(n))`: the same day `n` months earlier,
   * clamped to the last day of the target month when that month is shorter.
   * The result is never `None` here because years are unbounded.
   */
  function CheckedSubMonths(d: Date, n: nat): (r: Option<Date>)
    requires Valid(d)
  {
    var idx := MonthIndex(d.year, d.month) - n;
    var y := idx / 12;
    var m := idx % 12 + 1;
    var last := DaysInMonth(y, m);
    Some(Date(y, m, if d.day <= last then d.day else last))
  }

  /**
   * Month subtraction lands in the month `n` months earlier, keeps the day
   * when that month has it and otherwise takes the month's last day; for
   * `n > 0` the result is strictly before `d`.
   */
  lemma CheckedSubMonthsSpec(d: Date, n: nat)
    requires Valid(d)
    ensures CheckedSubMonths(d, n).Some?
    ensures var r := CheckedSubMonths(d, n).value;
      && Valid(r)
      && MonthIndex(r.year, r.month) == MonthIndex(d.year, d.month) - n
      && (d.day <= DaysInMonth(r.year, r.month) ==> r.day == d.day)
      && (d.day > DaysInMonth(r.year, r.month) ==> r.day == DaysInMonth(r.year, r.month))
      && (n > 0 ==> DayNumber(r) < DayNumber(d))
      && (n == 0 ==> r == d)
  {
    var r := CheckedSubMonths(d, n).value;
    if n > 0 {
      EarlierMonthEndsBefore(r.year, r.month, d.year, d.month);
    }
  }

  // ---------------------------------------------------------------------
  // Rendering
  // ---------------------------------------------------------------------

  /**
   * chrono's `%Y`: four zero-padded digits for years 0 to 9999, and
   * otherwise a sign and at least four digits (Rust's `{:+05}`), so year -5
   * is `-0005` and year 10000 is `+10000`.
   */
  function FormatYear(y: int): string {
    if 0 <= y <= 9999 then ZeroPad(y, 4)
    else if y > 9999 then "+" + NatToDecimal(y)
    else "-" + ZeroPad(-y, 4)
  }

  /** `date.format("%Y-%m-%d")`. */
  function FormatDate(d: Date): string
    requires Valid(d)
  {
    FormatYear(d.year) + "-" + ZeroPad(d.month, 2) + "-" + ZeroPad(d.day, 2)
  }

  /**
   * For years 0 to 9999 the rendering is ten characters `YYYY-MM-DD` whose
   * three digit groups read back as the year, month and day.
   */
  lemma FormatDateRoundTrip(d: Date)
    requires Valid(d) && 0 <= d.year <= 9999
    ensures var s := FormatDate(d);
      && |s| == 10 && s[4] == '-' && s[7] == '-'
      && AllDigits(s[..4]) && DigitsValue(s[..4]) == d.year
      && AllDigits(s[5..7]) && DigitsValue(s[5..7]) == d.month
      && AllDigits(s[8..]) && DigitsValue(s[8..]) == d.day
  {
    ZeroPadLength(d.year, 4);
    ZeroPadLength(d.month, 2);
    ZeroPadLength(d.day, 2);
    var y, m, dd := ZeroPad(d.year, 4), ZeroPad(d.month, 2), ZeroPad(d.day, 2);
    var s := FormatDate(d);
    assert s == y + "-" + m + "-" + dd;
    assert s[..4] == y;
    assert s[5..7] == m;
    assert s[8..] == dd;
  }

  /** A date with a four-digit year is formatted in ten characters. */
  lemma FormatDateLength(d: Date)
    requires Valid(d) && 0 <= d.year <= 9999
    ensures |FormatDate(d)| == 10
  {
    FormatDateRoundTrip(d);
  }

  /**
   * A year from -9999 to -1 is rendered as `-` and four zero-padded digits
   * that read back as the year's magnitude.
   */
  lemma FormatNegativeYear(d: Date)
    requires Valid(d) && -9999 <= d.year < 0
    ensures var s := FormatDate(d);
      && |s| == 11 && s[0] == '-' && s[5] == '-' && s[8] == '-'
      && AllDigits(s[1..5]) && DigitsValue(s[1..5]) == -d.year
  {
    ZeroPadLength(-d.year, 4);
    ZeroPadLength(d.month, 2);
    ZeroPadLength(d.day, 2);
    var y, m, dd := ZeroPad(-d.year, 4), ZeroPad(d.month, 2), ZeroPad(d.day, 2);
    assert FormatYear(d.year) == "-" + y;
    assert FormatDate(d) == "-" + y + "-" + m + "-" + dd;
    SignedLayout(y, m, dd);
  }

  /** Where the pieces of `-YYYY-MM-DD` sit. */
  lemma SignedLayout(y: string, m: string, dd: string)
    requires |y| == 4 && |m| == 2 && |dd| == 2
    ensures var s := "-" + y + "-" + m + "-" + dd;
      && |s| == 11 && s[0] == '-' && s[5] == '-' && s[8] == '-' && s[1..5] == y
  {
    var s := "-" + y + "-" + m + "-" + dd;
    assert s[1..5] == y;
  }

  /** Distinct dates of years 0 to 9999 render differently. */
  lemma FormatDateInjective(a: Date, b: Date)
    requires Valid(a) && 0 <= a.year <= 9999
    requires Valid(b) && 0 <= b.year <= 9999
    requires FormatDate(a) == FormatDate(b)
    ensures a == b
  {
    FormatDateRoundTrip(a);
    FormatDateRoundTrip(b);
  }
}
