/** The slice of the proleptic Gregorian calendar the generator uses:
    `start_date + timedelta(days=day_offset)` and `strftime("%Y-%m-%d")`.
    Python's own day ordinal (`toordinal`) serves as the independent
    reference that day stepping is checked against. */
module Calendar {

  import opened Org

  datatype Date = Date(year: int, month: int, day: int)

  predicate IsLeap(y: int) {
    y % 4 == 0 && (y % 100 != 0 || y % 400 == 0)
  }

  function DaysInMonth(y: int, m: int): int
    requires 1 <= m <= 12
  {
    if m == 2 then (if IsLeap(y) then 29 else 28)
    else if m == 4 || m == 6 || m == 9 || m == 11 then 30
    else 31
  }

  predicate Valid(d: Date) {
    1 <= d.year && 1 <= d.month <= 12 && 1 <= d.day <= DaysInMonth(d.year, d.month)
  }

  /** Days in the years before y (Python's `_days_before_year`). */
  function DaysBeforeYear(y: int): int
    requires y >= 1
  {
    var p := y - 1;
    p * 365 + p / 4 - p / 100 + p / 400
  }

  /** Days in the months of year y before month m (Python's `_days_before_month`). */
  function DaysBeforeMonth(y: int, m: int): int
    requires 1 <= m <= 12
  {
    var table := [0, 31, 59, 90, 120, 151, 181, 212, 243, 273, 304, 334];
    table[m - 1] + (if m > 2 && IsLeap(y) then 1 else 0)
  }

  /** Python's `date.toordinal()`: 0001-01-01 is day 1. */
  function Ordinal(d: Date): int
    requires Valid(d)
  {
    DaysBeforeYear(d.year) + DaysBeforeMonth(d.year, d.month) + d.day
  }

  /** The calendar day after d. */
  function NextDay(d: Date): (e: Date)
    requires 1 <= d.month <= 12
    ensures 1 <= e.month <= 12
  {
    if d.day < DaysInMonth(d.year, d.month) then Date(d.year, d.month, d.day + 1)
    else if d.month < 12 then Date(d.year, d.month + 1, 1)
    else Date(d.year + 1, 1, 1)
  }

  /** d + timedelta(days=n) for n >= 0. */
  function AddDays(d: Date, n: nat): (e: Date)
    requires 1 <= d.month <= 12
    ensures 1 <= e.month <= 12
  {
    if n == 0 then d else NextDay(AddDays(d, n - 1))
  }

  lemma LeapYearLength(y: int)
    requires y >= 1
    ensures DaysBeforeYear(y + 1) == DaysBeforeYear(y) + (if IsLeap(y) then 366 else 365)
  {
    MultiplesStep(y);
  }

  /** Going from y - 1 to y adds one multiple of 4, 100 or 400 exactly
      when y is one; a multiple of 400 is one of 100, which is one of 4. */
  lemma MultiplesStep(y: int)
    requires y >= 1
    ensures y / 4 == (y - 1) / 4 + (if y % 4 == 0 then 1 else 0)
    ensures y / 100 == (y - 1) / 100 + (if y % 100 == 0 then 1 else 0)
    ensures y / 400 == (y - 1) / 400 + (if y % 400 == 0 then 1 else 0)
    ensures y % 100 == 0 ==> y % 4 == 0
    ensures y % 400 == 0 ==> y % 100 == 0
  {
  }

  /** Stepping one day keeps the date valid, adds exactly one to its
      ordinal and moves the year by at most one. */
  lemma NextDayOrdinal(d: Date)
    requires Valid(d)
    ensures Valid(NextDay(d))
    ensures Ordinal(NextDay(d)) == Ordinal(d) + 1
    ensures d.year <= NextDay(d).year <= d.year + 1
  {
    if d.day == DaysInMonth(d.year, d.month) && d.month == 12 {
      LeapYearLength(d.year);
    }
  }

  /** d + timedelta(days=n) is the valid date whose ordinal is n more than d's. */
  lemma {:induction false} AddDaysOrdinal(d: Date, n: nat)
    requires Valid(d)
    ensures Valid(AddDays(d, n))
    ensures Ordinal(AddDays(d, n)) == Ordinal(d) + n
    ensures d.year <= AddDays(d, n).year <= d.year + n
  {
    if n > 0 {
      AddDaysOrdinal(d, n - 1);
      NextDayOrdinal(AddDays(d, n - 1));
    }
  }

  /** Different offsets from one start date give different dates. */
  lemma AddDaysInjective(d: Date, i: nat, j: nat)
    requires Valid(d)
    requires i != j
    ensures AddDays(d, i) != AddDays(d, j)
  {
    AddDaysOrdinal(d, i);
    AddDaysOrdinal(d, j);
  }

  // ---- strftime("%Y-%m-%d") and its inverse ----

  function Digit(n: int): (c: char)
    requires 0 <= n <= 9
    ensures '0' <= c <= '9'
  {
    (n + 48) as char
  }

  predicate IsDigit(c: char) { '0' <= c <= '9' }

  function DigitValue(c: char): (n: int)
    requires IsDigit(c)
    ensures 0 <= n <= 9
  {
    c as int - 48
  }

  /** A number written with exactly `width` digits, zero-padded on the left. */
  function Padded(n: nat, width: nat): (s: string)
    ensures |s| == width
    ensures forall i :: 0 <= i < |s| ==> IsDigit(s[i])
    decreases width
  {
    if width == 0 then [] else Padded(n / 10, width - 1) + [Digit(n % 10)]
  }

  function Power10(k: nat): nat {
    if k == 0 then 1 else 10 * Power10(k - 1)
  }

  /** The value of a string of decimal digits. */
  function DecimalValue(s: string): nat
    requires forall i :: 0 <= i < |s| ==> IsDigit(s[i])
    decreases |s|
  {
    if s == [] then 0 else 10 * DecimalValue(s[..|s| - 1]) + DigitValue(s[|s| - 1])
  }

  /** Reading back a padded number gives the number when it fits the width. */
  lemma {:induction false} PaddedRoundTrip(n: nat, width: nat)
    requires n < Power10(width)
    ensures DecimalValue(Padded(n, width)) == n
    decreases width
  {
    if width > 0 {
      var s := Padded(n, width);
      assert s[..|s| - 1] == Padded(n / 10, width - 1);
      PaddedRoundTrip(n / 10, width - 1);
      assert DigitValue(Digit(n % 10)) == n % 10;
    }
  }

  /** day.strftime("%Y-%m-%d") for a year of at most four digits. */
  function FormatDate(d: Date): (s: string)
    requires Valid(d) && d.year <= 9999
    ensures |s| == 10 && s[4] == '-' && s[7] == '-'
    ensures forall i :: 0 <= i < 10 && i != 4 && i != 7 ==> IsDigit(s[i])
  {
    Padded(d.year, 4) + "-" + Padded(d.month, 2) + "-" + Padded(d.day, 2)
  }

  /** Reads a "YYYY-MM-DD" string back into its three numbers. */
  function ParseDate(s: string): Option<Date> {
    if |s| == 10 && s[4] == '-' && s[7] == '-'
       && (forall i :: 0 <= i < 10 && i != 4 && i != 7 ==> IsDigit(s[i]))
    then
      assert forall i :: 0 <= i < 4 ==> IsDigit(s[..4][i]);
      assert forall i :: 0 <= i < 2 ==> IsDigit(s[5..7][i]) && IsDigit(s[8..][i]);
      Some(Date(DecimalValue(s[..4]), DecimalValue(s[5..7]), DecimalValue(s[8..])))
    else None
  }

  /** The formatted day determines the date: parsing it back gives the date. */
  lemma FormatDateRoundTrip(d: Date)
    requires Valid(d) && d.year <= 9999
    ensures ParseDate(FormatDate(d)) == Some(d)
  {
    var s := FormatDate(d);
    assert s[..4] == Padded(d.year, 4);
    assert s[5..7] == Padded(d.month, 2);
    assert s[8..] == Padded(d.day, 2);
    assert Power10(2) == 100 && Power10(4) == 10000;
    PaddedRoundTrip(d.year, 4);
    PaddedRoundTrip(d.month, 2);
    PaddedRoundTrip(d.day, 2);
  }

  /** Two dates that format the same are the same date. */
  lemma FormatDateInjective(d: Date, e: Date)
    requires Valid(d) && d.year <= 9999 && Valid(e) && e.year <= 9999
    requires FormatDate(d) == FormatDate(e)
    ensures d == e
  {
    FormatDateRoundTrip(d);
    FormatDateRoundTrip(e);
  }
}
