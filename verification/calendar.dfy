/**
 * Proleptic Gregorian calendar arithmetic as JavaScript's `Date` performs it
 * (ECMA-262 `MakeDay`): a (year, month, day) triple names a day number
 * counted from 1970-01-01, and a day-of-month past the end of its month
 * simply runs on into the next month, as `setMonth` and `setFullYear`
 * overflow does.
 *
 * Used for the next-occurrence dates of recurring expenses
 * (`handleCreateRecurringExpense` in src/components/Dashboard.tsx) and
 * for the `YYYY-MM-DD` dates `processRecurringExpenses` reads back.
 */
module CivilCalendar {

  const MS_PER_DAY: int := 86400000

  predicate IsLeapYear(y: int) {
    y % 4 == 0 && (y % 100 != 0 || y % 400 == 0)
  }

  function DaysInYear(y: int): int {
    if IsLeapYear(y) then 366 else 365
  }

  /** Days in month `m` (1..12) of year `y`. */
  function DaysInMonth(y: int, m: int): (n: int)
    requires 1 <= m <= 12
    ensures 28 <= n <= 31
  {
    if m == 2 then (if IsLeapYear(y) then 29 else 28)
    else if m == 4 || m == 6 || m == 9 || m == 11 then 30
    else 31
  }

  /** Days in the months of year `y` before month `m` (1..12). */
  function DaysBeforeMonth(y: int, m: int): int
    requires 1 <= m <= 12
  {
    [0, 31, 59, 90, 120, 151, 181, 212, 243, 273, 304, 334][m - 1]
      + (if m > 2 && IsLeapYear(y) then 1 else 0)
  }

  /** Days from an arbitrary origin to January 1 of year `y`, by counting leap years. */
  function DaysBeforeYear(y: int): int {
    var p := y - 1;
    365 * p + p / 4 - p / 100 + p / 400
  }

  /** A calendar date, month 1..12; `day` may run past the month's end. */
  datatype Date = Date(year: int, month: int, day: int)

  predicate ValidDate(d: Date) {
    1 <= d.month <= 12 && 1 <= d.day <= DaysInMonth(d.year, d.month)
  }

  /** The day number (days since 1970-01-01) of a date; overflowing days run on. */
  function DayNumber(d: Date): int
    requires 1 <= d.month <= 12
  {
    DaysBeforeYear(d.year) + DaysBeforeMonth(d.year, d.month) + (d.day - 1) - DaysBeforeYear(1970)
  }

  /** `new Date('YYYY-MM-DD').getTime()`: midnight UTC of the date. */
  function MidnightMs(d: Date): int
    requires 1 <= d.month <= 12
  {
    DayNumber(d) * MS_PER_DAY
  }

  /** Counting multiples of `k` up to `p + 1` adds one exactly when `p + 1` is one. */
  lemma {:induction false} DivStep(p: int, k: int)
    requires k == 4 || k == 100 || k == 400
    ensures (p + 1) / k == p / k + (if (p + 1) % k == 0 then 1 else 0)
  {
    var q, r := p / k, p % k;
    assert p == q * k + r && 0 <= r < k;
    if r == k - 1 {
      assert p + 1 == (q + 1) * k;
    } else {
      assert p + 1 == q * k + (r + 1) && 0 <= r + 1 < k;
    }
  }

  /** One year on, January 1 is `DaysInYear` days later. */
  lemma YearLength(y: int)
    ensures DaysBeforeYear(y + 1) - DaysBeforeYear(y) == DaysInYear(y)
  {
    var p := y - 1;
    DivStep(p, 4);
    DivStep(p, 100);
    DivStep(p, 400);
  }

  /** A month on, the same day of the month is that month's length later. */
  lemma MonthLength(y: int, m: int)
    requires 1 <= m <= 11
    ensures DaysBeforeMonth(y, m + 1) - DaysBeforeMonth(y, m) == DaysInMonth(y, m)
  {
  }

  lemma DecemberLength(y: int)
    ensures DaysBeforeYear(y + 1) + DaysBeforeMonth(y + 1, 1) - (DaysBeforeYear(y) + DaysBeforeMonth(y, 12))
      == DaysInMonth(y, 12)
  {
    YearLength(y);
  }

  /** The first day of 1970 is day 0, and consecutive days have consecutive numbers. */
  lemma DayNumberBasics(d: Date)
    requires ValidDate(d)
    ensures DayNumber(Date(1970, 1, 1)) == 0
    ensures d.day < DaysInMonth(d.year, d.month) ==>
      DayNumber(Date(d.year, d.month, d.day + 1)) == DayNumber(d) + 1
  {
  }

  // ---------------------------------------------------------------------
  // Next occurrences

  datatype Frequency = Weekly | Monthly | Yearly

  /** `setDate(getDate() + 7)` */
  function AddWeek(d: Date): Date {
    Date(d.year, d.month, d.day + 7)
  }

  /** `setMonth(getMonth() + 1)`: December rolls into January of the next year. */
  function AddMonth(d: Date): (r: Date)
    requires 1 <= d.month <= 12
    ensures 1 <= r.month <= 12 && r.day == d.day
  {
    if d.month == 12 then Date(d.year + 1, 1, d.day) else Date(d.year, d.month + 1, d.day)
  }

  /** `setFullYear(getFullYear() + 1)` */
  function AddYear(d: Date): Date {
    Date(d.year + 1, d.month, d.day)
  }

  /** The next date the form stores for a new recurring expense created on `today`. */
  function NextOccurrence(today: Date, f: Frequency): (r: Date)
    requires 1 <= today.month <= 12
    ensures 1 <= r.month <= 12
  {
    match f
    case Monthly => AddMonth(today)
    case Weekly => AddWeek(today)
    case Yearly => AddYear(today)
  }

  /** How far ahead each frequency schedules, in days. */
  lemma {:induction false} NextOccurrenceOffset(today: Date, f: Frequency)
    requires ValidDate(today)
    ensures var gap := DayNumber(NextOccurrence(today, f)) - DayNumber(today);
      && (f == Weekly ==> gap == 7)
      && (f == Monthly ==> gap == DaysInMonth(today.year, today.month) && 28 <= gap <= 31)
      && (f == Yearly ==> gap == 365 || gap == 366)
  {
    match f
    case Weekly =>
    case Monthly =>
      if today.month == 12 {
        DecemberLength(today.year);
      } else {
        MonthLength(today.year, today.month);
      }
    case Yearly =>
      YearLength(today.year);
      YearLength(today.year + 1);
  }

  /**
   * The next occurrence is never today, so the source's "process the first
   * occurrence if it is today" branch can never run.
   */
  lemma NextOccurrenceIsLater(today: Date, f: Frequency)
    requires ValidDate(today)
    ensures DayNumber(NextOccurrence(today, f)) > DayNumber(today)
  {
    NextOccurrenceOffset(today, f);
  }
}
