/**
  The Gregorian calendar of Python's `datetime` and `calendar.monthrange`,
  as far as the account generator needs it to place a drawn date of the
  current year relative to today.
 */
module Calendar {

  /** A calendar date; `ValidDate` says it exists. */
  datatype Date = Date(year: int, month: int, day: int)

  predicate IsLeap(y: int) {
    y % 4 == 0 && (y % 100 != 0 || y % 400 == 0)
  }

  /** `calendar.monthrange(year, month)[1]`: the number of days of the month. */
  function DaysInMonth(y: int, m: int): (n: int)
    requires 1 <= m <= 12
    ensures 28 <= n <= 31
    ensures m == 2 ==> (n == 29 <==> IsLeap(y))
  {
    if m == 2 then (if IsLeap(y) then 29 else 28)
    else if m == 4 || m == 6 || m == 9 || m == 11 then 30
    else 31
  }

  /** A date `datetime` accepts: years 1 to 9999, a month, and a day of that month. */
  predicate ValidDate(d: Date) {
    1 <= d.year <= 9999 && 1 <= d.month <= 12 && 1 <= d.day <= DaysInMonth(d.year, d.month)
  }

  /** The days of year `y` before month `m` begins (`m == 13`: the whole year). */
  function DaysBefore(y: int, m: int): (n: nat)
    requires 1 <= m <= 13
  {
    if m == 1 then 0 else DaysBefore(y, m - 1) + DaysInMonth(y, m - 1)
  }

  /** A later month begins later in the year. */
  lemma {:induction false} DaysBeforeMonotone(y: int, m1: int, m2: int)
    requires 1 <= m1 <= m2 <= 13
    ensures DaysBefore(y, m1) + 28 * (m2 - m1) <= DaysBefore(y, m2)
    decreases m2 - m1
  {
    if m1 < m2 {
      DaysBeforeMonotone(y, m1, m2 - 1);
    }
  }

  /** The position of `d` in its year, 1 for the first of January (`tm_yday`). */
  function DayOfYear(d: Date): (n: int)
    requires ValidDate(d)
    ensures DaysBefore(d.year, d.month) < n <= DaysBefore(d.year, d.month + 1)
  {
    DaysBefore(d.year, d.month) + d.day
  }

  /** Days from `today` to `d`, a date of the same year: negative in the past. */
  function DaysFrom(today: Date, d: Date): (k: int)
    requires ValidDate(today) && ValidDate(d) && d.year == today.year
    ensures 1 - DayOfYear(today) <= k
    ensures d.month == today.month ==> k == d.day - today.day
  {
    DayOfYear(d) - DayOfYear(today)
  }

  /** A date of an earlier month lies before this month, one of a later month after it. */
  lemma DaysFromMonths(today: Date, d: Date)
    requires ValidDate(today) && ValidDate(d) && d.year == today.year
    ensures d.month < today.month ==> DaysFrom(today, d) < 1 - today.day
    ensures d.month > today.month ==> DaysFrom(today, d) > DaysInMonth(today.year, today.month) - today.day
  {
    if d.month < today.month {
      DaysBeforeMonotone(d.year, d.month + 1, today.month);
    } else if d.month > today.month {
      DaysBeforeMonotone(d.year, today.month + 1, d.month);
    }
  }
}
