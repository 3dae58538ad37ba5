/**
 * The local calendar arithmetic that `Date` performs when the router moves a date
 * back by whole days (`d.setDate(d.getDate() - n)`): proleptic Gregorian dates,
 * one day back and one day forward.
 */
module Calendar {

  datatype CalendarDate = CalendarDate(year: int, month: int, day: int)

  predicate IsLeapYear(y: int) {
    (y % 4 == 0 && y % 100 != 0) || y % 400 == 0
  }

  function DaysInMonth(y: int, m: int): (n: int)
    requires 1 <= m <= 12
    ensures 28 <= n <= 31
  {
    if m == 2 then (if IsLeapYear(y) then 29 else 28)
    else if m == 4 || m == 6 || m == 9 || m == 11 then 30
    else 31
  }

  /** A month from 1 to 12 and a day that exists in that month (what `getMonth() + 1` and `getDate()` return). */
  predicate ValidDate(d: CalendarDate) {
    1 <= d.month <= 12 && 1 <= d.day <= DaysInMonth(d.year, d.month)
  }

  /** The day before: the last day of the previous month when `d` is a first of the month. */
  function PrevDay(d: CalendarDate): (p: CalendarDate)
    requires ValidDate(d)
    ensures ValidDate(p)
    ensures p.year == d.year || (p.year == d.year - 1 && d.month == 1 && d.day == 1)
  {
    if d.day > 1 then d.(day := d.day - 1)
    else if d.month > 1 then CalendarDate(d.year, d.month - 1, DaysInMonth(d.year, d.month - 1))
    else CalendarDate(d.year - 1, 12, 31)
  }

  /** The day after. */
  function NextDay(d: CalendarDate): (q: CalendarDate)
    requires ValidDate(d)
    ensures ValidDate(q)
  {
    if d.day < DaysInMonth(d.year, d.month) then d.(day := d.day + 1)
    else if d.month < 12 then CalendarDate(d.year, d.month + 1, 1)
    else CalendarDate(d.year + 1, 1, 1)
  }

  lemma NextDayOfPrevDay(d: CalendarDate)
    requires ValidDate(d)
    ensures NextDay(PrevDay(d)) == d
  {
  }

  /** `n` days before `d`; the year drops by at most one per day. */
  function DaysAgo(d: CalendarDate, n: nat): (r: CalendarDate)
    requires ValidDate(d)
    ensures ValidDate(r)
    ensures d.year - n <= r.year <= d.year
    decreases n
  {
    if n == 0 then d else PrevDay(DaysAgo(d, n - 1))
  }

  /** `n` days after `d`. */
  function DaysAhead(d: CalendarDate, n: nat): (r: CalendarDate)
    requires ValidDate(d)
    ensures ValidDate(r)
    decreases n
  {
    if n == 0 then d else DaysAhead(NextDay(d), n - 1)
  }

  /** Going `n` days forward from `n` days ago lands on the starting day. */
  lemma {:induction false} DaysAheadOfDaysAgo(d: CalendarDate, n: nat)
    requires ValidDate(d)
    ensures DaysAhead(DaysAgo(d, n), n) == d
    decreases n
  {
    if n > 0 {
      var y := DaysAgo(d, n - 1);
      NextDayOfPrevDay(y);
      assert DaysAhead(PrevDay(y), n) == DaysAhead(y, n - 1);
      DaysAheadOfDaysAgo(d, n - 1);
    }
  }
}
