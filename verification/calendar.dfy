/**
 * The proleptic Gregorian calendar in UTC, as Go's `time` package uses it.
 * An instant is a whole number of hours since 0001-01-01 00:00 UTC and a day
 * number a whole number of days since that date. `GoDate` normalises an
 * out-of-range month into the year and then adds an out-of-range day as a
 * count of days, which is how `time.Date` and `Time.AddDate` behave.
 */
module Calendar {
  /** An instant, in whole hours since 0001-01-01 00:00 UTC. */
  type Time = int

  /** The day number an instant falls on. */
  function DayOf(t: Time): int
  {
    t / 24
  }

  /** The hour of the day of an instant. */
  function HourOf(t: Time): (h: int)
    ensures 0 <= h < 24
  {
    t % 24
  }

  /** Midnight at the start of day number `day`. */
  function Midnight(day: int): (t: Time)
    ensures DayOf(t) == day && HourOf(t) == 0
  {
    day * 24
  }

  /** `int(later.Sub(earlier).Hours() / 24)`: elapsed whole days, truncated toward zero. */
  function WholeDays(later: Time, earlier: Time): (n: int)
    ensures later >= earlier ==> n >= 0 && 24 * n <= later - earlier < 24 * n + 24
    ensures later < earlier ==> n <= 0 && 24 * n - 24 < later - earlier <= 24 * n
  {
    var hours := later - earlier;
    if hours >= 0 then hours / 24 else -((-hours) / 24)
  }

  datatype Date = Date(year: int, month: int, day: int)

  predicate IsLeapYear(y: int)
  {
    y % 4 == 0 && (y % 100 != 0 || y % 400 == 0)
  }

  function DaysInMonth(y: int, m: int): (n: int)
    ensures 28 <= n <= 31
  {
    if m == 2 then (if IsLeapYear(y) then 29 else 28)
    else if m == 4 || m == 6 || m == 9 || m == 11 then 30
    else 31
  }

  /** A real calendar date. */
  predicate ValidDate(d: Date)
  {
    1 <= d.month <= 12 && 1 <= d.day <= DaysInMonth(d.year, d.month)
  }

  /** Months counted from January of year 0: `year * 12 + month - 1`. */
  function MonthIndex(d: Date): int
  {
    d.year * 12 + d.month - 1
  }

  /** The number of days of the month with index `mi`. */
  function MonthLength(mi: int): (n: int)
    ensures 28 <= n <= 31
  {
    DaysInMonth(mi / 12, mi % 12 + 1)
  }

  /** Day number of the first day of the month with index `mi`; January of year 1 has index 12. */
  function FirstOfMonth(mi: int): int
    decreases if mi >= 12 then mi - 12 else 12 - mi
  {
    if mi == 12 then 0
    else if mi > 12 then FirstOfMonth(mi - 1) + MonthLength(mi - 1)
    else FirstOfMonth(mi + 1) - MonthLength(mi)
  }

  /** The day number of a date. */
  function DayNumber(d: Date): int
  {
    FirstOfMonth(MonthIndex(d)) + d.day - 1
  }

  /** `time.Date(y, m, d, 0, 0, 0, 0, UTC)` as a day number, for any `m` and `d`. */
  function GoDate(y: int, m: int, d: int): int
  {
    FirstOfMonth(y * 12 + m - 1) + d - 1
  }

  /** The calendar date of a day number (`Time.Date()`). */
  function ToCivil(n: int): (d: Date)
    ensures ValidDate(d) && DayNumber(d) == n
  {
    var mi := MonthContaining(n);
    FirstOfMonthStep(mi);
    var d := Date(mi / 12, mi % 12 + 1, n - FirstOfMonth(mi) + 1);
    assert MonthIndex(d) == mi;
    d
  }

  /** `t.AddDate(0, months, days)` for an instant `t`. */
  function AddDate(t: Time, months: int, days: int): (r: Time)
    ensures HourOf(r) == HourOf(t)
  {
    var c := ToCivil(DayOf(t));
    var day := GoDate(c.year, c.month + months, c.day + days);
    AtHour(day, HourOf(t));
    Midnight(day) + HourOf(t)
  }

  /** `t.AddDate(0, 0, days)`: whole days are exactly 24 hours in UTC. */
  function AddDays(t: Time, days: int): (r: Time)
    ensures r == t + 24 * days
  {
    var c := ToCivil(DayOf(t));
    assert GoDate(c.year, c.month, c.day + days) == DayOf(t) + days;
    AtHour(DayOf(t) + days, HourOf(t));
    AddDate(t, 0, days)
  }

  /**
   * `t - interval 'k months'` in PostgreSQL: the same day of the month `k`
   * months earlier, moved back to that month's last day when it is
   * shorter, at the same hour.
   */
  function MonthsBefore(t: Time, k: nat): (r: Time)
    ensures HourOf(r) == HourOf(t)
    ensures k > 0 ==> r < t
  {
    var c := ToCivil(DayOf(t));
    var mi := MonthIndex(c) - k;
    var day := FirstOfMonth(mi) + (if c.day <= MonthLength(mi) then c.day else MonthLength(mi)) - 1;
    AtHour(day, HourOf(t));
    MonthsBeforeEarlier(c, k, day);
    Midnight(day) + HourOf(t)
  }

  lemma MonthsBeforeEarlier(c: Date, k: nat, day: int)
    requires ValidDate(c)
    requires day < FirstOfMonth(MonthIndex(c) - k) + MonthLength(MonthIndex(c) - k)
    ensures k > 0 ==> day < DayNumber(c)
  {
    if k > 0 {
      var mi := MonthIndex(c) - k;
      FirstOfMonthStep(mi);
      FirstOfMonthOrdered(mi + 1, MonthIndex(c));
      DayInMonth(c);
    }
  }

  /** The date `k` months after `d`, on the same day of the month. */
  function MonthsLater(d: Date, k: int): (r: Date)
    requires ValidDate(d) && d.day <= 28
    ensures ValidDate(r) && r.day == d.day
    ensures MonthIndex(r) == MonthIndex(d) + k
  {
    var mi := MonthIndex(d) + k;
    Date(mi / 12, mi % 12 + 1, d.day)
  }

  /*
   * Month search behind ToCivil.
   */

  function MonthContaining(n: int): (mi: int)
    ensures FirstOfMonth(mi) <= n < FirstOfMonth(mi + 1)
  {
    if 0 <= n then MonthUp(n, 12) else MonthDown(n, 11)
  }

  function MonthUp(n: int, mi: int): (r: int)
    requires FirstOfMonth(mi) <= n
    ensures FirstOfMonth(r) <= n < FirstOfMonth(r + 1)
    decreases n - FirstOfMonth(mi)
  {
    FirstOfMonthStep(mi);
    if n < FirstOfMonth(mi + 1) then mi else MonthUp(n, mi + 1)
  }

  function MonthDown(n: int, mi: int): (r: int)
    requires n < FirstOfMonth(mi + 1)
    ensures FirstOfMonth(r) <= n < FirstOfMonth(r + 1)
    decreases FirstOfMonth(mi + 1) - n
  {
    FirstOfMonthStep(mi);
    if FirstOfMonth(mi) <= n then mi else MonthDown(n, mi - 1)
  }

  /*
   * Lemmas.
   */

  /** Consecutive months: the next month starts when this one ends. */
  lemma FirstOfMonthStep(mi: int)
    ensures FirstOfMonth(mi + 1) == FirstOfMonth(mi) + MonthLength(mi)
  {
  }

  /** An hour offset within a day keeps the instant on that day. */
  lemma AtHour(day: int, h: int)
    requires 0 <= h < 24
    ensures DayOf(Midnight(day) + h) == day && HourOf(Midnight(day) + h) == h
  {
  }

  /** Month starts never go backwards. */
  lemma {:induction false} FirstOfMonthOrdered(a: int, b: int)
    requires a <= b
    ensures FirstOfMonth(a) <= FirstOfMonth(b)
    decreases b - a
  {
    if a < b {
      FirstOfMonthStep(a);
      FirstOfMonthOrdered(a + 1, b);
    }
  }

  /** A valid date lies inside its month. */
  lemma DayInMonth(d: Date)
    requires ValidDate(d)
    ensures FirstOfMonth(MonthIndex(d)) <= DayNumber(d) < FirstOfMonth(MonthIndex(d) + 1)
  {
    var mi := MonthIndex(d);
    FirstOfMonthStep(mi);
    assert mi / 12 == d.year && mi % 12 + 1 == d.month;
  }

  /** Two valid dates with the same day number are the same date. */
  lemma SameDayNumber(c: Date, d: Date)
    requires ValidDate(c) && ValidDate(d) && DayNumber(c) == DayNumber(d)
    ensures c == d
  {
    DayInMonth(c);
    DayInMonth(d);
    if MonthIndex(c) < MonthIndex(d) {
      FirstOfMonthOrdered(MonthIndex(c) + 1, MonthIndex(d));
    } else if MonthIndex(c) > MonthIndex(d) {
      FirstOfMonthOrdered(MonthIndex(d) + 1, MonthIndex(c));
    }
    assert MonthIndex(c) == MonthIndex(d);
  }

  /** ToCivil inverts DayNumber on valid dates. */
  lemma CivilRoundTrip(d: Date)
    requires ValidDate(d)
    ensures ToCivil(DayNumber(d)) == d
  {
    SameDayNumber(ToCivil(DayNumber(d)), d);
  }

  /** Go's constructor with the day kept and the month moved lands on MonthsLater. */
  lemma GoDateMonthsLater(d: Date, k: int)
    requires ValidDate(d) && d.day <= 28
    ensures GoDate(d.year, d.month + k, d.day) == DayNumber(MonthsLater(d, k))
  {
  }

  /** Moving `k` months and back returns to the same date. */
  lemma MonthsLaterInverse(d: Date, k: int)
    requires ValidDate(d) && d.day <= 28
    ensures MonthsLater(MonthsLater(d, k), -k) == d
  {
    var r := MonthsLater(MonthsLater(d, k), -k);
    assert MonthIndex(r) == MonthIndex(d);
  }

  /** `AddDate` from midnight of a valid date uses that date's own fields. */
  lemma AddDateAtMidnight(d: Date, months: int, days: int)
    requires ValidDate(d)
    ensures AddDate(Midnight(DayNumber(d)), months, days)
         == Midnight(GoDate(d.year, d.month + months, d.day + days))
  {
    var t := Midnight(DayNumber(d));
    assert DayOf(t) == DayNumber(d) && HourOf(t) == 0;
    CivilRoundTrip(d);
    assert ToCivil(DayOf(t)) == d;
  }
}
