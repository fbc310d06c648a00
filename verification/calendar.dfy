/**
  * A fixed local Gregorian calendar. A Foundation `Date` is seen here as its
  * calendar reading in that calendar: year, month, day of month and the
  * seconds elapsed since midnight. `Calendar.isDate(_:inSameDayAs:)`,
  * `startOfDay(for:)`, `component(.year/.month, from:)` and
  * `range(of: .day, in: .month, for:)` become the functions below.
  */
module Calendar {

  const SecondsPerDay: int := 86400

  datatype DateTime = DateTime(year: int, month: int, day: int, seconds: int)

  /** Gregorian leap years: divisible by 4, except centuries not divisible by 400. */
  predicate IsLeapYear(year: int)
  {
    year % 4 == 0 && (year % 100 != 0 || year % 400 == 0)
  }

  /** The number of days in a month, `range(of: .day, in: .month, for:).count`. */
  function DaysInMonth(year: int, month: int): (n: nat)
    requires 1 <= month <= 12
    ensures 28 <= n <= 31
    ensures n == 28 <==> month == 2 && !IsLeapYear(year)
    ensures n == 29 <==> month == 2 && IsLeapYear(year)
    ensures n == 30 <==> month == 4 || month == 6 || month == 9 || month == 11
  {
    if month == 2 then (if IsLeapYear(year) then 29 else 28)
    else if month == 4 || month == 6 || month == 9 || month == 11 then 30
    else 31
  }

  predicate IsValid(d: DateTime)
  {
    1 <= d.month <= 12 && 1 <= d.day <= DaysInMonth(d.year, d.month) && 0 <= d.seconds < SecondsPerDay
  }

  /** Every date the app handles is a real instant, so it has a valid calendar reading. */
  type Date = d: DateTime | IsValid(d) witness DateTime(1970, 1, 1, 0)

  /** `isDate(a, inSameDayAs: b)`. */
  predicate SameDay(a: Date, b: Date)
  {
    a.year == b.year && a.month == b.month && a.day == b.day
  }

  /** Equal `.year` and `.month` components. */
  predicate SameMonth(a: Date, b: Date)
  {
    a.year == b.year && a.month == b.month
  }

  /** `startOfDay(for: d)`: midnight of the day of `d`. */
  function StartOfDay(d: Date): (r: Date)
    ensures r.seconds == 0
    ensures SameDay(r, d)
  {
    DateTime(d.year, d.month, d.day, 0)
  }

  /** Two dates fall on the same day exactly when their days start at the same instant. */
  lemma SameDayIffSameStart(a: Date, b: Date)
    ensures SameDay(a, b) <==> StartOfDay(a) == StartOfDay(b)
  {
  }

  /** The midnights of days 1 through `n` of a month. */
  ghost function Midnights(year: int, month: int, n: nat): (r: set<DateTime>)
    ensures forall d :: d in r <==> d.year == year && d.month == month && 1 <= d.day <= n && d.seconds == 0
    ensures |r| == n
  {
    if n == 0 then {} else Midnights(year, month, n - 1) + {DateTime(year, month, n, 0)}
  }

  /** A set of midnights that all lie in one month has at most as many elements as the month has days. */
  lemma MidnightsInMonthBound(days: set<Date>, year: int, month: int)
    requires 1 <= month <= 12
    requires forall d :: d in days ==> d.year == year && d.month == month && d.seconds == 0
    ensures |days| <= DaysInMonth(year, month)
  {
    var all := Midnights(year, month, DaysInMonth(year, month));
    var raw: set<DateTime> := days;
    assert raw <= all;
    assert all == raw + (all - raw);
    assert |all| == |raw| + |all - raw|;
  }
}
