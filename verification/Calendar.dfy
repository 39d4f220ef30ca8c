/**
 The proleptic Gregorian calendar that Python's `date` and `datetime` implement, on day ordinals
 (1 is 0001-01-01), and the three calendar computations the services make: the date of an
 instant, the fifty-year window of a non-expiring subscription, and the first day of the monthly
 chart. Instants are UTC microseconds counted so that `t / DAY` is the ordinal of the day.
*/
module Calendar {
  import opened Wrappers

  type Instant = int

  const DAY: int := 86_400_000_000

  datatype Date = Date(year: int, month: int, day: int)

  predicate IsLeap(y: int) {
    y % 4 == 0 && (y % 100 != 0 || y % 400 == 0)
  }

  function DaysInMonth(y: int, m: int): int {
    if m == 2 then (if IsLeap(y) then 29 else 28)
    else if m == 4 || m == 6 || m == 9 || m == 11 then 30
    else 31
  }

  predicate ValidDate(d: Date) {
    1 <= d.month <= 12 && 1 <= d.day <= DaysInMonth(d.year, d.month)
  }

  function DaysInYear(y: int): int {
    if IsLeap(y) then 366 else 365
  }

  /** Ordinal of the last day before year `y`; year 1 begins with ordinal 1. */
  function DaysBeforeYear(y: int): int
    decreases if y < 1 then 2 - y else y
  {
    if y == 1 then 0
    else if y > 1 then DaysBeforeYear(y - 1) + DaysInYear(y - 1)
    else DaysBeforeYear(y + 1) - DaysInYear(y)
  }

  function DaysBeforeMonth(y: int, m: int): int
    decreases m
  {
    if m <= 1 then 0 else DaysBeforeMonth(y, m - 1) + DaysInMonth(y, m - 1)
  }

  function Ordinal(d: Date): int {
    DaysBeforeYear(d.year) + DaysBeforeMonth(d.year, d.month) + d.day
  }

  lemma YearLength(y: int)
    ensures DaysBeforeYear(y + 1) == DaysBeforeYear(y) + DaysInYear(y)
  {
    if y < 1 {
      assert DaysBeforeYear(y) == DaysBeforeYear(y + 1) - DaysInYear(y);
    }
  }

  /** Stepping past `y` carries into the quotient by `k` exactly when `k` divides `y`. */
  lemma Carry(y: int, k: int)
    requires k == 4 || k == 100 || k == 400
    ensures y / k == (y - 1) / k + (if y % k == 0 then 1 else 0)
  {
  }

  function LeapYearsThrough(z: int): int {
    z / 4 - z / 100 + z / 400
  }

  /** Adding up year lengths agrees with counting the leap years, before and after year 1 alike. */
  lemma {:induction false} LeapCount(y: int)
    ensures DaysBeforeYear(y) == 365 * (y - 1) + LeapYearsThrough(y - 1)
    decreases if y < 1 then 2 - y else y
  {
    if y > 1 {
      LeapCount(y - 1);
      CarryLeap(y - 1);
    } else if y < 1 {
      LeapCount(y + 1);
      CarryLeap(y);
    }
  }

  lemma CarryLeap(y: int)
    ensures LeapYearsThrough(y) == LeapYearsThrough(y - 1) + (if IsLeap(y) then 1 else 0)
  {
    Carry(y, 4);
    Carry(y, 100);
    Carry(y, 400);
  }

  lemma MonthLength(y: int, m: int)
    requires 1 <= m <= 12
    ensures DaysBeforeMonth(y, m) + DaysInMonth(y, m)
            == if m == 12 then DaysInYear(y) else DaysBeforeMonth(y, m + 1)
  {
    if m == 12 {
      assert DaysBeforeMonth(y, 3) == 59 + (if IsLeap(y) then 1 else 0);
      assert DaysBeforeMonth(y, 5) == DaysBeforeMonth(y, 3) + 61;
      assert DaysBeforeMonth(y, 7) == DaysBeforeMonth(y, 5) + 61;
      assert DaysBeforeMonth(y, 9) == DaysBeforeMonth(y, 7) + 62;
      assert DaysBeforeMonth(y, 11) == DaysBeforeMonth(y, 9) + 61;
    }
  }

  // ---- Months, counted as 12 * year + (month - 1) --------------------------------------------

  function MonthIndex(d: Date): int {
    12 * d.year + d.month - 1
  }

  function FirstOf(m: int): int {
    Ordinal(Date(m / 12, m % 12 + 1, 1))
  }

  function MonthDays(m: int): int {
    DaysInMonth(m / 12, m % 12 + 1)
  }

  lemma NextMonth(m: int)
    ensures FirstOf(m + 1) == FirstOf(m) + MonthDays(m)
  {
    MonthLength(m / 12, m % 12 + 1);
    YearLength(m / 12);
    if m % 12 == 11 {
      assert (m + 1) / 12 == m / 12 + 1 && (m + 1) % 12 == 0;
    } else {
      assert (m + 1) / 12 == m / 12 && (m + 1) % 12 == m % 12 + 1;
    }
  }

  lemma {:induction false} MonthsAscend(a: int, b: int)
    requires a <= b
    ensures FirstOf(a) + 28 * (b - a) <= FirstOf(b) <= FirstOf(a) + 31 * (b - a)
    decreases b - a
  {
    if a < b {
      MonthsAscend(a, b - 1);
      NextMonth(b - 1);
      assert b - 1 + 1 == b;
    }
  }

  lemma {:induction false} EarlyYear(y: int)
    requires y <= 1
    ensures DaysBeforeYear(y) < y
    decreases 1 - y
  {
    if y < 1 {
      EarlyYear(y + 1);
    }
  }

  lemma JanuaryBegins(y: int)
    requires y <= 1
    ensures FirstOf(12 * y) <= y
  {
    EarlyYear(y);
    assert 12 * y / 12 == y && 12 * y % 12 == 0;
    assert DaysBeforeMonth(y, 1) == 0;
  }

  /** The month that contains ordinal `n`, searched upwards from a month that begins by then. */
  function MonthFrom(n: int, m: int): (k: int)
    requires FirstOf(m) <= n
    ensures FirstOf(k) <= n < FirstOf(k + 1)
    decreases n - FirstOf(m)
  {
    MonthsAscend(m, m + 1);
    if n < FirstOf(m + 1) then m else MonthFrom(n, m + 1)
  }

  function MonthOf(n: int): (k: int)
    ensures FirstOf(k) <= n < FirstOf(k + 1)
  {
    hide FirstOf;
    var y := if n < 1 then n else 1;
    JanuaryBegins(y);
    MonthFrom(n, 12 * y)
  }

  function FromOrdinal(n: int): (d: Date)
    ensures ValidDate(d) && Ordinal(d) == n && MonthIndex(d) == MonthOf(n)
  {
    var m := MonthOf(n);
    NextMonth(m);
    Date(m / 12, m % 12 + 1, n - FirstOf(m) + 1)
  }

  /** A day lies in month `m` exactly when it falls between that month's first day and the next's. */
  lemma InMonth(n: int, m: int)
    ensures MonthOf(n) == m <==> FirstOf(m) <= n < FirstOf(m + 1)
  {
    hide *;
    var k := MonthOf(n);
    if k < m {
      MonthsAscend(k + 1, m);
    } else if m < k {
      MonthsAscend(m + 1, k);
    }
  }

  /** Every valid date is the date of its own ordinal, and of no other day. */
  lemma DateRoundTrip(d: Date)
    requires ValidDate(d)
    ensures FromOrdinal(Ordinal(d)) == d
  {
    var m := MonthIndex(d);
    assert m / 12 == d.year && m % 12 + 1 == d.month;
    NextMonth(m);
    InMonth(Ordinal(d), m);
    var e := FromOrdinal(Ordinal(d));
    assert MonthIndex(e) == m;
    assert e.year == d.year && e.month == d.month;
  }

  // ---- The fifty-year window -----------------------------------------------------------------

  function DateOf(t: Instant): Date {
    FromOrdinal(t / DAY)
  }

  predicate IsLeapDay(t: Instant) {
    DateOf(t).month == 2 && DateOf(t).day == 29
  }

  /** `start.replace(year=start.year + 50)`: None is the ValueError for a date that does not exist. */
  function PerpetualEnd(start: Instant): Option<Instant> {
    var d := DateOf(start);
    var e := d.(year := d.year + 50);
    if ValidDate(e) then Some(Ordinal(e) * DAY + start % DAY) else None
  }

  /** Every leap year has its 29 February, whatever the time of day. */
  lemma LeapDayOf(y: int, micros: nat)
    requires IsLeap(y) && micros < DAY
    ensures IsLeapDay(Ordinal(Date(y, 2, 29)) * DAY + micros)
  {
    hide Ordinal, FromOrdinal;
    var d := Date(y, 2, 29);
    DateRoundTrip(d);
    assert (Ordinal(d) * DAY + micros) / DAY == Ordinal(d);
  }

  /** The day after 29 February is the first of March. */
  lemma LeapDayPasses(t: Instant)
    requires IsLeapDay(t)
    ensures !IsLeapDay(t + DAY)
  {
    var d := DateOf(t);
    var next := Date(d.year, 3, 1);
    MonthLength(d.year, 2);
    assert Ordinal(next) == Ordinal(d) + 1;
    assert (t + DAY) / DAY == t / DAY + 1;
    DateRoundTrip(next);
  }

  /** The same month, day and time of day, fifty years on. */
  predicate FiftyYearsOn(start: Instant, end: Instant) {
    && DateOf(end) == Date(DateOf(start).year + 50, DateOf(start).month, DateOf(start).day)
    && end % DAY == start % DAY
  }

  lemma FiftyYears(y: int)
    ensures 18_261 <= DaysBeforeYear(y + 50) - DaysBeforeYear(y) <= 18_263
  {
    LeapCount(y);
    LeapCount(y + 50);
    LeapYearsInFifty(y - 1);
  }

  lemma LeapYearsInFifty(z: int)
    ensures 11 <= LeapYearsThrough(z + 50) - LeapYearsThrough(z) <= 13
  {
    assert z / 4 + 12 <= (z + 50) / 4 <= z / 4 + 13;
    assert z / 100 <= (z + 50) / 100 <= z / 100 + 1;
    assert z / 400 <= (z + 50) / 400 <= z / 400 + 1;
    Centuries(z);
    Centuries(z + 50);
  }

  lemma Centuries(z: int)
    ensures z / 400 == (z / 100) / 4
  {
    assert z == 400 * (z / 400) + z % 400;
    assert z == 100 * (z / 100) + z % 100;
    var a, b := z / 400, z / 100;
    assert 100 * b <= z < 100 * b + 100 && 400 * a <= z < 400 * a + 400;
  }

  lemma NoLeapPair(y: int)
    ensures !(IsLeap(y) && IsLeap(y + 50))
  {
    assert (y + 50) % 4 == (y + 2) % 4;
  }

  /** The window exists on every day except 29 February, and then ends on the same date fifty years on. */
  lemma PerpetualWindow(start: Instant)
    ensures PerpetualEnd(start).None? <==> IsLeapDay(start)
    ensures PerpetualEnd(start).Some? ==>
              && FiftyYearsOn(start, PerpetualEnd(start).value)
              && 18_261 * DAY <= PerpetualEnd(start).value - start <= 18_263 * DAY
  {
    hide Ordinal, FromOrdinal;
    var d := DateOf(start);
    NoLeapPair(d.year);
    if PerpetualEnd(start).Some? {
      var e := d.(year := d.year + 50);
      FiftyYearDates(d);
      WholeDays(start, Ordinal(d), Ordinal(e));
      OnDay(Ordinal(e), start % DAY);
      DateRoundTrip(e);
    }
  }

  lemma OnDay(n: int, micros: int)
    requires 0 <= micros < DAY
    ensures (n * DAY + micros) / DAY == n && (n * DAY + micros) % DAY == micros
  {
  }

  lemma FiftyYearDates(d: Date)
    requires ValidDate(d)
    ensures 18_261 <= Ordinal(d.(year := d.year + 50)) - Ordinal(d) <= 18_263
  {
    FiftyYears(d.year);
    FiftyYears(d.year + 1);
    YearLength(d.year);
    YearLength(d.year + 50);
    MonthShift(d.year, d.month);
    MonthShift(d.year + 50, d.month);
    NoLeapPair(d.year);
  }

  /** Within a year the leap day moves every month after February, and no other, by one day. */
  lemma {:induction false} MonthShift(y: int, m: int)
    requires 1 <= m <= 12
    ensures DaysBeforeMonth(y, m) == DaysBeforeMonth(1, m) + (if m > 2 && IsLeap(y) then 1 else 0)
  {
    if m > 1 {
      MonthShift(y, m - 1);
    }
  }

  lemma WholeDays(t: Instant, from: int, to: int)
    requires from == t / DAY
    ensures to * DAY + t % DAY - t == (to - from) * DAY
  {
  }

  // ---- A closed form -------------------------------------------------------------------------

  /** The ordinal by arithmetic alone: leap years counted, and months of 30.6 days on average after February. */
  function Gregorian(y: int, m: int, d: int): int {
    var leap := (y % 4 == 0 && y % 100 != 0) || y % 400 == 0;
    365 * (y - 1) + (y - 1) / 4 - (y - 1) / 100 + (y - 1) / 400
    + (367 * m - 362) / 12 + (if m <= 2 then 0 else if leap then -1 else -2) + d
  }

  lemma MonthStart(y: int, m: int)
    requires 1 <= m <= 12
    ensures DaysBeforeMonth(y, m) == (367 * m - 362) / 12 + (if m <= 2 then 0 else if IsLeap(y) then -1 else -2)
  {
    MonthShift(y, m);
    assert DaysBeforeMonth(1, 3) == 59;
    assert DaysBeforeMonth(1, 5) == 120;
    assert DaysBeforeMonth(1, 7) == 181;
    assert DaysBeforeMonth(1, 9) == 243;
    assert DaysBeforeMonth(1, 11) == 304;
  }

  /** The date of an instant is the one day of the Gregorian calendar whose 24 hours contain it. */
  lemma CivilDate(t: Instant)
    ensures var d := DateOf(t);
            && 1 <= d.month <= 12 && 1 <= d.day
            && Gregorian(d.year, d.month, d.day)
               < (if d.month == 12 then Gregorian(d.year + 1, 1, 1) else Gregorian(d.year, d.month + 1, 1))
            && Gregorian(d.year, d.month, d.day) * 86_400_000_000 <= t < (Gregorian(d.year, d.month, d.day) + 1) * 86_400_000_000
  {
    hide *;
    var d := DateOf(t);
    DateFacts(t);
    IsGregorian(d);
    MonthLengths(d);
  }

  lemma DateFacts(t: Instant)
    ensures ValidDate(DateOf(t)) && Ordinal(DateOf(t)) * 86_400_000_000 <= t < (Ordinal(DateOf(t)) + 1) * 86_400_000_000
  {
  }

  lemma IsGregorian(d: Date)
    requires 1 <= d.month <= 12
    ensures Ordinal(d) == Gregorian(d.year, d.month, d.day)
  {
    LeapCount(d.year);
    MonthStart(d.year, d.month);
  }

  lemma MonthLengths(d: Date)
    requires ValidDate(d)
    ensures 1 <= d.month <= 12 && 1 <= d.day
    ensures Gregorian(d.year, d.month, d.day)
            < if d.month == 12 then Gregorian(d.year + 1, 1, 1) else Gregorian(d.year, d.month + 1, 1)
  {
    hide Gregorian;
    MonthLength(d.year, d.month);
    YearLength(d.year);
    IsGregorian(d);
    if d.month == 12 {
      IsGregorian(Date(d.year + 1, 1, 1));
      assert DaysBeforeMonth(d.year + 1, 1) == 0;
    } else {
      IsGregorian(Date(d.year, d.month + 1, 1));
    }
  }

  // ---- The first day of the monthly chart ----------------------------------------------------

  /** Step back 31 days a month from the first of this month, then snap to the first of the month. */
  function WindowStart(today: int, months: int): int {
    var first := FromOrdinal(today).(day := 1);
    var back := FromOrdinal(Ordinal(first) - 31 * (months - 1));
    Ordinal(back.(day := 1))
  }

  predicate All31(from: int, to: int) {
    forall m :: from <= m < to ==> MonthDays(m) == 31
  }

  /** A bound on the days that the months before month `m` lack of 31, counted from year 0. */
  function Shortfall(m: int): int {
    var r := m % 12;
    7 * (m / 12) + (if r < 2 then 0 else if r < 4 then 3 else if r < 6 then 4 else if r < 9 then 5 else if r < 11 then 6 else 7)
  }

  lemma NextShortfall(m: int)
    ensures 31 - MonthDays(m) <= Shortfall(m + 1) - Shortfall(m)
  {
    if m % 12 == 11 {
      assert (m + 1) / 12 == m / 12 + 1 && (m + 1) % 12 == 0;
    } else {
      assert (m + 1) / 12 == m / 12 && (m + 1) % 12 == m % 12 + 1;
    }
  }

  lemma {:induction false} StepBack(m: int, k: nat)
    ensures FirstOf(m - k) + 31 * k - (Shortfall(m) - Shortfall(m - k)) <= FirstOf(m) <= FirstOf(m - k) + 31 * k
    ensures FirstOf(m) == FirstOf(m - k) + 31 * k <==> All31(m - k, m)
  {
    hide FirstOf, Shortfall, MonthDays;
    if k > 0 {
      StepBack(m, k - 1);
      NextMonth(m - k);
      NextShortfall(m - k);
      MonthsAscend(m - k, m - k + 1);
      assert m - k + 1 == m - (k - 1);
      assert MonthDays(m - k) <= 31;
      assert All31(m - k, m) <==> MonthDays(m - k) == 31 && All31(m - (k - 1), m);
    }
  }

  /**
   For every day and every `months` in 1..12 the chart begins on the first of the month `months - 1`
   back when every month stepped over has 31 days, and one month earlier otherwise; never later.
  */
  lemma MonthlyWindow(today: int, months: int)
    requires 1 <= months <= 12
    ensures var m := MonthOf(today);
            var wanted := m - (months - 1);
            && (WindowStart(today, months) == FirstOf(wanted) <==> All31(wanted, m))
            && (WindowStart(today, months) == FirstOf(wanted - 1) <==> !All31(wanted, m))
            && WindowStart(today, months) <= FirstOf(wanted)
  {
    hide FirstOf, MonthOf, WindowStart, MonthDays;
    var m := MonthOf(today);
    var wanted := m - (months - 1);
    assert WindowStart(today, months) == if All31(wanted, m) then FirstOf(wanted) else FirstOf(wanted - 1) by {
      SnapsToMonth(today, months);
      Landing(m, months - 1);
    }
    MonthsAscend(wanted - 1, wanted);
  }

  lemma SnapsToMonth(today: int, months: int)
    ensures WindowStart(today, months) == FirstOf(MonthOf(FirstOf(MonthOf(today)) - 31 * (months - 1)))
  {
    hide FirstOf, MonthOf, MonthIndex, Ordinal;
    FirstDay(FromOrdinal(today));
    var landing := FirstOf(MonthOf(today)) - 31 * (months - 1);
    FirstDay(FromOrdinal(landing));
  }

  lemma FirstDay(d: Date)
    requires ValidDate(d)
    ensures FirstOf(MonthIndex(d)) == Ordinal(d.(day := 1))
  {
    var m := MonthIndex(d);
    assert m / 12 == d.year && m % 12 + 1 == d.month;
  }

  /** Thirty-one days a month for up to eleven months never overshoots by a whole month. */
  lemma Landing(m: int, k: nat)
    requires k <= 11
    ensures MonthOf(FirstOf(m) - 31 * k) == if All31(m - k, m) then m - k else m - k - 1
  {
    hide FirstOf, MonthOf, MonthDays;
    var landing := FirstOf(m) - 31 * k;
    StepBack(m, k);
    assert Shortfall(m) - Shortfall(m - k) <= 7;
    MonthsAscend(m - k - 1, m - k);
    MonthsAscend(m - k, m - k + 1);
    assert m - k - 1 + 1 == m - k;
    InMonth(landing, m - k);
    InMonth(landing, m - k - 1);
  }
}
