/** The rollup and the charts against the raw log they summarise, over whole runs. */
module AnalyticsLaws {
  import opened Wrappers
  import opened Calendar
  import opened Subscriptions
  import opened RequestLog
  import opened Analytics
  import opened Sums

  // ---- Sorting month names sorts months ------------------------------------------------------

  lemma {:induction false} BeforeConcat(p: string, q: string, x: string, y: string)
    requires |p| == |q|
    ensures Before(p + x, q + y) <==> Before(p, q) || (p == q && Before(x, y))
  {
    if p == "" {
      assert p + x == x && q + y == y;
    } else {
      assert (p + x)[1..] == p[1..] + x && (q + y)[1..] == q[1..] + y;
      BeforeConcat(p[1..], q[1..], x, y);
      assert p == [p[0]] + p[1..] && q == [q[0]] + q[1..];
    }
  }

  function Pow10(k: nat): int {
    if k == 0 then 1 else 10 * Pow10(k - 1)
  }

  lemma DigitOrder(a: int, b: int)
    requires 0 <= a < 10 && 0 <= b < 10
    ensures Before(["0123456789"[a]], ["0123456789"[b]]) <==> a < b
    ensures ["0123456789"[a]] == ["0123456789"[b]] <==> a == b
  {
  }

  /** Fixed-width decimal numerals compare as strings the way their numbers compare. */
  lemma {:induction false} DigitsOrder(a: int, b: int, k: nat)
    requires 0 <= a < Pow10(k) && 0 <= b < Pow10(k)
    ensures Before(Digits(a, k), Digits(b, k)) <==> a < b
    ensures Digits(a, k) == Digits(b, k) <==> a == b
    decreases k
  {
    if k > 0 {
      DigitsOrder(a / 10, b / 10, k - 1);
      DigitOrder(a % 10, b % 10);
      var x, y := ["0123456789"[a % 10]], ["0123456789"[b % 10]];
      BeforeConcat(Digits(a / 10, k - 1), Digits(b / 10, k - 1), x, y);
      assert Digits(a, k) == Digits(b, k) <==> Digits(a / 10, k - 1) == Digits(b / 10, k - 1) && x == y by {
        assert Digits(a, k)[..k - 1] == Digits(a / 10, k - 1) && Digits(a, k)[k - 1..] == x;
        assert Digits(b, k)[..k - 1] == Digits(b / 10, k - 1) && Digits(b, k)[k - 1..] == y;
      }
    }
  }

  predicate FourDigitYear(m: int) {
    1000 <= m / 12 <= 9999
  }

  /** For four-digit years the string order of "YYYY-MM" is the order of the months. */
  lemma MonthNameOrder(m: int, n: int)
    requires FourDigitYear(m) && FourDigitYear(n)
    ensures Before(MonthName(m), MonthName(n)) <==> m < n
    ensures MonthName(m) == MonthName(n) <==> m == n
  {
    hide Digits, Before;
    assert Pow10(4) == 10000 && Pow10(2) == 100;
    DigitsOrder(m / 12, n / 12, 4);
    DigitsOrder(m % 12 + 1, n % 12 + 1, 2);
    var (y, z) := (Digits(m / 12, 4), Digits(n / 12, 4));
    var (x, w) := (Digits(m % 12 + 1, 2), Digits(n % 12 + 1, 2));
    BeforeConcat(y + "-", z + "-", x, w);
    BeforeConcat(y, z, "-", "-");
    BeforeTotal("-", "-");
    assert MonthName(m) == (y + "-") + x && MonthName(n) == (z + "-") + w;
    assert MonthName(m)[..4] == y && MonthName(m)[5..] == x && MonthName(n)[..4] == z && MonthName(n)[5..] == w;
    assert (y + "-")[..4] == y && (z + "-")[..4] == z;
  }

  // ---- Reading month names back --------------------------------------------------------------

  predicate AllDigits(s: string) {
    forall c :: c in s ==> '0' <= c <= '9'
  }

  /** The number a decimal numeral stands for. */
  function Value(s: string): int {
    if s == "" then 0 else 10 * Value(s[..|s| - 1]) + (s[|s| - 1] as int - '0' as int)
  }

  /** Four digits for the year, a hyphen, two digits for the month. */
  predicate ReadsAs(key: string, year: int, month: int) {
    && |key| == 7 && key[4] == '-'
    && AllDigits(key[..4]) && Value(key[..4]) == year
    && AllDigits(key[5..]) && Value(key[5..]) == month
  }

  lemma {:induction false} DigitsRead(n: int, k: nat)
    requires 0 <= n < Pow10(k)
    ensures AllDigits(Digits(n, k)) && Value(Digits(n, k)) == n
    decreases k
  {
    if k > 0 {
      DigitsRead(n / 10, k - 1);
      DigitReads(n % 10);
      assert Digits(n, k)[..k - 1] == Digits(n / 10, k - 1) && Digits(n, k)[k - 1] == "0123456789"[n % 10];
    }
  }

  lemma DigitReads(d: int)
    requires 0 <= d < 10
    ensures '0' <= "0123456789"[d] <= '9' && "0123456789"[d] as int - '0' as int == d
  {
  }

  /** A month's name reads as its year and its month, for every month of a four-digit year. */
  lemma MonthNameReads(m: int)
    requires FourDigitYear(m)
    ensures ReadsAs(MonthName(m), m / 12, m % 12 + 1)
  {
    hide Digits, AllDigits, Value;
    assert Pow10(4) == 10000 && Pow10(2) == 100;
    DigitsRead(m / 12, 4);
    DigitsRead(m % 12 + 1, 2);
    var name := MonthName(m);
    assert name[..4] == Digits(m / 12, 4) && name[5..] == Digits(m % 12 + 1, 2);
  }

  /** The name of the month of a day reads as the year and the month of its date. */
  lemma MonthKeyReads(d: Date)
    requires ValidDate(d) && 1000 <= d.year <= 9999
    ensures ReadsAs(MonthKey(Ordinal(d)), d.year, d.month)
  {
    hide MonthName, Ordinal, ReadsAs;
    DateRoundTrip(d);
    assert MonthOf(Ordinal(d)) == MonthIndex(d);
    assert MonthIndex(d) / 12 == d.year && MonthIndex(d) % 12 + 1 == d.month;
    MonthNameReads(MonthIndex(d));
  }

  lemma {:induction false} SameValue(a: string, b: string)
    requires |a| == |b| && AllDigits(a) && AllDigits(b) && Value(a) == Value(b)
    ensures a == b
  {
    if a != "" {
      var n := |a| - 1;
      assert a == a[..n] + [a[n]] && b == b[..n] + [b[n]];
      assert a[n] in a && b[n] in b;
      assert forall c :: c in a[..n] ==> c in a;
      assert forall c :: c in b[..n] ==> c in b;
      SameValue(a[..n], b[..n]);
    }
  }

  /** Only one name reads as a given year and month. */
  lemma OneReading(a: string, b: string, year: int, month: int)
    requires ReadsAs(a, year, month) && ReadsAs(b, year, month)
    ensures a == b
  {
    hide AllDigits, Value;
    SameValue(a[..4], b[..4]);
    SameValue(a[5..], b[5..]);
    assert a == a[..4] + [a[4]] + a[5..] && b == b[..4] + [b[4]] + b[5..];
  }

  /** The chart's months are distinct and in calendar order, and each is a month of some row. */
  lemma ChartInCalendarOrder(usage: Usage, rows: set<Key>, chart: seq<MonthPoint>, i: nat, j: nat)
    requires Ascending(chart) && Lists(chart, MonthBuckets(usage, rows), MonthBuckets(usage, rows).Keys)
    requires forall k :: k in rows ==> FourDigitYear(MonthOf(k.1))
    requires i < j < |chart|
    ensures exists a: Key, b: Key :: a in rows && b in rows && chart[i].month == MonthKey(a.1)
                                     && chart[j].month == MonthKey(b.1) && MonthOf(a.1) < MonthOf(b.1)
  {
    hide MonthOf, MonthName, FourDigitYear, Before, SetSum;
    assert chart[i].month in MonthsOf(rows) && chart[j].month in MonthsOf(rows);
    var a: Key :| a in rows && MonthKey(a.1) == chart[i].month;
    var b: Key :| b in rows && MonthKey(b.1) == chart[j].month;
    assert Before(chart[i].month, chart[j].month);
    MonthNameOrder(MonthOf(a.1), MonthOf(b.1));
  }

  // ---- Totals --------------------------------------------------------------------------------

  function CountOf(buckets: map<string, Counts>): string -> nat {
    (m: string) => if m in buckets then buckets[m].count else 0
  }

  function ErrorCountOf(buckets: map<string, Counts>): string -> nat {
    (m: string) => if m in buckets then buckets[m].errors else 0
  }

  /** The buckets together hold exactly the counts and errors of the rows they were made from. */
  lemma {:induction false} BucketTotals(usage: Usage, rows: set<Key>)
    ensures var buckets := MonthBuckets(usage, rows);
            && SetSum(buckets.Keys, CountOf(buckets)) == SetSum(rows, CountAt(usage))
            && SetSum(buckets.Keys, ErrorCountOf(buckets)) == SetSum(rows, ErrorsAt(usage))
  {
    hide MonthKey, MonthBuckets, SetSum, CountAt, ErrorsAt;
    if rows == {} {
      NoBuckets(usage);
      var none := MonthBuckets(usage, rows);
      assert none.Keys == {};
      SetSumEmpty(CountOf(none));
      SetSumEmpty(ErrorCountOf(none));
      SetSumEmpty(CountAt(usage));
      SetSumEmpty(ErrorsAt(usage));
    } else {
      var k :| k in rows;
      var rest := rows - {k};
      BucketTotals(usage, rest);
      AddRow(usage, rest, k);
      assert rest + {k} == rows;
      SetSumAdd(rest, k, CountAt(usage));
      SetSumAdd(rest, k, ErrorsAt(usage));
      var before, m := MonthBuckets(usage, rest), MonthKey(k.1);
      BucketGrows(before, m, AddTo(before, m, CountAt(usage)(k), ErrorsAt(usage)(k))[m]);
    }
  }

  lemma BucketGrows(before: map<string, Counts>, m: string, c: Counts)
    ensures var after := before[m := c];
            && SetSum(after.Keys, CountOf(after)) + CountOf(before)(m) == SetSum(before.Keys, CountOf(before)) + c.count
            && SetSum(after.Keys, ErrorCountOf(after)) + ErrorCountOf(before)(m)
               == SetSum(before.Keys, ErrorCountOf(before)) + c.errors
  {
    hide SetSum;
    var after := before[m := c];
    var others := before.Keys - {m};
    assert after.Keys == others + {m};
    SetSumAdd(others, m, CountOf(after));
    SetSumAdd(others, m, ErrorCountOf(after));
    SetSumSame(others, CountOf(after), CountOf(before));
    SetSumSame(others, ErrorCountOf(after), ErrorCountOf(before));
    if m in before {
      SetSumRemove(before.Keys, m, CountOf(before));
      SetSumRemove(before.Keys, m, ErrorCountOf(before));
    } else {
      assert others == before.Keys;
    }
  }

  const MonthCount: MonthPoint -> nat := (p: MonthPoint) => p.counts.count
  const MonthErrors: MonthPoint -> nat := (p: MonthPoint) => p.counts.errors

  /** An ascending list of some months' buckets adds up to those buckets: no month twice, none missing. */
  lemma {:induction false} ListedSums(chart: seq<MonthPoint>, buckets: map<string, Counts>, months: set<string>)
    requires Ascending(chart) && Lists(chart, buckets, months)
    ensures Total(chart, MonthCount) == SetSum(months, CountOf(buckets))
    ensures Total(chart, MonthErrors) == SetSum(months, ErrorCountOf(buckets))
  {
    hide SetSum, Before;
    if chart == [] {
      assert months == {};
      SetSumEmpty(CountOf(buckets));
      SetSumEmpty(ErrorCountOf(buckets));
    } else {
      var n := |chart| - 1;
      var m := chart[n].month;
      LastListedOnce(chart, buckets, months);
      ListedSums(chart[..n], buckets, months - {m});
      SetSumRemove(months, m, CountOf(buckets));
      SetSumRemove(months, m, ErrorCountOf(buckets));
    }
  }

  lemma LastListedOnce(chart: seq<MonthPoint>, buckets: map<string, Counts>, months: set<string>)
    requires Ascending(chart) && Lists(chart, buckets, months) && chart != []
    ensures var n := |chart| - 1;
            Ascending(chart[..n]) && Lists(chart[..n], buckets, months - {chart[n].month}) && chart[n].month in months
  {
    hide Before;
    var n := |chart| - 1;
    forall i | 0 <= i < n
      ensures chart[i].month != chart[n].month
    {
      BeforeTotal(chart[i].month, chart[n].month);
    }
    forall m | m in months - {chart[n].month}
      ensures exists i :: 0 <= i < n && chart[..n][i].month == m
    {
      var i :| 0 <= i < |chart| && chart[i].month == m;
      assert chart[..n][i].month == m;
    }
  }

  /** The totals over the points that a monthly chart returns are the totals over the rollup rows it read. */
  lemma ChartTotals(usage: Usage, rows: set<Key>, chart: seq<MonthPoint>)
    requires Ascending(chart) && Lists(chart, MonthBuckets(usage, rows), MonthBuckets(usage, rows).Keys)
    ensures Total(chart, MonthCount) == SetSum(rows, CountAt(usage))
    ensures Total(chart, MonthErrors) == SetSum(rows, ErrorsAt(usage))
  {
    hide MonthBuckets, SetSum, Total;
    ListedSums(chart, MonthBuckets(usage, rows), MonthBuckets(usage, rows).Keys);
    BucketTotals(usage, rows);
  }

  // ---- The aggregates are counts of log rows -------------------------------------------------

  /** Positions in the log of the rows in scope that are dated on the day. */
  function RowsAt(logs: seq<LogRow>, scope: Option<UserId>, day: int): set<nat> {
    set i: nat | i < |logs| && (scope.None? || logs[i].user == scope) && logs[i].at / DAY == day
  }

  function FailedAt(logs: seq<LogRow>, scope: Option<UserId>, day: int): set<nat> {
    set i | i in RowsAt(logs, scope, day) && logs[i].status >= 400
  }

  function DurationOf(logs: seq<LogRow>): nat -> nat {
    (i: nat) => if i < |logs| then logs[i].ms else 0
  }

  lemma LastRowAt(logs: seq<LogRow>, scope: Option<UserId>, day: int)
    requires logs != []
    ensures var n := |logs| - 1;
            && n !in RowsAt(logs[..n], scope, day) && n !in FailedAt(logs[..n], scope, day)
            && RowsAt(logs, scope, day) == RowsAt(logs[..n], scope, day) + (if On(logs[n], scope, day) then {n} else {})
            && FailedAt(logs, scope, day)
               == FailedAt(logs[..n], scope, day) + (if On(logs[n], scope, day) && logs[n].IsError() then {n} else {})
  {
  }

  lemma {:induction false} CountsAre(logs: seq<LogRow>, scope: Option<UserId>, day: int)
    ensures Total(logs, Requests(scope, day)) == |RowsAt(logs, scope, day)|
    ensures Total(logs, Errors(scope, day)) == |FailedAt(logs, scope, day)|
  {
    if logs == [] {
      assert RowsAt(logs, scope, day) == {} == FailedAt(logs, scope, day);
    } else {
      hide RowsAt, FailedAt, On;
      CountsAre(logs[..|logs| - 1], scope, day);
      LastRowAt(logs, scope, day);
    }
  }

  lemma {:induction false} DurationsAre(logs: seq<LogRow>, scope: Option<UserId>, day: int)
    ensures Total(logs, Millis(scope, day)) == SetSum(RowsAt(logs, scope, day), DurationOf(logs))
  {
    if logs == [] {
      assert RowsAt(logs, scope, day) == {};
      SetSumEmpty(DurationOf(logs));
    } else {
      hide RowsAt, FailedAt, SetSum, On;
      var n: nat := |logs| - 1;
      DurationsAre(logs[..n], scope, day);
      LastRowAt(logs, scope, day);
      DurationsSame(logs, scope, day);
      if On(logs[n], scope, day) {
        SetSumAdd(RowsAt(logs[..n], scope, day), n, DurationOf(logs));
      } else {
        assert RowsAt(logs, scope, day) == RowsAt(logs[..n], scope, day);
      }
    }
  }

  lemma DurationsSame(logs: seq<LogRow>, scope: Option<UserId>, day: int)
    requires logs != []
    ensures var before := logs[..|logs| - 1];
            SetSum(RowsAt(before, scope, day), DurationOf(before)) == SetSum(RowsAt(before, scope, day), DurationOf(logs))
  {
    var before := logs[..|logs| - 1];
    SetSumSame(RowsAt(before, scope, day), DurationOf(before), DurationOf(logs));
  }

  /** A point of the daily chart is dated its day and counts the rows and the failed rows of that day. */
  lemma DayEntryIs(logs: seq<LogRow>, scope: Option<UserId>, day: int)
    ensures DayEntry(logs, scope, day)
            == DayPoint(day, Counts(|RowsAt(logs, scope, day)|, |FailedAt(logs, scope, day)|))
  {
    CountsAre(logs, scope, day);
  }

  /** The number of the user's rows that day, how many of them failed, and the whole part of their mean duration. */
  ghost predicate Summarises(d: DailyUsage, logs: seq<LogRow>, user: UserId, day: int) {
    var rows := RowsAt(logs, Some(user), day);
    && d.requestCount == |rows| && d.errorCount == |FailedAt(logs, Some(user), day)|
    && rows != {} && d.avgMs == SetSum(rows, DurationOf(logs)) / |rows|
  }

  /**
   What the rollup of a day stores: a summary of the day's rows for each user who has any; every other
   rollup row is as it was.
  */
  lemma RollupIs(usage: Usage, logs: seq<LogRow>, day: int, user: UserId, d: int)
    ensures var after := Rollup(usage, logs, day);
            if d == day && RowsAt(logs, Some(user), day) != {}
            then (user, d) in after && Summarises(after[(user, d)], logs, user, day)
            else if (user, d) in usage then (user, d) in after && after[(user, d)] == usage[(user, d)]
            else (user, d) !in after
  {
    hide SetSum, Total, RowsAt, Summarises, Summary;
    UsersHaveRows(logs, day, user);
    if RowsAt(logs, Some(user), day) != {} {
      SummaryIs(logs, user, day);
    }
  }

  lemma UsersHaveRows(logs: seq<LogRow>, day: int, user: UserId)
    ensures user in UsersOn(logs, day) <==> RowsAt(logs, Some(user), day) != {}
  {
    if user in UsersOn(logs, day) {
      var i :| 0 <= i < |logs| && logs[i].user == Some(user) && logs[i].Day() == day;
      assert i in RowsAt(logs, Some(user), day);
    }
    if RowsAt(logs, Some(user), day) != {} {
      var i :| i in RowsAt(logs, Some(user), day);
      assert logs[i] in logs;
    }
  }

  lemma SummaryIs(logs: seq<LogRow>, user: UserId, day: int)
    requires RowsAt(logs, Some(user), day) != {}
    ensures Summarises(Summary(logs, user, day), logs, user, day)
  {
    hide SetSum, Total, RowsAt, FailedAt, Requests, Errors, Millis;
    CountsAre(logs, Some(user), day);
    DurationsAre(logs, Some(user), day);
  }

  // ---- The rollup agrees with the log --------------------------------------------------------

  /** Rows of the log that belong to one of the given users and days. */
  function OnKeys(keys: set<Key>): LogRow -> nat {
    (row: LogRow) => if row.user.Some? && (row.user.value, row.Day()) in keys then 1 else 0
  }

  function ErrorsOnKeys(keys: set<Key>): LogRow -> nat {
    (row: LogRow) => if row.user.Some? && (row.user.value, row.Day()) in keys && row.IsError() then 1 else 0
  }

  function RequestsAt(logs: seq<LogRow>): Key -> nat {
    (k: Key) => Total(logs, Requests(Some(k.0), k.1))
  }

  function ErrorsIn(logs: seq<LogRow>): Key -> nat {
    (k: Key) => Total(logs, Errors(Some(k.0), k.1))
  }

  function MillisAt(logs: seq<LogRow>): Key -> nat {
    (k: Key) => Total(logs, Millis(Some(k.0), k.1))
  }

  /** Adding up per user and day is counting the rows once each. */
  lemma {:induction false} KeySums(logs: seq<LogRow>, keys: set<Key>)
    ensures SetSum(keys, RequestsAt(logs)) == Total(logs, OnKeys(keys))
    ensures SetSum(keys, ErrorsIn(logs)) == Total(logs, ErrorsOnKeys(keys))
  {
    if keys == {} {
      TotalZero(logs, OnKeys(keys));
      TotalZero(logs, ErrorsOnKeys(keys));
    } else {
      var k :| k in keys;
      KeySums(logs, keys - {k});
      SetSumRemove(keys, k, RequestsAt(logs));
      SetSumRemove(keys, k, ErrorsIn(logs));
      TotalSum(logs, OnKeys(keys - {k}), Requests(Some(k.0), k.1), OnKeys(keys));
      TotalSum(logs, ErrorsOnKeys(keys - {k}), Errors(Some(k.0), k.1), ErrorsOnKeys(keys));
    }
  }

  lemma {:induction false} HasRequests(logs: seq<LogRow>, user: UserId, day: int)
    ensures user in UsersOn(logs, day) <==> Total(logs, Requests(Some(user), day)) > 0
  {
    if logs != [] {
      var n := |logs| - 1;
      HasRequests(logs[..n], user, day);
      assert logs == logs[..n] + [logs[n]];
      assert user in UsersOn(logs, day) <==>
             user in UsersOn(logs[..n], day) || (logs[n].Day() == day && logs[n].user == Some(user));
    }
  }

  /** Rolling a day up again on an unchanged log changes nothing, and touches no other day. */
  lemma RollupIdempotent(usage: Usage, logs: seq<LogRow>, day: int)
    ensures Rollup(Rollup(usage, logs, day), logs, day) == Rollup(usage, logs, day)
    ensures forall k :: k in usage && k.1 != day ==> k in Rollup(usage, logs, day) && Rollup(usage, logs, day)[k] == usage[k]
    ensures forall k :: k in Rollup(usage, logs, day) ==> k in usage || (k.1 == day && k.0 in UsersOn(logs, day))
  {
    hide Summary, UsersOn;
  }

  /** A stored row never has more errors than requests, and its average never exceeds the true mean. */
  lemma SummaryBounds(logs: seq<LogRow>, user: UserId, day: int)
    ensures var row, ms := Summary(logs, user, day), Total(logs, Millis(Some(user), day));
            && row.errorCount <= row.requestCount
            && row.requestCount * row.avgMs <= ms
            && (row.requestCount > 0 ==> ms < row.requestCount * row.avgMs + row.requestCount)
  {
    TotalMonotone(logs, Errors(Some(user), day), Requests(Some(user), day));
    var row, ms := Summary(logs, user, day), Total(logs, Millis(Some(user), day));
    if row.requestCount > 0 {
      assert ms == row.requestCount * (ms / row.requestCount) + ms % row.requestCount;
    }
  }

  function Weighted(usage: Usage): Key -> nat {
    (k: Key) => if k in usage then usage[k].requestCount * usage[k].avgMs else 0
  }

  /** Over any set of rolled-up rows, truncating the averages loses less than one millisecond a request. */
  lemma {:induction false} RemainderBound(logs: seq<LogRow>, usage: Usage, keys: set<Key>)
    requires forall k :: k in keys ==> k in usage && usage[k] == Summary(logs, k.0, k.1) && usage[k].requestCount > 0
    ensures SetSum(keys, Weighted(usage)) <= SetSum(keys, MillisAt(logs))
    ensures keys != {} ==>
              SetSum(keys, MillisAt(logs)) < SetSum(keys, Weighted(usage)) + SetSum(keys, CountAt(usage))
  {
    hide Summary;
    if keys != {} {
      var k :| k in keys;
      RemainderBound(logs, usage, keys - {k});
      SetSumRemove(keys, k, Weighted(usage));
      SetSumRemove(keys, k, MillisAt(logs));
      SetSumRemove(keys, k, CountAt(usage));
      SummaryBounds(logs, k.0, k.1);
      if keys - {k} == {} {
        SetSumEmpty(MillisAt(logs));
        SetSumEmpty(Weighted(usage));
        SetSumEmpty(CountAt(usage));
      }
    }
  }
}
