/**
 Runs of the analytics tables: rows are logged as the clock moves, days are rolled up, old rows are
 purged. Charts read from the rollup then say what the complete history says.
*/
module AnalyticsRuns {
  import opened Wrappers
  import opened Calendar
  import opened Subscriptions
  import opened RequestLog
  import opened Analytics
  import opened AnalyticsLaws
  import opened Sums

  /** `history` is every row ever logged; `logs` are the rows not yet purged. */
  datatype Tables = Tables(history: seq<LogRow>, logs: seq<LogRow>, usage: Usage, clock: Instant, purgedTo: Instant)

  datatype Event =
    | Tick(micros: nat)
    | Log(user: Option<UserId>, status: nat, ms: nat)
    | RollUp(day: int)
    | Purge(before: Instant)

  function Keep(logs: seq<LogRow>, from: Instant): seq<LogRow> {
    if logs == [] then []
    else Keep(logs[..|logs| - 1], from) + if logs[|logs| - 1].at >= from then [logs[|logs| - 1]] else []
  }

  function Happen(s: Tables, e: Event): Tables {
    match e
    case Tick(d) => s.(clock := s.clock + d)
    case Log(user, status, ms) =>
      var row := LogRow(user, status, ms, s.clock);
      s.(history := s.history + [row], logs := s.logs + [row])
    case RollUp(day) => s.(usage := Rollup(s.usage, s.logs, day))
    case Purge(before) =>
      s.(logs := Keep(s.logs, before), purgedTo := if before > s.purgedTo then before else s.purgedTo)
  }

  function HappenAll(start: Instant, es: seq<Event>): Tables {
    if es == [] then Tables([], [], map[], start, 0)
    else Happen(HappenAll(start, es[..|es| - 1]), es[|es| - 1])
  }

  /**
   Days rolled up once they had ended, while none of their rows had been purged, and not rolled up
   again since any were.
  */
  function Settled(start: Instant, es: seq<Event>): set<int> {
    if es == [] then {}
    else
      var before, e := HappenAll(start, es[..|es| - 1]), es[|es| - 1];
      var settled := Settled(start, es[..|es| - 1]);
      if !e.RollUp? then settled
      else if e.day < before.clock / DAY && before.purgedTo <= e.day * DAY then settled + {e.day}
      else settled - {e.day}
  }

  // ---- The invariant -------------------------------------------------------------------------

  /** The remaining log has all rows of a day. */
  ghost predicate Intact(s: Tables, day: int) {
    && (forall user :: Total(s.logs, Requests(Some(user), day)) == Total(s.history, Requests(Some(user), day)))
    && (forall user :: Total(s.logs, Errors(Some(user), day)) == Total(s.history, Errors(Some(user), day)))
    && (forall user :: Total(s.logs, Millis(Some(user), day)) == Total(s.history, Millis(Some(user), day)))
  }

  /** The rollup holds, for every user, what the complete history says about the day. */
  ghost predicate Faithful(s: Tables, day: int) {
    forall user: UserId ::
      if user in UsersOn(s.history, day)
      then (user, day) in s.usage && s.usage[(user, day)] == Summary(s.history, user, day)
      else (user, day) !in s.usage
  }

  ghost predicate TablesSound(s: Tables, settled: set<int>) {
    && (forall row :: row in s.logs ==> row in s.history)
    && (forall row :: row in s.history ==> row.at <= s.clock)
    && (forall day :: s.purgedTo <= day * DAY ==> Intact(s, day))
    && (forall k :: k in s.usage ==> k.0 in UsersOn(s.history, k.1))
    && (forall day :: day in settled ==> day < s.clock / DAY && Faithful(s, day))
  }

  lemma {:induction false} KeptTotal(logs: seq<LogRow>, from: Instant, f: LogRow -> nat)
    requires forall row :: row in logs && row.at < from ==> f(row) == 0
    ensures Total(Keep(logs, from), f) == Total(logs, f)
  {
    if logs != [] {
      var n := |logs| - 1;
      assert logs[n] in logs;
      assert forall row :: row in logs[..n] ==> row in logs;
      KeptTotal(logs[..n], from, f);
      if logs[n].at >= from {
        TotalAppend(Keep(logs[..n], from), logs[n], f);
      } else {
        assert Keep(logs, from) == Keep(logs[..n], from);
      }
    }
  }

  lemma {:induction false} KeptRows(logs: seq<LogRow>, from: Instant)
    ensures forall row :: row in Keep(logs, from) ==> row in logs
  {
    if logs != [] {
      KeptRows(logs[..|logs| - 1], from);
    }
  }

  lemma PurgeSound(s: Tables, settled: set<int>, before: Instant)
    requires TablesSound(s, settled)
    ensures TablesSound(Happen(s, Purge(before)), settled)
  {
    hide UsersOn, Summary, Total;
    var t := Happen(s, Purge(before));
    KeptRows(s.logs, before);
    forall day | t.purgedTo <= day * DAY
      ensures Intact(t, day)
    {
      assert Intact(s, day);
      assert forall row: LogRow :: row.at < before ==> row.Day() != day;
      forall user
        ensures Total(t.logs, Requests(Some(user), day)) == Total(s.logs, Requests(Some(user), day))
        ensures Total(t.logs, Errors(Some(user), day)) == Total(s.logs, Errors(Some(user), day))
        ensures Total(t.logs, Millis(Some(user), day)) == Total(s.logs, Millis(Some(user), day))
      {
        KeptTotal(s.logs, before, Requests(Some(user), day));
        KeptTotal(s.logs, before, Errors(Some(user), day));
        KeptTotal(s.logs, before, Millis(Some(user), day));
      }
    }
    forall day | day in settled
      ensures Faithful(t, day)
    {
      assert Faithful(s, day);
    }
  }

  /** A row logged now belongs to a day that has not ended, so it leaves every settled day as it was. */
  lemma LogSound(s: Tables, settled: set<int>, user: Option<UserId>, status: nat, ms: nat)
    requires TablesSound(s, settled)
    ensures TablesSound(Happen(s, Log(user, status, ms)), settled)
  {
    hide Summary, Total, Requests, Errors, Millis;
    var t := Happen(s, Log(user, status, ms));
    var row := LogRow(user, status, ms, s.clock);
    forall day | t.purgedTo <= day * DAY
      ensures Intact(t, day)
    {
      assert Intact(s, day);
      forall u
        ensures Total(t.logs, Requests(Some(u), day)) == Total(t.history, Requests(Some(u), day))
        ensures Total(t.logs, Errors(Some(u), day)) == Total(t.history, Errors(Some(u), day))
        ensures Total(t.logs, Millis(Some(u), day)) == Total(t.history, Millis(Some(u), day))
      {
        AppendBoth(s.logs, s.history, row, Requests(Some(u), day));
        AppendBoth(s.logs, s.history, row, Errors(Some(u), day));
        AppendBoth(s.logs, s.history, row, Millis(Some(u), day));
      }
    }
    assert forall k :: k in t.usage ==> k.0 in UsersOn(t.history, k.1);
    forall day | day in settled
      ensures Faithful(t, day)
    {
      assert Faithful(s, day);
      OtherDay(s.history, row, day);
    }
  }

  lemma AppendBoth(a: seq<LogRow>, b: seq<LogRow>, row: LogRow, f: LogRow -> nat)
    requires Total(a, f) == Total(b, f)
    ensures Total(a + [row], f) == Total(b + [row], f)
  {
    TotalAppend(a, row, f);
    TotalAppend(b, row, f);
  }

  lemma OtherDay(logs: seq<LogRow>, row: LogRow, day: int)
    requires row.Day() != day
    ensures UsersOn(logs + [row], day) == UsersOn(logs, day)
    ensures forall user: UserId :: Summary(logs + [row], user, day) == Summary(logs, user, day)
  {
    forall user: UserId
      ensures Summary(logs + [row], user, day) == Summary(logs, user, day)
    {
      TotalAppend(logs, row, Requests(Some(user), day));
      TotalAppend(logs, row, Errors(Some(user), day));
      TotalAppend(logs, row, Millis(Some(user), day));
    }
  }

  lemma IntactSummary(s: Tables, day: int)
    requires Intact(s, day)
    ensures UsersOn(s.logs, day) == UsersOn(s.history, day)
    ensures forall user: UserId :: Summary(s.logs, user, day) == Summary(s.history, user, day)
  {
    hide Total, UsersOn;
    forall user: UserId
      ensures user in UsersOn(s.logs, day) <==> user in UsersOn(s.history, day)
    {
      HasRequests(s.logs, user, day);
      HasRequests(s.history, user, day);
    }
  }

  /** Every settled day but the one rolled up keeps its rows. */
  lemma RollUpElsewhere(s: Tables, settled: set<int>, day: int)
    requires TablesSound(s, settled)
    ensures TablesSound(Happen(s, RollUp(day)), settled - {day})
  {
    hide Summary, Total;
    var t := Happen(s, RollUp(day));
    forall d | s.purgedTo <= d * DAY
      ensures Intact(t, d)
    {
      assert Intact(s, d);
    }
    assert forall user :: user in UsersOn(s.logs, day) ==> user in UsersOn(s.history, day);
    forall d | d in settled && d != day
      ensures Faithful(t, d)
    {
      assert Faithful(s, d);
    }
  }

  /** Rolled up from a log that still has all of its rows, the day reads like the history. */
  lemma RollUpFaithful(s: Tables, settled: set<int>, day: int)
    requires TablesSound(s, settled) && s.purgedTo <= day * DAY
    ensures Faithful(Happen(s, RollUp(day)), day)
  {
    hide Summary, Total;
    assert Intact(s, day);
    IntactSummary(s, day);
  }

  lemma RollUpSound(s: Tables, settled: set<int>, day: int)
    requires TablesSound(s, settled)
    ensures TablesSound(Happen(s, RollUp(day)), settled - {day})
    ensures day < s.clock / DAY && s.purgedTo <= day * DAY ==> TablesSound(Happen(s, RollUp(day)), settled + {day})
  {
    hide Summary, Total, UsersOn, Intact, Faithful, Rollup;
    RollUpElsewhere(s, settled, day);
    if s.purgedTo <= day * DAY {
      RollUpFaithful(s, settled, day);
    }
  }

  lemma {:induction false} RunTablesSound(start: Instant, es: seq<Event>)
    ensures TablesSound(HappenAll(start, es), Settled(start, es))
  {
    hide TablesSound, Happen;
    if es == [] {
      EmptySound(start);
    } else {
      var before, e, settled := HappenAll(start, es[..|es| - 1]), es[|es| - 1], Settled(start, es[..|es| - 1]);
      RunTablesSound(start, es[..|es| - 1]);
      match e
      case Tick(d) => TickSound(before, settled, d);
      case Log(user, status, ms) => LogSound(before, settled, user, status, ms);
      case RollUp(day) => RollUpSound(before, settled, day);
      case Purge(t) => PurgeSound(before, settled, t);
    }
  }

  lemma EmptySound(start: Instant)
    ensures TablesSound(Tables([], [], map[], start, 0), {})
  {
  }

  lemma TickSound(s: Tables, settled: set<int>, d: nat)
    requires TablesSound(s, settled)
    ensures TablesSound(Happen(s, Tick(d)), settled)
  {
    hide UsersOn, Summary, Total;
    var t := Happen(s, Tick(d));
    assert s.clock / DAY <= t.clock / DAY;
    forall day | s.purgedTo <= day * DAY
      ensures Intact(t, day)
    {
      assert Intact(s, day);
    }
    forall day | day in settled
      ensures Faithful(t, day)
    {
      assert Faithful(s, day);
    }
  }

  // ---- The chart is the history --------------------------------------------------------------

  /** Rows of the history with a user in scope, in the month, on a settled day of the chart's window. */
  predicate Charted(row: LogRow, scope: Option<UserId>, days: set<int>, earliest: int, month: string) {
    && row.user.Some? && InScope(row.user, scope)
    && row.Day() in days && earliest <= row.Day() && MonthKey(row.Day()) == month
  }

  function ChartedRows(scope: Option<UserId>, days: set<int>, earliest: int, month: string): LogRow -> nat {
    (row: LogRow) => if Charted(row, scope, days, earliest, month) then 1 else 0
  }

  /** The rows counted by `f` that are errors. */
  function OnlyErrors(f: LogRow -> nat): LogRow -> nat {
    (row: LogRow) => if row.IsError() then f(row) else 0
  }

  /** Every rollup row the chart reads is for a settled day: no day was rolled up only before it ended. */
  ghost predicate OnlySettled(rows: set<Key>, settled: set<int>) {
    forall k :: k in rows ==> k.1 in settled
  }

  /**
   Summing the rollup by month gives the same months, counts and errors as grouping the complete
   history by month directly, on the days that are settled, whatever has been purged since.
  */
  lemma ChartIsHistory(start: Instant, es: seq<Event>, scope: Option<UserId>, earliest: int, month: string)
    requires OnlySettled(ChartRows(HappenAll(start, es).usage, scope, earliest), Settled(start, es))
    ensures var s, days := HappenAll(start, es), Settled(start, es);
            var buckets := MonthBuckets(s.usage, ChartRows(s.usage, scope, earliest));
            var count := Total(s.history, ChartedRows(scope, days, earliest, month));
            var errors := Total(s.history, OnlyErrors(ChartedRows(scope, days, earliest, month)));
            && (month in buckets <==> count > 0)
            && (month in buckets ==> buckets[month] == Counts(count, errors))
  {
    hide MonthKey, HappenAll, Settled, Total, SetSum, UsersOn, Summary;
    var s, days := HappenAll(start, es), Settled(start, es);
    RunTablesSound(start, es);
    var rows := ChartRows(s.usage, scope, earliest);
    var keys := InMonthKey(rows, month);
    KeySums(s.history, keys);
    forall k | k in keys
      ensures CountAt(s.usage)(k) == RequestsAt(s.history)(k) && ErrorsAt(s.usage)(k) == ErrorsIn(s.history)(k)
    {
      SettledRow(s, days, k);
    }
    SetSumSame(keys, CountAt(s.usage), RequestsAt(s.history));
    SetSumSame(keys, ErrorsAt(s.usage), ErrorsIn(s.history));
    forall i | 0 <= i < |s.history|
      ensures OnKeys(keys)(s.history[i]) == ChartedRows(scope, days, earliest, month)(s.history[i])
      ensures ErrorsOnKeys(keys)(s.history[i]) == OnlyErrors(ChartedRows(scope, days, earliest, month))(s.history[i])
    {
      RowCharted(s, days, scope, earliest, month, s.history[i]);
    }
    TotalSame(s.history, OnKeys(keys), ChartedRows(scope, days, earliest, month));
    TotalSame(s.history, ErrorsOnKeys(keys), OnlyErrors(ChartedRows(scope, days, earliest, month)));
    if keys == {} {
      SetSumEmpty(RequestsAt(s.history));
      assert forall k :: k in rows && MonthKey(k.1) == month ==> k in keys;
    } else {
      var k :| k in keys;
      assert MonthKey(k.1) in MonthsOf(rows);
      SetSumRemove(keys, k, RequestsAt(s.history));
      SettledRow(s, days, k);
    }
  }

  function FinishedRows(scope: Option<UserId>, earliest: int, today: int, month: string): LogRow -> nat {
    (row: LogRow) =>
      if row.user.Some? && InScope(row.user, scope) && earliest <= row.Day() < today && MonthKey(row.Day()) == month
      then 1 else 0
  }

  /** With every finished day of the window settled and none rolled up early, a bucket is the month's finished days. */
  lemma ChartIsFinishedDays(start: Instant, es: seq<Event>, scope: Option<UserId>, earliest: int, month: string)
    requires var s := HappenAll(start, es);
             && (forall day :: earliest <= day < s.clock / DAY ==> day in Settled(start, es))
             && (forall k :: k in ChartRows(s.usage, scope, earliest) ==> k.1 < s.clock / DAY)
    ensures var s := HappenAll(start, es);
            var buckets := MonthBuckets(s.usage, ChartRows(s.usage, scope, earliest));
            var count := Total(s.history, FinishedRows(scope, earliest, s.clock / DAY, month));
            var errors := Total(s.history, OnlyErrors(FinishedRows(scope, earliest, s.clock / DAY, month)));
            && (month in buckets <==> count > 0)
            && (month in buckets ==> buckets[month] == Counts(count, errors))
  {
    hide MonthKey, HappenAll, Settled, Total, MonthBuckets;
    var s, days := HappenAll(start, es), Settled(start, es);
    ChartIsHistory(start, es, scope, earliest, month);
    RunTablesSound(start, es);
    TotalSame(s.history, ChartedRows(scope, days, earliest, month), FinishedRows(scope, earliest, s.clock / DAY, month));
    TotalSame(s.history, OnlyErrors(ChartedRows(scope, days, earliest, month)),
              OnlyErrors(FinishedRows(scope, earliest, s.clock / DAY, month)));
  }

  // ---- The chart by year and month -----------------------------------------------------------

  /** The row is of a user in scope and dated in the given month of the given year, from day `earliest` on. */
  predicate DatedIn(row: LogRow, scope: Option<UserId>, earliest: int, year: int, month: int) {
    && row.user.Some? && (scope.None? || row.user == scope) && earliest <= row.at / DAY
    && DateOf(row.at).year == year && DateOf(row.at).month == month
  }

  function DatedRows(days: set<int>, scope: Option<UserId>, earliest: int, year: int, month: int): LogRow -> nat {
    (row: LogRow) => if row.at / DAY in days && DatedIn(row, scope, earliest, year, month) then 1 else 0
  }

  function DatedErrors(days: set<int>, scope: Option<UserId>, earliest: int, year: int, month: int): LogRow -> nat {
    (row: LogRow) =>
      if row.at / DAY in days && DatedIn(row, scope, earliest, year, month) && row.status >= 400 then 1 else 0
  }

  ghost predicate FourDigitYears(logs: seq<LogRow>) {
    forall row :: row in logs ==> 1000 <= DateOf(row.at).year <= 9999
  }

  /** Rows are of one month exactly when their dates have that year and month. */
  lemma SameMonthKey(row: LogRow, year: int, month: int)
    requires 1000 <= year <= 9999 && 1 <= month <= 12 && 1000 <= DateOf(row.at).year <= 9999
    ensures MonthKey(row.Day()) == MonthName(12 * year + month - 1)
            <==> DateOf(row.at).year == year && DateOf(row.at).month == month
    ensures ReadsAs(MonthKey(row.Day()), DateOf(row.at).year, DateOf(row.at).month)
  {
    hide MonthName, ReadsAs, MonthOf;
    var d := DateOf(row.at);
    MonthKeyReads(d);
    assert Ordinal(d) == row.Day() && MonthOf(row.Day()) == MonthIndex(d);
    assert MonthIndex(d) / 12 == d.year && (12 * year + month - 1) / 12 == year;
    MonthNameOrder(MonthIndex(d), 12 * year + month - 1);
  }

  /**
   The monthly chart that is returned, read as years and months: its point for a month carries exactly
   the counts and errors of the complete history's rows dated in that month, on settled days; a month is
   listed exactly when it has such rows; and every point reads as a month.
  */
  lemma ChartByMonth(start: Instant, es: seq<Event>, scope: Option<UserId>, earliest: int, chart: seq<MonthPoint>,
                     year: int, month: int)
    requires OnlySettled(ChartRows(HappenAll(start, es).usage, scope, earliest), Settled(start, es))
    requires var buckets := MonthBuckets(HappenAll(start, es).usage, ChartRows(HappenAll(start, es).usage, scope, earliest));
             Ascending(chart) && Lists(chart, buckets, buckets.Keys)
    requires FourDigitYears(HappenAll(start, es).history) && 1000 <= year <= 9999 && 1 <= month <= 12
    ensures var s, days := HappenAll(start, es), Settled(start, es);
            var count := Total(s.history, DatedRows(days, scope, earliest, year, month));
            var errors := Total(s.history, DatedErrors(days, scope, earliest, year, month));
            && (count > 0 <==> exists i :: 0 <= i < |chart| && ReadsAs(chart[i].month, year, month))
            && (forall i :: 0 <= i < |chart| && ReadsAs(chart[i].month, year, month) ==>
                  chart[i].counts == Counts(count, errors))
            && (forall i :: 0 <= i < |chart| ==> NamesAMonth(chart[i].month))
  {
    hide HappenAll, Settled, Total, MonthBuckets, MonthName, ReadsAs, OnlySettled, Before, NamesAMonth, Charted, DatedIn;
    var s, days := HappenAll(start, es), Settled(start, es);
    var key := MonthName(12 * year + month - 1);
    var buckets := MonthBuckets(s.usage, ChartRows(s.usage, scope, earliest));
    ChartIsHistory(start, es, scope, earliest, key);
    KeyReads(year, month);
    forall i | 0 <= i < |s.history|
      ensures Charted(s.history[i], scope, days, earliest, key)
              <==> s.history[i].at / DAY in days && DatedIn(s.history[i], scope, earliest, year, month)
    {
      assert s.history[i] in s.history;
      ChartedIsDated(s.history[i], scope, days, earliest, year, month);
    }
    TotalSame(s.history, ChartedRows(scope, days, earliest, key), DatedRows(days, scope, earliest, year, month));
    TotalSame(s.history, OnlyErrors(ChartedRows(scope, days, earliest, key)), DatedErrors(days, scope, earliest, year, month));
    forall i | 0 <= i < |chart|
      ensures ReadsAs(chart[i].month, year, month) <==> chart[i].month == key
    {
      if ReadsAs(chart[i].month, year, month) {
        OneReading(chart[i].month, key, year, month);
      }
    }
    EveryBucketNamed(start, es, scope, earliest);
  }

  lemma KeyReads(year: int, month: int)
    requires 1000 <= year <= 9999 && 1 <= month <= 12
    ensures ReadsAs(MonthName(12 * year + month - 1), year, month)
  {
    hide ReadsAs, MonthName;
    assert (12 * year + month - 1) / 12 == year && (12 * year + month - 1) % 12 + 1 == month;
    MonthNameReads(12 * year + month - 1);
  }

  lemma ChartedIsDated(row: LogRow, scope: Option<UserId>, days: set<int>, earliest: int, year: int, month: int)
    requires 1000 <= DateOf(row.at).year <= 9999 && 1000 <= year <= 9999 && 1 <= month <= 12
    ensures Charted(row, scope, days, earliest, MonthName(12 * year + month - 1))
            <==> row.at / DAY in days && DatedIn(row, scope, earliest, year, month)
  {
    hide MonthName, MonthOf, ReadsAs;
    SameMonthKey(row, year, month);
  }

  ghost predicate NamesAMonth(key: string) {
    exists year: int, month: int :: 1 <= month <= 12 && ReadsAs(key, year, month)
  }

  lemma EveryBucketNamed(start: Instant, es: seq<Event>, scope: Option<UserId>, earliest: int)
    requires FourDigitYears(HappenAll(start, es).history)
    ensures var usage := HappenAll(start, es).usage;
            forall key :: key in MonthBuckets(usage, ChartRows(usage, scope, earliest)) ==> NamesAMonth(key)
  {
    hide HappenAll, Settled, MonthKey, NamesAMonth, SetSum, CountAt, ErrorsAt, TablesSound;
    var s := HappenAll(start, es);
    RunTablesSound(start, es);
    forall key | key in MonthsOf(ChartRows(s.usage, scope, earliest))
      ensures NamesAMonth(key)
    {
      var k :| k in ChartRows(s.usage, scope, earliest) && MonthKey(k.1) == key;
      UsageNamed(s, Settled(start, es), k);
    }
  }

  lemma UsageNamed(s: Tables, settled: set<int>, k: Key)
    requires TablesSound(s, settled) && k in s.usage && FourDigitYears(s.history)
    ensures NamesAMonth(MonthKey(k.1))
  {
    hide MonthKey, ReadsAs, Faithful, Intact;
    assert k.0 in UsersOn(s.history, k.1);
    var row :| row in s.history && row.Day() == k.1 && row.user == Some(k.0);
    SameMonthKey(row, DateOf(row.at).year, DateOf(row.at).month);
  }

  function FinishedIn(today: int, scope: Option<UserId>, earliest: int, year: int, month: int): LogRow -> nat {
    (row: LogRow) => if row.at / DAY < today && DatedIn(row, scope, earliest, year, month) then 1 else 0
  }

  function FailedIn(today: int, scope: Option<UserId>, earliest: int, year: int, month: int): LogRow -> nat {
    (row: LogRow) =>
      if row.at / DAY < today && DatedIn(row, scope, earliest, year, month) && row.status >= 400 then 1 else 0
  }

  /** When every finished day of the window is settled and none was rolled up early, the points are the months' finished days. */
  lemma ChartByFinishedMonth(start: Instant, es: seq<Event>, scope: Option<UserId>, earliest: int, chart: seq<MonthPoint>,
                             year: int, month: int)
    requires var s := HappenAll(start, es);
             && (forall day :: earliest <= day < s.clock / DAY ==> day in Settled(start, es))
             && (forall k :: k in ChartRows(s.usage, scope, earliest) ==> k.1 < s.clock / DAY)
             && FourDigitYears(s.history)
             && var buckets := MonthBuckets(s.usage, ChartRows(s.usage, scope, earliest));
                Ascending(chart) && Lists(chart, buckets, buckets.Keys)
    requires 1000 <= year <= 9999 && 1 <= month <= 12
    ensures var s := HappenAll(start, es);
            var count := Total(s.history, FinishedIn(s.clock / DAY, scope, earliest, year, month));
            var errors := Total(s.history, FailedIn(s.clock / DAY, scope, earliest, year, month));
            && (count > 0 <==> exists i :: 0 <= i < |chart| && ReadsAs(chart[i].month, year, month))
            && (forall i :: 0 <= i < |chart| && ReadsAs(chart[i].month, year, month) ==>
                  chart[i].counts == Counts(count, errors))
  {
    hide HappenAll, Settled, Total, MonthBuckets, ReadsAs, NamesAMonth, Ascending, Lists;
    var s, days := HappenAll(start, es), Settled(start, es);
    ChartByMonth(start, es, scope, earliest, chart, year, month);
    RunTablesSound(start, es);
    TotalSame(s.history, DatedRows(days, scope, earliest, year, month), FinishedIn(s.clock / DAY, scope, earliest, year, month));
    TotalSame(s.history, DatedErrors(days, scope, earliest, year, month), FailedIn(s.clock / DAY, scope, earliest, year, month));
  }

  lemma SettledRow(s: Tables, days: set<int>, k: Key)
    requires TablesSound(s, days) && k in s.usage && k.1 in days
    ensures s.usage[k].requestCount == Total(s.history, Requests(Some(k.0), k.1)) > 0
    ensures s.usage[k].errorCount == Total(s.history, Errors(Some(k.0), k.1))
  {
    hide Total, UsersOn;
    assert Faithful(s, k.1);
    HasRequests(s.history, k.0, k.1);
  }

  lemma RowCharted(s: Tables, days: set<int>, scope: Option<UserId>, earliest: int, month: string, row: LogRow)
    requires TablesSound(s, days) && row in s.history
    requires OnlySettled(ChartRows(s.usage, scope, earliest), days)
    ensures Charted(row, scope, days, earliest, month)
            <==> row.user.Some? && (row.user.value, row.Day()) in InMonthKey(ChartRows(s.usage, scope, earliest), month)
  {
    hide MonthKey, Summary, Total;
    if row.user.Some? && row.Day() in days {
      assert Faithful(s, row.Day());
      assert row.user.value in UsersOn(s.history, row.Day());
    }
  }

  // ---- The daily chart -----------------------------------------------------------------------

  function WindowRows(scope: Option<UserId>, from: int, to: int): LogRow -> nat {
    (row: LogRow) => if InScope(row.user, scope) && from <= row.Day() < to then 1 else 0
  }

  function FromDay(scope: Option<UserId>, from: int): LogRow -> nat {
    (row: LogRow) => if InScope(row.user, scope) && from <= row.Day() then 1 else 0
  }

  const PointCount: DayPoint -> nat := (p: DayPoint) => p.counts.count
  const PointErrors: DayPoint -> nat := (p: DayPoint) => p.counts.errors

  /** The chart's counts and errors sum to those of the rows dated in its window. */
  lemma {:induction false} DailySums(logs: seq<LogRow>, scope: Option<UserId>, start: int, chart: seq<DayPoint>)
    requires forall i :: 0 <= i < |chart| ==> chart[i] == DayEntry(logs, scope, start + i)
    ensures Total(chart, PointCount) == Total(logs, WindowRows(scope, start, start + |chart|))
    ensures Total(chart, PointErrors) == Total(logs, OnlyErrors(WindowRows(scope, start, start + |chart|)))
  {
    var n := |chart| - 1;
    if n < 0 {
      TotalZero(logs, WindowRows(scope, start, start));
      TotalZero(logs, OnlyErrors(WindowRows(scope, start, start)));
    } else {
      DailySums(logs, scope, start, chart[..n]);
      var before, after := WindowRows(scope, start, start + n), WindowRows(scope, start, start + n + 1);
      TotalSum(logs, before, Requests(scope, start + n), after);
      TotalSum(logs, OnlyErrors(before), Errors(scope, start + n), OnlyErrors(after));
      assert chart[n].counts == Counts(Total(logs, Requests(scope, start + n)), Total(logs, Errors(scope, start + n)));
    }
  }

  /**
   The daily totals are those of the window's rows, and, when no row is dated after the chart's last
   day, those of all rows from its first day on.
  */
  lemma DailyTotal(logs: seq<LogRow>, scope: Option<UserId>, start: int, chart: seq<DayPoint>)
    requires forall i :: 0 <= i < |chart| ==> chart[i] == DayEntry(logs, scope, start + i)
    ensures Total(chart, PointCount) == Total(logs, WindowRows(scope, start, start + |chart|))
    ensures Total(chart, PointErrors) == Total(logs, OnlyErrors(WindowRows(scope, start, start + |chart|)))
    ensures (forall row :: row in logs ==> row.Day() < start + |chart|) ==>
              && Total(chart, PointCount) == Total(logs, FromDay(scope, start))
              && Total(chart, PointErrors) == Total(logs, OnlyErrors(FromDay(scope, start)))
  {
    hide Total;
    DailySums(logs, scope, start, chart);
    if forall row :: row in logs ==> row.Day() < start + |chart| {
      assert forall i :: 0 <= i < |logs| ==> logs[i] in logs;
      TotalSame(logs, WindowRows(scope, start, start + |chart|), FromDay(scope, start));
      TotalSame(logs, OnlyErrors(WindowRows(scope, start, start + |chart|)), OnlyErrors(FromDay(scope, start)));
    }
  }

  function NoUser(day: int): LogRow -> nat {
    (row: LogRow) => if row.user.None? && row.Day() == day then 1 else 0
  }

  function KeysOn(users: set<UserId>, day: int): set<Key> {
    set u | u in users :: (u, day)
  }

  /** The system-wide entry of a day exceeds the sum of the users' entries by exactly the rows without a user. */
  lemma SystemEntry(logs: seq<LogRow>, day: int)
    ensures var system, keys := DayEntry(logs, None, day).counts, KeysOn(UsersOn(logs, day), day);
            && system.count == SetSum(keys, RequestsAt(logs)) + Total(logs, NoUser(day))
            && system.errors == SetSum(keys, ErrorsIn(logs)) + Total(logs, OnlyErrors(NoUser(day)))
  {
    hide Total, SetSum;
    var keys := KeysOn(UsersOn(logs, day), day);
    KeySums(logs, keys);
    forall i | 0 <= i < |logs|
      ensures Requests(None, day)(logs[i]) == OnKeys(keys)(logs[i]) + NoUser(day)(logs[i])
      ensures Errors(None, day)(logs[i]) == ErrorsOnKeys(keys)(logs[i]) + OnlyErrors(NoUser(day))(logs[i])
    {
      assert logs[i] in logs;
    }
    TotalSum(logs, OnKeys(keys), NoUser(day), Requests(None, day));
    TotalSum(logs, ErrorsOnKeys(keys), OnlyErrors(NoUser(day)), Errors(None, day));
  }

  /** On a settled day whose rows are still there, the daily entry of a user is that user's rollup row. */
  lemma DailyIsRollup(start: Instant, es: seq<Event>, user: UserId, day: int)
    requires var s := HappenAll(start, es); day in Settled(start, es) && s.purgedTo <= day * DAY
    ensures var s := HappenAll(start, es);
            var entry := DayEntry(s.logs, Some(user), day).counts;
            if (user, day) in s.usage
            then entry == Counts(s.usage[(user, day)].requestCount, s.usage[(user, day)].errorCount)
            else entry == Counts(0, 0)
  {
    hide HappenAll, Settled, Total, UsersOn;
    var s := HappenAll(start, es);
    RunTablesSound(start, es);
    assert Intact(s, day) && Faithful(s, day);
    HasRequests(s.history, user, day);
    ErrorsAreRequests(s.history, user, day);
  }

  lemma ErrorsAreRequests(logs: seq<LogRow>, user: UserId, day: int)
    ensures Total(logs, Errors(Some(user), day)) <= Total(logs, Requests(Some(user), day))
  {
    TotalMonotone(logs, Errors(Some(user), day), Requests(Some(user), day));
  }
}
