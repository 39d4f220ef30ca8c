/** The daily rollup of the request log, and the monthly and daily charts over them. */
module Analytics {
  import opened Wrappers
  import opened Calendar
  import opened Subscriptions
  import opened RequestLog
  import opened Sums

  type Key = (UserId, int)

  datatype DailyUsage = DailyUsage(requestCount: nat, errorCount: nat, avgMs: nat)

  /** One row per user and day: the unique constraint is the map. */
  type Usage = map<Key, DailyUsage>

  datatype Counts = Counts(count: nat, errors: nat)

  // ---- Aggregates over the log ---------------------------------------------------------------

  /** Scope None is every row, with or without a user. */
  predicate InScope(user: Option<UserId>, scope: Option<UserId>) {
    scope.None? || user == scope
  }

  predicate On(row: LogRow, scope: Option<UserId>, day: int) {
    InScope(row.user, scope) && row.Day() == day
  }

  function Requests(scope: Option<UserId>, day: int): LogRow -> nat {
    (row: LogRow) => if On(row, scope, day) then 1 else 0
  }

  function Errors(scope: Option<UserId>, day: int): LogRow -> nat {
    (row: LogRow) => if On(row, scope, day) && row.IsError() then 1 else 0
  }

  function Millis(scope: Option<UserId>, day: int): LogRow -> nat {
    (row: LogRow) => if On(row, scope, day) then row.ms else 0
  }

  function UsersOn(logs: seq<LogRow>, day: int): set<UserId> {
    set row | row in logs && row.Day() == day && row.user.Some? :: row.user.value
  }

  /** What the rollup stores for a user and day; `int()` drops the fraction of the average. */
  function Summary(logs: seq<LogRow>, user: UserId, day: int): DailyUsage {
    var n := Total(logs, Requests(Some(user), day));
    DailyUsage(n, Total(logs, Errors(Some(user), day)),
               if n == 0 then 0 else Total(logs, Millis(Some(user), day)) / n)
  }

  /** Upsert a row for every user with a log row on the day; rows of users without one stay as they are. */
  function Rollup(usage: Usage, logs: seq<LogRow>, day: int): Usage {
    Upserted(usage, logs, day, UsersOn(logs, day))
  }

  function Upserted(usage: Usage, logs: seq<LogRow>, day: int, users: set<UserId>): Usage {
    usage + map u | u in users :: (u, day) := Summary(logs, u, day)
  }

  lemma UpsertOne(usage: Usage, logs: seq<LogRow>, day: int, users: set<UserId>, user: UserId)
    ensures Upserted(usage, logs, day, users + {user})
            == Upserted(usage, logs, day, users)[(user, day) := Summary(logs, user, day)]
  {
    hide Summary;
    var a, b := Upserted(usage, logs, day, users + {user}), Upserted(usage, logs, day, users)[(user, day) := Summary(logs, user, day)];
    forall k: Key
      ensures k in a <==> k in b
      ensures k in a ==> a[k] == b[k]
    {
    }
  }

  lemma UpsertNone(usage: Usage, logs: seq<LogRow>, day: int)
    ensures Upserted(usage, logs, day, {}) == usage
  {
  }

  // ---- Month keys ----------------------------------------------------------------------------

  function Digits(n: int, k: nat): (s: string)
    ensures |s| == k
    decreases k
  {
    if k == 0 then "" else Digits(n / 10, k - 1) + ["0123456789"[n % 10]]
  }

  /** "YYYY-MM" of a month index; years have four digits. */
  function MonthName(m: int): string {
    Digits(m / 12, 4) + "-" + Digits(m % 12 + 1, 2)
  }

  function MonthKey(day: int): string {
    MonthName(MonthOf(day))
  }

  /** Python's order on strings. */
  predicate Before(a: string, b: string) {
    if a == "" then b != ""
    else b != "" && (a[0] < b[0] || (a[0] == b[0] && Before(a[1..], b[1..])))
  }

  // ---- Charts --------------------------------------------------------------------------------

  datatype MonthPoint = MonthPoint(month: string, counts: Counts)

  datatype DayPoint = DayPoint(date: int, counts: Counts)

  /** The rollup rows a monthly chart reads. */
  function ChartRows(usage: Usage, scope: Option<UserId>, earliest: int): set<Key> {
    set k | k in usage && earliest <= k.1 && InScope(Some(k.0), scope)
  }

  function CountAt(usage: Usage): Key -> nat {
    (k: Key) => if k in usage then usage[k].requestCount else 0
  }

  function ErrorsAt(usage: Usage): Key -> nat {
    (k: Key) => if k in usage then usage[k].errorCount else 0
  }

  function InMonthKey(rows: set<Key>, month: string): set<Key> {
    set k | k in rows && MonthKey(k.1) == month
  }

  function MonthsOf(rows: set<Key>): set<string> {
    set k | k in rows :: MonthKey(k.1)
  }

  /** Each month that has a row, with the sums over its rows. */
  ghost function MonthBuckets(usage: Usage, rows: set<Key>): map<string, Counts> {
    map m | m in MonthsOf(rows) ::
      Counts(SetSum(InMonthKey(rows, m), CountAt(usage)), SetSum(InMonthKey(rows, m), ErrorsAt(usage)))
  }

  /** `setdefault`, then add to the bucket. */
  function AddTo(buckets: map<string, Counts>, month: string, count: nat, errors: nat): map<string, Counts> {
    var b := if month in buckets then buckets[month] else Counts(0, 0);
    buckets[month := Counts(b.count + count, b.errors + errors)]
  }

  lemma AddRow(usage: Usage, rows: set<Key>, k: Key)
    requires k !in rows
    ensures var m := MonthKey(k.1);
            MonthBuckets(usage, rows + {k})
            == AddTo(MonthBuckets(usage, rows), m, CountAt(usage)(k), ErrorsAt(usage)(k))
  {
    hide MonthKey, SetSum, CountAt, ErrorsAt;
    var m := MonthKey(k.1);
    var after := MonthBuckets(usage, rows + {k});
    assert MonthsOf(rows + {k}) == MonthsOf(rows) + {m};
    assert InMonthKey(rows + {k}, m) == InMonthKey(rows, m) + {k};
    SetSumAdd(InMonthKey(rows, m), k, CountAt(usage));
    SetSumAdd(InMonthKey(rows, m), k, ErrorsAt(usage));
    if m !in MonthsOf(rows) {
      assert InMonthKey(rows, m) == {};
      SetSumEmpty(CountAt(usage));
      SetSumEmpty(ErrorsAt(usage));
    }
    var before := MonthBuckets(usage, rows);
    assert after[m] == AddTo(before, m, CountAt(usage)(k), ErrorsAt(usage)(k))[m];
    forall o | o in MonthsOf(rows) && o != m
      ensures after[o] == before[o]
    {
      assert InMonthKey(rows + {k}, o) == InMonthKey(rows, o);
    }
  }

  lemma NoBuckets(usage: Usage)
    ensures MonthBuckets(usage, {}) == map[]
  {
    assert MonthsOf({}) == {};
  }

  /** Months strictly ascending, so each at most once. */
  ghost predicate Ascending(chart: seq<MonthPoint>) {
    forall i, j :: 0 <= i < j < |chart| ==> Before(chart[i].month, chart[j].month)
  }

  /** The chart lists exactly the entries of the buckets for the given months. */
  ghost predicate Lists(chart: seq<MonthPoint>, buckets: map<string, Counts>, months: set<string>) {
    && (forall i :: 0 <= i < |chart| ==> chart[i].month in months && chart[i].month in buckets
                                         && chart[i].counts == buckets[chart[i].month])
    && (forall m :: m in months ==> exists i :: 0 <= i < |chart| && chart[i].month == m)
  }

  function Place(chart: seq<MonthPoint>, p: MonthPoint): seq<MonthPoint> {
    if chart == [] || Before(p.month, chart[0].month) then [p] + chart
    else [chart[0]] + Place(chart[1..], p)
  }

  lemma {:induction false} BeforeTotal(a: string, b: string)
    ensures Before(a, b) || a == b || Before(b, a)
    ensures !(Before(a, b) && Before(b, a)) && !Before(a, a)
  {
    if a != "" && b != "" && a[0] == b[0] {
      BeforeTotal(a[1..], b[1..]);
      assert a == [a[0]] + a[1..] && b == [b[0]] + b[1..];
    }
    if a != "" {
      BeforeSelf(a);
    }
  }

  lemma {:induction false} BeforeSelf(a: string)
    ensures !Before(a, a)
  {
    if a != "" {
      BeforeSelf(a[1..]);
    }
  }

  lemma {:induction false} BeforeTransitive(a: string, b: string, c: string)
    requires Before(a, b) && Before(b, c)
    ensures Before(a, c)
  {
    if a != "" && a[0] == b[0] && b[0] == c[0] {
      BeforeTransitive(a[1..], b[1..], c[1..]);
    }
  }

  lemma {:induction false} PlaceKeeps(chart: seq<MonthPoint>, p: MonthPoint)
    requires Ascending(chart) && forall i :: 0 <= i < |chart| ==> chart[i].month != p.month
    ensures Ascending(Place(chart, p))
    ensures |Place(chart, p)| == |chart| + 1
    ensures forall q :: q in Place(chart, p) <==> q == p || q in chart
  {
    if chart == [] {
    } else if Before(p.month, chart[0].month) {
      forall j | 0 < j < |chart|
        ensures Before(p.month, chart[j].month)
      {
        BeforeTransitive(p.month, chart[0].month, chart[j].month);
      }
    } else {
      BeforeTotal(p.month, chart[0].month);
      PlaceKeeps(chart[1..], p);
      var rest := Place(chart[1..], p);
      forall j | 0 <= j < |rest|
        ensures Before(chart[0].month, rest[j].month)
      {
        assert rest[j] in rest;
        assert rest[j] == p || rest[j] in chart[1..];
      }
    }
  }

  class AnalyticsStore {
    var logs: seq<LogRow>
    var usage: Usage

    constructor ()
      ensures logs == [] && usage == map[]
    {
      logs, usage := [], map[];
    }

    /** Upserts one row per user with log rows on the day and returns how many. */
    method RollupDailyUsage(day: int) returns (count: nat)
      modifies this`usage
      ensures usage == Rollup(old(usage), logs, day)
      ensures count == |UsersOn(logs, day)|
    {
      hide Summary, UsersOn, Upserted;
      var todo := UsersOn(logs, day);
      count := 0;
      assert UsersOn(logs, day) - todo == {};
      UpsertNone(usage, logs, day);
      while todo != {}
        invariant todo <= UsersOn(logs, day) && count + |todo| == |UsersOn(logs, day)|
        invariant usage == Upserted(old(usage), logs, day, UsersOn(logs, day) - todo)
        decreases todo
      {
        var u :| u in todo;
        UpsertOne(old(usage), logs, day, UsersOn(logs, day) - todo, u);
        assert UsersOn(logs, day) - (todo - {u}) == UsersOn(logs, day) - todo + {u};
        usage := usage[(u, day) := Summary(logs, u, day)];
        todo := todo - {u};
        count := count + 1;
      }
      assert UsersOn(logs, day) - todo == UsersOn(logs, day);
    }

    /** Rows are added to their month's bucket in no particular order; the buckets are then sorted by key. */
    method MonthlyChart(scope: Option<UserId>, today: int, months: int) returns (chart: seq<MonthPoint>)
      ensures Ascending(chart)
      ensures var buckets := MonthBuckets(usage, ChartRows(usage, scope, WindowStart(today, months)));
              Lists(chart, buckets, buckets.Keys)
    {
      hide MonthKey, MonthBuckets, WindowStart;
      var rows := ChartRows(usage, scope, WindowStart(today, months));
      NoBuckets(usage);
      var buckets: map<string, Counts> := map[];
      var todo := rows;
      assert rows - todo == {};
      while todo != {}
        invariant todo <= rows && buckets == MonthBuckets(usage, rows - todo)
        decreases todo
      {
        var k :| k in todo;
        AddRow(usage, rows - todo, k);
        buckets := AddTo(buckets, MonthKey(k.1), usage[k].requestCount, usage[k].errorCount);
        assert rows - (todo - {k}) == rows - todo + {k};
        todo := todo - {k};
      }
      assert rows - todo == rows;
      chart := SortBuckets(buckets);
    }

    /** Read the grouped counts, then fill every day of the window, with zeros where there are none. */
    method DailyChart(scope: Option<UserId>, today: int, days: nat) returns (chart: seq<DayPoint>)
      ensures |chart| == days
      ensures forall i :: 0 <= i < days ==> chart[i] == DayEntry(logs, scope, today - (days - 1) + i)
    {
      var start := today - (days - 1);
      var byDay := GroupByDay(logs, scope, start);
      chart := [];
      for i := 0 to days
        invariant |chart| == i
        invariant forall j :: 0 <= j < i ==> chart[j] == DayEntry(logs, scope, start + j)
      {
        var day := start + i;
        NoGroupNoRows(logs, scope, day);
        var row := if day in byDay then byDay[day] else Counts(0, 0);
        chart := chart + [DayPoint(day, row)];
      }
    }
  }

  /** `sorted(buckets.items())`. */
  method SortBuckets(buckets: map<string, Counts>) returns (chart: seq<MonthPoint>)
    ensures Ascending(chart) && Lists(chart, buckets, buckets.Keys)
  {
    chart := [];
    var todo := buckets.Keys;
    while todo != {}
      invariant todo <= buckets.Keys && Ascending(chart) && Lists(chart, buckets, buckets.Keys - todo)
      decreases todo
    {
      var m :| m in todo;
      var p := MonthPoint(m, buckets[m]);
      PlaceKeeps(chart, p);
      PlaceLists(chart, p, buckets, buckets.Keys - todo);
      chart := Place(chart, p);
      assert buckets.Keys - (todo - {m}) == buckets.Keys - todo + {m};
      todo := todo - {m};
    }
    assert buckets.Keys - todo == buckets.Keys;
  }

  lemma PlaceLists(chart: seq<MonthPoint>, p: MonthPoint, buckets: map<string, Counts>, months: set<string>)
    requires Ascending(chart) && Lists(chart, buckets, months)
    requires p.month !in months && p.month in buckets && p.counts == buckets[p.month]
    ensures Lists(Place(chart, p), buckets, months + {p.month})
  {
    PlaceKeeps(chart, p);
    var after := Place(chart, p);
    forall i | 0 <= i < |after|
      ensures after[i].month in months + {p.month} && after[i].month in buckets
              && after[i].counts == buckets[after[i].month]
    {
      assert after[i] in after;
    }
    forall m | m in months + {p.month}
      ensures exists i :: 0 <= i < |after| && after[i].month == m
    {
      if m == p.month {
        assert p in after;
      } else {
        var i :| 0 <= i < |chart| && chart[i].month == m;
        assert chart[i] in after;
      }
    }
  }

  /** Days from `start` on that have a row in scope, with their counts. */
  function GroupByDay(logs: seq<LogRow>, scope: Option<UserId>, start: int): map<int, Counts> {
    map d | d in (set row | row in logs && InScope(row.user, scope) && start <= row.Day() :: row.Day()) ::
      Counts(Total(logs, Requests(scope, d)), Total(logs, Errors(scope, d)))
  }

  function DayEntry(logs: seq<LogRow>, scope: Option<UserId>, day: int): DayPoint {
    DayPoint(day, Counts(Total(logs, Requests(scope, day)), Total(logs, Errors(scope, day))))
  }

  lemma NoGroupNoRows(logs: seq<LogRow>, scope: Option<UserId>, day: int)
    ensures (forall row :: row in logs ==> !On(row, scope, day)) ==>
              Total(logs, Requests(scope, day)) == 0 && Total(logs, Errors(scope, day)) == 0
  {
    if forall row :: row in logs ==> !On(row, scope, day) {
      forall i | 0 <= i < |logs|
        ensures !On(logs[i], scope, day)
      {
        assert logs[i] in logs;
      }
      TotalZero(logs, Requests(scope, day));
      TotalZero(logs, Errors(scope, day));
    }
  }
}
