/** The bounds that hold in every reachable state of N interleaved workers. */
module QuotaTheorems {
  import opened Calendar
  import opened Subscriptions
  import opened SubscriptionLaws
  import opened ConcurrentBilling
  import opened ConcurrentLaws
  import opened QuotaBounds
  import opened Sums

  /** A quota's count is exactly the number of increments taken on it: concurrent updates are not lost. */
  lemma NoLostUpdates(plans: Catalogue, workers: nat, clock: Instant, es: seq<Event>, q: nat)
    requires q < |Run(plans, Initial(workers, clock), es).db.quotas|
    ensures var s := Run(plans, Initial(workers, clock), es);
            s.db.quotas[q].requestsUsed == Total(s.log, OnQuota(q))
  {
    hide Sound, MakersSound, AllWithinAllowance;
    AlwaysMetered(plans, workers, clock, es);
  }

  /** N workers overshoot a plan's positive limit by at most N - 1; a single worker never does. */
  lemma Overshoot(plans: Catalogue, workers: nat, clock: Instant, es: seq<Event>, q: nat)
    requires q < |Run(plans, Initial(workers, clock), es).db.quotas|
    ensures var db := Run(plans, Initial(workers, clock), es).db;
            && db.quotas[q].sub < |db.subs|
            && var limit := db.subs[db.quotas[q].sub].plan.requestQuota;
               limit > 0 ==> db.quotas[q].requestsUsed <= limit + workers - 1
  {
    hide Sound, MakersSound, LogSound;
    AlwaysMetered(plans, workers, clock, es);
    var s := Run(plans, Initial(workers, clock), es);
    QuotaOfSubscription(s, q);
    assert WithinAllowance(s.db, s.workers, q);
  }

  lemma QuotaOfSubscription(s: State, q: nat)
    requires Sound(s) && q < |s.db.quotas|
    ensures s.db.quotas[q].sub < |s.db.subs|
  {
  }

  // ---- Overlapping windows -------------------------------------------------------------------

  /** The opening window is nobody's rotation, and is counted with worker 0's. */
  function MakerIndex(m: Maker): nat {
    if m.Opening? then 0 else m.worker
  }

  predicate Apart(a: UsageQuota, b: UsageQuota) {
    a.periodEnd <= b.periodStart || b.periodEnd <= a.periodStart
  }

  lemma SameMakerApart(s: State, q: nat, r: nat)
    requires Metered(s) && q < |s.db.quotas| && r < |s.db.quotas| && q != r
    requires s.db.quotas[q].sub == s.db.quotas[r].sub
    requires MakerIndex(s.makers[q]) == MakerIndex(s.makers[r])
    ensures Apart(s.db.quotas[q], s.db.quotas[r])
  {
    hide LogSound, AllWithinAllowance, RowOk, OpeningEnd, PeriodEnd, OneActive, Covered;
    assert IsOpening(s.db, q) || IsRotation(s.db, q);
    assert IsOpening(s.db, r) || IsRotation(s.db, r);
    assert s.db.quotas[q].periodStart != s.db.quotas[r].periodStart;
  }

  function WindowsAt(db: Db, sub: nat, t: Instant): set<nat> {
    set q: nat | q < |db.quotas| && db.quotas[q].sub == sub && db.quotas[q].periodStart <= t < db.quotas[q].periodEnd
  }

  function MakerOf(s: State): nat -> int {
    (q: nat) => if q < |s.makers| then MakerIndex(s.makers[q]) else 0
  }

  /** At most N windows of one subscription contain any one instant. */
  lemma OverlapAtMostWorkers(plans: Catalogue, workers: nat, clock: Instant, es: seq<Event>, sub: nat, t: Instant)
    requires workers > 0
    ensures |WindowsAt(Run(plans, Initial(workers, clock), es).db, sub, t)| <= workers
  {
    hide Metered, Run;
    var s := Run(plans, Initial(workers, clock), es);
    AlwaysMetered(plans, workers, clock, es);
    var windows, f := WindowsAt(s.db, sub, t), MakerOf(s);
    forall q | q in windows
      ensures 0 <= f(q) < workers
    {
      MakerInRange(s, q);
    }
    forall q, r | q in windows && r in windows && f(q) == f(r)
      ensures q == r
    {
      if q != r {
        MakerInRange(s, q);
        MakerInRange(s, r);
        SameMakerApart(s, q, r);
      }
    }
    Injection(windows, f, 0, workers);
  }

  lemma MakerInRange(s: State, q: nat)
    requires Metered(s) && q < |s.db.quotas| && |s.workers| > 0
    ensures |s.makers| == |s.db.quotas| && MakerIndex(s.makers[q]) < |s.workers|
  {
    hide LogSound, AllWithinAllowance, Sound;
  }

  // ---- Requests in an interval ---------------------------------------------------------------

  function CeilDiv(len: nat, d: int): nat
    requires d > 0
  {
    (len + d - 1) / d
  }

  /** Windows of the subscription that meet the interval from `a` to `b`. */
  function Meeting(db: Db, sub: nat, a: Instant, b: Instant): set<nat> {
    set q: nat | q < |db.quotas| && db.quotas[q].sub == sub
                 && db.quotas[q].periodStart < b && a < db.quotas[q].periodEnd
  }

  /** Number a window by its maker and by how many periods after `a` it starts. */
  function SlotOf(s: State, a: Instant, d: int, slots: nat): nat -> int
    requires d > 0
  {
    (q: nat) =>
      if q < |s.makers| && q < |s.db.quotas|
      then MakerIndex(s.makers[q]) * slots + (s.db.quotas[q].periodStart - a) / d + 1
      else 0
  }

  lemma WindowLength(db: Db, clock: Instant, q: nat)
    requires DbSound(db, clock) && q < |db.quotas| && db.subs[db.quotas[q].sub].expiresAt.Some?
    ensures db.quotas[q].periodEnd - db.quotas[q].periodStart == db.subs[db.quotas[q].sub].plan.durationDays * DAY
    ensures db.subs[db.quotas[q].sub].plan.durationDays > 0
  {
    hide OneActive, Covered, PerpetualEnd;
    assert RowOk(db.subs[db.quotas[q].sub]);
    assert IsOpening(db, q) || IsRotation(db, q);
  }

  /** Where a window of length `d` that meets an interval of length `len` can start, in periods. */
  lemma SlotRange(start: Instant, a: Instant, len: nat, d: int)
    requires d > 0 && a - d < start < a + len
    ensures 0 <= (start - a) / d + 1 < CeilDiv(len, d) + 1
  {
    var x := start - a;
    assert x == d * (x / d) + x % d;
    assert x / d >= -1 by {
      if x / d <= -2 {
        Times(d, x / d, -2);
      }
    }
    var c := CeilDiv(len, d);
    assert len + d - 1 == d * c + (len + d - 1) % d;
    if x / d >= c {
      Times(d, c, x / d);
    }
  }

  lemma Times(d: int, x: int, y: int)
    requires d > 0 && x <= y
    ensures d * x <= d * y
  {
  }

  lemma SameSlotClose(x: int, y: int, d: int)
    requires d > 0 && x / d == y / d
    ensures -d < x - y < d
  {
    assert x == d * (x / d) + x % d;
    assert y == d * (y / d) + y % d;
  }

  lemma PairsDistinct(m: nat, x: nat, n: nat, y: nat, k: nat)
    requires x < k && y < k && m * k + x == n * k + y
    ensures m == n && x == y
  {
    if m < n {
      PairsApart(m, n, k);
    } else if n < m {
      PairsApart(n, m, k);
    }
  }

  lemma PairsApart(m: nat, n: nat, k: nat)
    requires m < n
    ensures m * k + k <= n * k
  {
    Times(k + 1, m + 1, n);
    assert (m + 1) * k <= n * k;
  }

  lemma PairInRange(m: nat, n: nat, x: nat, k: nat)
    requires m < n && x < k
    ensures 0 <= m * k + x < n * k
  {
    PairsApart(m, n, k);
  }

  /** Each worker's windows are disjoint and one period long, so few of them meet a short interval. */
  lemma FewWindowsMeet(s: State, sub: nat, a: Instant, len: nat)
    requires Metered(s) && |s.workers| > 0 && sub < |s.db.subs| && s.db.subs[sub].expiresAt.Some?
    requires s.db.subs[sub].plan.durationDays > 0
    ensures |Meeting(s.db, sub, a, a + len)|
            <= |s.workers| * (CeilDiv(len, s.db.subs[sub].plan.durationDays * DAY) + 1)
  {
    hide Metered, SlotOf, CeilDiv;
    var d := s.db.subs[sub].plan.durationDays * DAY;
    var slots := CeilDiv(len, d) + 1;
    var f := SlotOf(s, a, d, slots);
    var windows := Meeting(s.db, sub, a, a + len);
    forall q | q in windows
      ensures 0 <= f(q) < |s.workers| * slots
    {
      SlotFits(s, q, a, len, d);
    }
    forall q, r | q in windows && r in windows && f(q) == f(r)
      ensures q == r
    {
      SameWindowSlot(s, sub, a, len, q, r);
    }
    Injection(windows, f, 0, |s.workers| * slots);
  }

  lemma SameWindowSlot(s: State, sub: nat, a: Instant, len: nat, q: nat, r: nat)
    requires Metered(s) && |s.workers| > 0 && sub < |s.db.subs| && s.db.subs[sub].expiresAt.Some?
    requires s.db.subs[sub].plan.durationDays > 0
    requires q in Meeting(s.db, sub, a, a + len) && r in Meeting(s.db, sub, a, a + len)
    requires var d := s.db.subs[sub].plan.durationDays * DAY;
             SlotOf(s, a, d, CeilDiv(len, d) + 1)(q) == SlotOf(s, a, d, CeilDiv(len, d) + 1)(r)
    ensures q == r
  {
    hide Metered, SlotOf, CeilDiv;
    var d := s.db.subs[sub].plan.durationDays * DAY;
    if q != r {
      SlotFits(s, q, a, len, d);
      SlotFits(s, r, a, len, d);
      var x, y := s.db.quotas[q].periodStart - a, s.db.quotas[r].periodStart - a;
      PairsDistinct(MakerIndex(s.makers[q]), x / d + 1, MakerIndex(s.makers[r]), y / d + 1, CeilDiv(len, d) + 1);
      SameSlotClose(x, y, d);
      SameMakerApart(s, q, r);
    }
  }

  lemma SlotFits(s: State, q: nat, a: Instant, len: nat, d: int)
    requires Metered(s) && |s.workers| > 0 && q < |s.db.quotas| && d > 0
    requires s.db.quotas[q].sub < |s.db.subs| && s.db.subs[s.db.quotas[q].sub].expiresAt.Some?
    requires d == s.db.subs[s.db.quotas[q].sub].plan.durationDays * DAY
    requires s.db.quotas[q].periodStart < a + len && a < s.db.quotas[q].periodEnd
    ensures var slots := CeilDiv(len, d) + 1;
            && |s.makers| == |s.db.quotas|
            && s.db.quotas[q].periodEnd - s.db.quotas[q].periodStart == d
            && 0 <= (s.db.quotas[q].periodStart - a) / d + 1 < slots
            && MakerIndex(s.makers[q]) < |s.workers|
            && SlotOf(s, a, d, slots)(q) == MakerIndex(s.makers[q]) * slots + ((s.db.quotas[q].periodStart - a) / d + 1)
            && 0 <= SlotOf(s, a, d, slots)(q) < |s.workers| * slots
  {
    hide DbSound, MakersSound, LogSound, AllWithinAllowance, CeilDiv;
    MakerInRange(s, q);
    WindowLength(s.db, s.clock, q);
    SlotRange(s.db.quotas[q].periodStart, a, len, d);
    PairInRange(MakerIndex(s.makers[q]), |s.workers|, (s.db.quotas[q].periodStart - a) / d + 1, CeilDiv(len, d) + 1);
  }

  lemma Wider(m: nat, n: nat, k: nat)
    requires m <= n
    ensures m * k <= n * k
  {
  }

  const QuotaOf: Accept -> nat := (e: Accept) => e.quota
  const Once: Accept -> nat := (e: Accept) => 1

  /** Accepted requests on the subscription whose windows were chosen at readings from `a` up to `b`. */
  function AcceptedIn(db: Db, sub: nat, a: Instant, b: Instant): Accept -> nat {
    (e: Accept) => if e.quota < |db.quotas| && db.quotas[e.quota].sub == sub && a <= e.at < b then 1 else 0
  }

  /**
   The long-run rate, requests dated by the reading that chose their window: on a subscription with
   period `d` and a positive limit, N workers together get at most
   `(limit + N - 1) * N * (ceil(len / d) + 1)` requests accepted in any interval of length `len`,
   though periods start lazily and leave gaps. For N = 1 that is `limit * (ceil(len / d) + 1)`.
  */
  lemma RateBound(plans: Catalogue, workers: nat, clock: Instant, es: seq<Event>, sub: nat, a: Instant, len: nat)
    requires workers > 0
    requires var db := Run(plans, Initial(workers, clock), es).db;
             && sub < |db.subs| && db.subs[sub].expiresAt.Some?
             && db.subs[sub].plan.requestQuota > 0 && db.subs[sub].plan.durationDays > 0
    ensures var s := Run(plans, Initial(workers, clock), es);
            var d := s.db.subs[sub].plan.durationDays * DAY;
            Total(s.log, AcceptedIn(s.db, sub, a, a + len))
            <= workers * (CeilDiv(len, d) + 1) * (s.db.subs[sub].plan.requestQuota + workers - 1)
  {
    hide Metered, Run, CeilDiv;
    var s := Run(plans, Initial(workers, clock), es);
    var d := s.db.subs[sub].plan.durationDays * DAY;
    var windows := Meeting(s.db, sub, a, a + len);
    var bound := s.db.subs[sub].plan.requestQuota + workers - 1;
    AlwaysMetered(plans, workers, clock, es);
    FewWindowsMeet(s, sub, a, len);
    forall q | q in windows
      ensures Total(s.log, InGroup(Once, QuotaOf, q)) <= bound
    {
      NoLostUpdates(plans, workers, clock, es, q);
      Overshoot(plans, workers, clock, es, q);
      TotalSame(s.log, InGroup(Once, QuotaOf, q), OnQuota(q));
    }
    TotalByGroup(s.log, Once, QuotaOf, windows, bound);
    AcceptedOnMeeting(s, sub, a, a + len);
    Wider(|windows|, workers * (CeilDiv(len, d) + 1), bound);
  }

  lemma AcceptedOnMeeting(s: State, sub: nat, a: Instant, b: Instant)
    requires Metered(s)
    ensures Total(s.log, AcceptedIn(s.db, sub, a, b)) <= Total(s.log, InGroups(Once, QuotaOf, Meeting(s.db, sub, a, b)))
  {
    hide Metered;
    var windows := Meeting(s.db, sub, a, b);
    forall k | 0 <= k < |s.log|
      ensures AcceptedIn(s.db, sub, a, b)(s.log[k]) <= InGroups(Once, QuotaOf, windows)(s.log[k])
    {
      EntryInWindow(s, k);
    }
    TotalMonotone(s.log, AcceptedIn(s.db, sub, a, b), InGroups(Once, QuotaOf, windows));
  }

  lemma EntryInWindow(s: State, k: nat)
    requires Metered(s) && k < |s.log|
    ensures s.log[k].quota < |s.db.quotas| && s.db.quotas[s.log[k].quota].Contains(s.log[k].at)
  {
    hide Sound, MakersSound, AllWithinAllowance;
  }
}
