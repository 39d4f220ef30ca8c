/** The analytics middleware: every request it logs is counted on some quota or was refused. */
module Accounting {
  import opened Wrappers
  import opened Calendar
  import opened Subscriptions
  import opened BillingService
  import opened SequentialLaws
  import opened RequestLog
  import opened Sums

  /** The database and the request log side by side. */
  datatype Books = Books(db: Db, logs: seq<LogRow>)

  /** A service call, with what the middleware logs about it when it is a served API request. */
  datatype Traffic = Traffic(op: Op, status: nat, ms: nat, at: Instant)

  function Serve(plans: Catalogue, b: Books, t: Traffic): Books {
    Books(Do(plans, b.db, t.op),
          if t.op.OpRecord? then b.logs + [LogRow(Some(t.op.user), t.status, t.ms, t.at)] else b.logs)
  }

  class RequestAnalytics {
    const billing: Billing
    var logs: seq<LogRow>

    constructor (billing: Billing)
      ensures this.billing == billing && logs == []
    {
      this.billing := billing;
      logs := [];
    }

    function View(): Books
      reads this, billing
    {
      Books(billing.View(), logs)
    }

    /** One served request: append the log row, then charge the quota and swallow its refusal. */
    method Record(user: UserId, status: nat, ms: nat, at: Instant, t: Readings)
      modifies this, billing
      ensures View() == Serve(billing.plans, old(View()), Traffic(OpRecord(user, t), status, ms, at))
      ensures logs == old(logs) + [LogRow(Some(user), status, ms, at)]
      ensures billing.View() == RecordRequest(old(billing.View()), billing.plans, user, t).db
    {
      logs := logs + [LogRow(Some(user), status, ms, at)];
      var swallowed := billing.RecordRequest(user, t);
    }
  }

  // ---- Conservation --------------------------------------------------------------------------

  /** Quota rows refer to existing subscriptions. */
  predicate Refers(db: Db) {
    forall q :: 0 <= q < |db.quotas| ==> db.quotas[q].sub < |db.subs|
  }

  function UsedOn(subs: seq<Subscription>, user: UserId): UsageQuota -> nat {
    (q: UsageQuota) => if q.sub < |subs| && subs[q.sub].user == user then q.requestsUsed else 0
  }

  /** All requests ever counted for the user, over every quota of every subscription. */
  function UsedBy(db: Db, user: UserId): nat {
    Total(db.quotas, UsedOn(db.subs, user))
  }

  /** Owners stay, and new quota rows start at zero. */
  ghost predicate Uncounted(db: Db, after: Db) {
    && |db.subs| <= |after.subs| && |db.quotas| <= |after.quotas|
    && (forall i :: 0 <= i < |db.subs| ==> after.subs[i].user == db.subs[i].user)
    && after.quotas[..|db.quotas|] == db.quotas
    && (forall q :: |db.quotas| <= q < |after.quotas| ==> after.quotas[q].requestsUsed == 0)
    && Refers(after)
  }

  lemma {:induction false} UsedUnchanged(db: Db, after: Db, user: UserId)
    requires Refers(db) && Uncounted(db, after)
    ensures UsedBy(after, user) == UsedBy(db, user)
    decreases |after.quotas|
  {
    var f, g := UsedOn(db.subs, user), UsedOn(after.subs, user);
    if |after.quotas| == |db.quotas| {
      assert after.quotas == db.quotas;
      TotalMonotone(db.quotas, f, g);
      TotalMonotone(db.quotas, g, f);
    } else {
      var n := |after.quotas| - 1;
      UsedUnchanged(db, after.(quotas := after.quotas[..n]), user);
    }
  }

  lemma UncountedFurther(a: Db, b: Db, c: Db)
    requires Uncounted(a, b) && Uncounted(b, c)
    ensures Uncounted(a, c)
  {
    assert c.quotas[..|a.quotas|] == c.quotas[..|b.quotas|][..|a.quotas|];
    forall q | |a.quotas| <= q < |c.quotas|
      ensures c.quotas[q].requestsUsed == 0
    {
      if q < |b.quotas| {
        assert c.quotas[q] == c.quotas[..|b.quotas|][q];
      }
    }
  }

  lemma CommitUncounted(db: Db, r: Retirement, user: UserId, plan: Plan, expires: bool, start: Instant)
    requires Refers(db) && Transact(db, r, user, plan, expires, start).Ok?
    ensures Uncounted(db, Transact(db, r, user, plan, expires, start).value)
  {
    hide PerpetualEnd, PeriodEnd;
  }

  lemma {:induction false} SweepUncounted(db: Db, plans: Catalogue, rows: seq<nat>, k: nat, at: nat -> Instant)
    requires Refers(db) && k <= |rows| && InTable(rows, db)
    ensures Uncounted(db, SweepRows(db, plans, rows, k, at).db)
    decreases |rows| - k
  {
    hide Transact, Uncounted;
    if k == |rows| {
      NothingDone(db);
    } else {
      var res := ExpireOne(db, plans, rows[k], at(rows[k]));
      if res.Ok? {
        CommitUncounted(db, Expire(rows[k]), db.subs[rows[k]].user, plans[FREE], false, at(rows[k]));
        MoreRows(db, res.value, rows);
        SweepUncounted(res.value, plans, rows, k + 1, at);
        UncountedFurther(db, res.value, SweepRows(res.value, plans, rows, k + 1, at).db);
      } else {
        SweepUncounted(db, plans, rows, k + 1, at);
      }
    }
  }

  lemma NothingDone(db: Db)
    requires Refers(db)
    ensures Uncounted(db, db)
  {
  }

  lemma MoreRows(db: Db, after: Db, rows: seq<nat>)
    requires Uncounted(db, after) && InTable(rows, db)
    ensures InTable(rows, after) && Refers(after)
  {
  }

  lemma CountUsed(db: Db, q: nat, user: UserId)
    requires Refers(db) && q < |db.quotas|
    ensures var rec, owner := Count(db, q), db.subs[db.quotas[q].sub].user;
            && Refers(rec.db)
            && (rec.outcome.Err? ==> rec.db == db)
            && UsedBy(rec.db, user) == UsedBy(db, user) + (if rec.outcome.Ok? && owner == user then 1 else 0)
  {
    if Count(db, q).outcome.Ok? {
      TotalUpdate(db.quotas, q, Bump(db, q).quotas[q], UsedOn(db.subs, user));
    }
  }

  lemma ChargeUsed(db: Db, sub: nat, find: Instant, open: Instant, user: UserId)
    requires Refers(db) && sub < |db.subs|
    ensures var rec := Charge(db, sub, find, open);
            && Refers(rec.db)
            && UsedBy(rec.db, user) == UsedBy(db, user) + (if rec.outcome.Ok? && db.subs[sub].user == user then 1 else 0)
  {
    hide Count, UsedBy, PeriodEnd;
    match CurrentQuota(db.quotas, sub, find)
    case Some(q) => CountUsed(db, q, user);
    case None =>
      if InsertWindow(db, sub, open).Ok? {
        var wider := InsertWindow(db, sub, open).value;
        UsedUnchanged(db, wider, user);
        CountUsed(wider, |db.quotas|, user);
      }
  }

  lemma RecordUsed(db: Db, plans: Catalogue, caller: UserId, t: Readings, user: UserId)
    requires Refers(db)
    ensures var rec := RecordRequest(db, plans, caller, t);
            && Refers(rec.db)
            && UsedBy(rec.db, user) == UsedBy(db, user) + (if rec.outcome.Ok? && caller == user then 1 else 0)
  {
    hide Charge, UsedBy, PeriodEnd, PerpetualEnd;
    match ActiveRow(db.subs, caller)
    case Some(i) => ChargeUsed(db, i, t.find, t.open, user);
    case None =>
      if Enroll(db, plans, caller, t.enroll).Ok? {
        var enrolled := Enroll(db, plans, caller, t.enroll).value;
        CommitUncounted(db, Nothing, caller, plans[FREE], false, t.enroll);
        UsedUnchanged(db, enrolled, user);
        ChargeUsed(enrolled, |db.subs|, t.find, t.open, user);
      }
  }

  function ServeAll(plans: Catalogue, run: seq<Traffic>): Books {
    if run == [] then Books(Db([], []), [])
    else Serve(plans, ServeAll(plans, run[..|run| - 1]), run[|run| - 1])
  }

  function LoggedFor(user: UserId): LogRow -> nat {
    (row: LogRow) => if row.user == Some(user) then 1 else 0
  }

  /** Requests of the user whose quota charge was refused and swallowed. */
  function Refused(plans: Catalogue, run: seq<Traffic>, user: UserId): nat {
    if run == [] then 0
    else
      var op, before := run[|run| - 1].op, run[..|run| - 1];
      Refused(plans, before, user)
      + if op.OpRecord? && op.user == user
           && RecordRequest(ServeAll(plans, before).db, plans, user, op.t).outcome.Err? then 1 else 0
  }

  lemma DoUsed(plans: Catalogue, db: Db, op: Op, user: UserId)
    requires Refers(db)
    ensures var after := Do(plans, db, op);
            && Refers(after)
            && UsedBy(after, user) == UsedBy(db, user)
               + (if op.OpRecord? && op.user == user && RecordRequest(db, plans, user, op.t).outcome.Ok? then 1 else 0)
  {
    hide Transact, RecordRequest, UsedBy, Refers, Uncounted;
    var after := Do(plans, db, op);
    match op
    case OpRecord(caller, t) => RecordUsed(db, plans, caller, t, user);
    case _ =>
      DoUncounted(plans, db, op);
      UsedUnchanged(db, after, user);
      UncountedRefers(db, after);
  }

  lemma UncountedRefers(db: Db, after: Db)
    requires Uncounted(db, after)
    ensures Refers(after)
  {
  }

  lemma DoUncounted(plans: Catalogue, db: Db, op: Op)
    requires Refers(db) && !op.OpRecord?
    ensures Uncounted(db, Do(plans, db, op))
  {
    hide Transact, Uncounted, Refers;
    NothingDone(db);
    match op
    case OpEnroll(user, start) =>
      if Enroll(db, plans, user, start).Ok? {
        CommitUncounted(db, Nothing, user, plans[FREE], false, start);
      }
    case OpSubscribe(user, slug, at, start) =>
      if Subscribe(db, plans, user, slug, at, start).Ok? {
        var r := match ActiveRow(db.subs, user) case None => Nothing case Some(i) => Replace(i, at);
        CommitUncounted(db, r, user, plans[slug], plans[slug].durationDays > 0, start);
      }
    case OpCancel(user, at, start) =>
      if Cancel(db, plans, user, at, start).Ok? {
        CommitUncounted(db, CancelByUser(ActiveRow(db.subs, user).value, at), user, plans[FREE], false, start);
      }
    case OpSweep(now, at) =>
      SweepUncounted(db, plans, DueRows(db.subs, now), 0, at);
    case OpRecord(_, _) =>
  }

  /**
   Over any run from empty tables, across upgrades, cancellations, sweeps and rotations, a user's log
   rows number the sum of `requests_used` over all their quotas plus the refused requests.
  */
  lemma {:induction false} Conservation(plans: Catalogue, run: seq<Traffic>, user: UserId)
    ensures var b := ServeAll(plans, run);
            Refers(b.db) && Total(b.logs, LoggedFor(user)) == UsedBy(b.db, user) + Refused(plans, run, user)
  {
    hide Do, UsedBy, RecordRequest, Total;
    if run == [] {
      NothingUsed(user);
    } else {
      var before, last := ServeAll(plans, run[..|run| - 1]), run[|run| - 1];
      Conservation(plans, run[..|run| - 1], user);
      DoUsed(plans, before.db, last.op, user);
      if last.op.OpRecord? {
        TotalAppend(before.logs, LogRow(Some(last.op.user), last.status, last.ms, last.at), LoggedFor(user));
      }
    }
  }

  // ---- The log ------------------------------------------------------------------------------

  /** Positions in the run of the served requests by this user with this status, duration and instant. */
  function ServedAs(run: seq<Traffic>, user: UserId, status: nat, ms: nat, at: Instant): set<nat> {
    set i: nat | i < |run| && run[i].op.OpRecord? && run[i].op.user == user
                 && run[i].status == status && run[i].ms == ms && run[i].at == at
  }

  /** Every served request is in the log as often as it was served, with its user, status, duration and instant. */
  lemma {:induction false} EveryRequestLogged(plans: Catalogue, run: seq<Traffic>, user: UserId, status: nat, ms: nat, at: Instant)
    ensures multiset(ServeAll(plans, run).logs)[LogRow(Some(user), status, ms, at)] == |ServedAs(run, user, status, ms, at)|
    ensures forall row :: row in ServeAll(plans, run).logs ==> row.user.Some?
  {
    hide Do;
    if run == [] {
      assert ServedAs(run, user, status, ms, at) == {};
    } else {
      var n := |run| - 1;
      var before, last := ServeAll(plans, run[..n]), run[n];
      EveryRequestLogged(plans, run[..n], user, status, ms, at);
      LastServed(run, user, status, ms, at);
      if last.op.OpRecord? {
        assert ServeAll(plans, run).logs == before.logs + [LogRow(Some(last.op.user), last.status, last.ms, last.at)];
      }
    }
  }

  lemma LastServed(run: seq<Traffic>, user: UserId, status: nat, ms: nat, at: Instant)
    requires run != []
    ensures var n, last := |run| - 1, run[|run| - 1];
            && n !in ServedAs(run[..n], user, status, ms, at)
            && ServedAs(run, user, status, ms, at) == ServedAs(run[..n], user, status, ms, at)
               + (if last.op.OpRecord? && LogRow(Some(last.op.user), last.status, last.ms, last.at) == LogRow(Some(user), status, ms, at)
                  then {n} else {})
  {
  }

  lemma NothingUsed(user: UserId)
    ensures UsedBy(Db([], []), user) == 0
    ensures Total([], LoggedFor(user)) == 0
  {
  }
}
