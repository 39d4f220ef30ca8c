/**
 The invariant of every interleaving, and what it gives: a status is written once, an expired row was
 due, and a live subscription has its opening window and no other.
*/
module ConcurrentLaws {
  import opened Calendar
  import opened Subscriptions
  import opened SubscriptionLaws
  import opened ConcurrentBilling

  // ---- How a database may change -------------------------------------------------------------

  /** Rows stay; contracts and windows are fixed; a row that has left ACTIVE is final; counts rise. */
  ghost predicate Grows(db: Db, after: Db) {
    && Extends(db, after)
    && (forall i :: 0 <= i < |db.subs| && db.subs[i].status != Active ==> after.subs[i] == db.subs[i])
    && (forall q :: 0 <= q < |db.quotas| ==> db.quotas[q].requestsUsed <= after.quotas[q].requestsUsed)
  }

  lemma GrowsFurther(a: Db, b: Db, c: Db)
    requires Grows(a, b) && Grows(b, c)
    ensures Grows(a, c)
  {
    forall i | 0 <= i < |a.subs|
      ensures SameContract(a.subs[i], c.subs[i]) && (a.subs[i].status != Active ==> c.subs[i] == a.subs[i])
    {
      assert SameContract(a.subs[i], b.subs[i]);
    }
    forall q | 0 <= q < |a.quotas|
      ensures SameWindow(a.quotas[q], c.quotas[q]) && a.quotas[q].requestsUsed <= c.quotas[q].requestsUsed
    {
      assert SameWindow(a.quotas[q], b.quotas[q]);
    }
  }

  // ---- The invariant -------------------------------------------------------------------------

  predicate PastDueBy(s: Subscription, clock: Instant) {
    s.expiresAt.Some? && s.expiresAt.value <= clock
  }

  ghost predicate DbSound(db: Db, clock: Instant) {
    && OneActive(db.subs) && Covered(db.subs) && WindowsOk(db)
    && (forall i :: 0 <= i < |db.subs| ==> db.subs[i].startedAt <= clock)
    && (forall i :: 0 <= i < |db.subs| && db.subs[i].status == Expired ==> PastDueBy(db.subs[i], clock))
    && (forall q :: 0 <= q < |db.quotas| ==> db.quotas[q].periodStart <= clock)
  }

  ghost predicate RowsDue(db: Db, clock: Instant, rows: seq<nat>) {
    forall k :: 0 <= k < |rows| ==> rows[k] < |db.subs| && PastDueBy(db.subs[rows[k]], clock)
  }

  ghost predicate JobSound(db: Db, clock: Instant, job: Job) {
    && Names(db.subs, Retiring(job.retire, clock), job.user)
    && (job.expires ==> job.plan.durationDays > 0)
    && (job.retire.ExpireRow? ==> PastDueBy(db.subs[job.retire.row], clock))
    && (job.next.GoSweep? <==> job.retire.ExpireRow?)
    && (job.next.GoSweep? ==> RowsDue(db, clock, job.next.rows))
  }

  /** What a worker may rely on between its steps, whatever the others do. */
  ghost predicate PcSound(db: Db, clock: Instant, pc: Pc) {
    && Fits(db, pc)
    && match pc
       case Stamp(job) => JobSound(db, clock, job)
       case Commit(job, at) => JobSound(db, clock, job) && at <= clock
       case QueryDue(now) => now <= clock
       case NextRow(rows, _) => RowsDue(db, clock, rows)
       case QueryQuota(sub, now) => db.subs[sub].startedAt <= now <= clock
       case ClockForWindow(sub) => OpeningOver(db.subs[sub], clock)
       case OpenWindow(sub, start) => OpeningOver(db.subs[sub], start) && start <= clock
       case CheckLimit(q, used, at) => used <= db.quotas[q].requestsUsed && db.quotas[q].Contains(at)
       case Increment(q, at) => db.quotas[q].Contains(at)
       case _ => true
  }

  predicate OpeningOver(s: Subscription, t: Instant) {
    OpeningEnd(s).Some? && OpeningEnd(s).value <= t
  }

  ghost predicate Sound(s: State) {
    DbSound(s.db, s.clock) && forall w :: 0 <= w < |s.workers| ==> PcSound(s.db, s.clock, s.workers[w])
  }

  lemma RowsDueLater(db: Db, clock: Instant, after: Db, later: Instant, rows: seq<nat>)
    requires RowsDue(db, clock, rows) && Grows(db, after) && clock <= later
    ensures RowsDue(after, later, rows)
  {
    forall k | 0 <= k < |rows|
      ensures rows[k] < |after.subs| && PastDueBy(after.subs[rows[k]], later)
    {
      assert SameContract(db.subs[rows[k]], after.subs[rows[k]]);
    }
  }

  /** A worker's knowledge survives the steps of others. */
  lemma PcSoundLater(db: Db, clock: Instant, after: Db, later: Instant, pc: Pc)
    requires PcSound(db, clock, pc) && Grows(db, after) && clock <= later
    ensures PcSound(after, later, pc)
  {
    hide OpeningEnd;
    forall i | 0 <= i < |db.subs|
      ensures SameContract(db.subs[i], after.subs[i]) && OpeningEnd(db.subs[i]) == OpeningEnd(after.subs[i])
    {
      SameEnd(db.subs[i], after.subs[i]);
    }
    match pc
    case Stamp(job) => JobSoundLater(db, clock, after, later, job);
    case Commit(job, _) => JobSoundLater(db, clock, after, later, job);
    case NextRow(rows, _) => RowsDueLater(db, clock, after, later, rows);
    case CheckLimit(q, _, _) => assert SameWindow(db.quotas[q], after.quotas[q]);
    case Increment(q, _) => assert SameWindow(db.quotas[q], after.quotas[q]);
    case _ =>
  }

  lemma JobSoundLater(db: Db, clock: Instant, after: Db, later: Instant, job: Job)
    requires JobSound(db, clock, job) && Grows(db, after) && clock <= later
    ensures JobSound(after, later, job)
  {
    if !job.retire.Keep? {
      assert SameContract(db.subs[job.retire.row], after.subs[job.retire.row]);
    }
    if job.next.GoSweep? {
      RowsDueLater(db, clock, after, later, job.next.rows);
    }
  }

  // ---- One step of one worker ----------------------------------------------------------------

  function EffectDb(db: Db, e: Effect): Db
    requires e.Counted? ==> e.quota < |db.quotas|
  {
    match e
    case NewSubscription(after) => after
    case NewWindow(after) => after
    case Counted(q, _) => Bump(db, q)
    case _ => db
  }

  /** A commit never overwrites a status, whatever was committed since its read. */
  lemma CommitSound(db: Db, clock: Instant, r: Retirement, user: UserId, plan: Plan, expires: bool, start: Instant)
    requires DbSound(db, clock) && Names(db.subs, r, user) && start <= clock
    requires expires ==> plan.durationDays > 0
    requires r.Expire? ==> PastDueBy(db.subs[r.row], clock)
    requires Transact(db, r, user, plan, expires, start).Ok?
    ensures var after := Transact(db, r, user, plan, expires, start).value;
            DbSound(after, clock) && Grows(db, after) && |after.subs| == |db.subs| + 1
  {
    hide PerpetualEnd, RowOk, OpeningEnd, Retire, WindowsOk, PeriodEnd;
    Committed(db, r, user, plan, expires, start);
    CommitKeepsWindows(db, r, user, plan, expires, start);
    RetireRest(db.subs, r);
    var after := Transact(db, r, user, plan, expires, start).value;
    RetiredRow(db.subs, r);
    forall i | 0 <= i < |db.subs|
      ensures after.subs[i] == Retire(db.subs, r)[i]
      ensures after.subs[i].startedAt <= clock
      ensures after.subs[i].status == Expired ==> PastDueBy(after.subs[i], clock)
    {
      assert after.subs[i] == after.subs[..|db.subs|][i];
    }
    assert forall q :: 0 <= q < |db.quotas| ==> after.quotas[q] == after.quotas[..|db.quotas|][q];
  }

  lemma RetiredRow(subs: seq<Subscription>, r: Retirement)
    requires !r.Nothing? ==> r.row < |subs|
    ensures !r.Nothing? ==> (Retire(subs, r)[r.row].status == Expired <==> r.Expire?)
  {
  }

  /** The step keeps the database sound and leaves the worker with what it needs to know next. */
  ghost predicate StepSound(plans: Catalogue, db: Db, clock: Instant, pc: Pc)
    requires Fits(db, pc)
  {
    var (next, e) := Act(plans, db, clock, pc);
    && (e.Counted? ==> e.quota < |db.quotas|)
    && DbSound(EffectDb(db, e), clock) && Grows(db, EffectDb(db, e))
    && PcSound(EffectDb(db, e), clock, next)
  }

  lemma CommitStepSound(plans: Catalogue, db: Db, clock: Instant, pc: Pc)
    requires DbSound(db, clock) && PcSound(db, clock, pc) && pc.Commit?
    ensures StepSound(plans, db, clock, pc)
  {
    hide PerpetualEnd, RowOk, OpeningEnd, PeriodEnd, OneActive, Covered, WindowsOk;
    var job, at := pc.job, pc.at;
    var res := Transact(db, Retiring(job.retire, at), job.user, job.plan, job.expires, at);
    LaterSound(db, clock, clock);
    if res.Ok? {
      CommitSound(db, clock, Retiring(job.retire, at), job.user, job.plan, job.expires, at);
      JobSoundLater(db, clock, res.value, clock, job);
    }
  }

  lemma LookupStepSound(plans: Catalogue, db: Db, clock: Instant, pc: Pc)
    requires DbSound(db, clock) && PcSound(db, clock, pc) && pc.QueryQuota?
    ensures StepSound(plans, db, clock, pc)
  {
    hide RowOk, OpeningEnd, PeriodEnd, OneActive, Covered, WindowsOk, Grows;
    LaterSound(db, clock, clock);
    if CurrentQuota(db.quotas, pc.sub, pc.now).None? {
      OpeningSeen(db, pc.sub, pc.now);
    }
  }

  lemma OpenStepSound(plans: Catalogue, db: Db, clock: Instant, pc: Pc)
    requires DbSound(db, clock) && PcSound(db, clock, pc) && pc.OpenWindow?
    ensures StepSound(plans, db, clock, pc)
  {
    hide OpeningEnd, PeriodEnd, DbSound, Grows;
    LaterSound(db, clock, clock);
    if InsertWindow(db, pc.sub, pc.start).Ok? {
      OpenSound(db, clock, pc.sub, pc.start);
    }
  }

  lemma CountStepSound(plans: Catalogue, db: Db, clock: Instant, pc: Pc)
    requires DbSound(db, clock) && PcSound(db, clock, pc) && pc.Increment?
    ensures StepSound(plans, db, clock, pc)
  {
    hide DbSound, Grows;
    BumpSound(db, clock, pc.quota);
  }

  lemma DueStepSound(plans: Catalogue, db: Db, clock: Instant, pc: Pc)
    requires DbSound(db, clock) && PcSound(db, clock, pc) && pc.QueryDue?
    ensures StepSound(plans, db, clock, pc)
  {
    hide DbSound, Grows, DueRows;
    LaterSound(db, clock, clock);
    assert RowsDue(db, clock, DueRows(db.subs, pc.now));
  }

  /** The reads at the head of each transaction, and the clock reading before its commit. */
  ghost predicate IsRead(pc: Pc) {
    pc.ReadForSubscribe? || pc.ReadForCancel? || pc.ReadForRecord? || pc.Stamp?
  }

  lemma ReadStepSound(plans: Catalogue, db: Db, clock: Instant, pc: Pc)
    requires DbSound(db, clock) && PcSound(db, clock, pc) && IsRead(pc)
    ensures StepSound(plans, db, clock, pc)
  {
    hide DbSound, Grows, ActiveRow;
    LaterSound(db, clock, clock);
  }

  lemma QuietStepSound(plans: Catalogue, db: Db, clock: Instant, pc: Pc)
    requires DbSound(db, clock) && PcSound(db, clock, pc) && !IsRead(pc) && !pc.QueryDue?
    requires !pc.Commit? && !pc.QueryQuota? && !pc.OpenWindow? && !pc.Increment?
    ensures StepSound(plans, db, clock, pc)
  {
    hide OpeningEnd, OneActive, Covered, WindowsOk, Grows;
    LaterSound(db, clock, clock);
    match pc
    case NextRow(rows, _) => assert rows != [] ==> RowsDue(db, clock, rows[1..]);
    case _ =>
  }

  lemma ActSound(plans: Catalogue, db: Db, clock: Instant, pc: Pc)
    requires DbSound(db, clock) && PcSound(db, clock, pc)
    ensures StepSound(plans, db, clock, pc)
  {
    if pc.Commit? {
      CommitStepSound(plans, db, clock, pc);
    } else if pc.QueryQuota? {
      LookupStepSound(plans, db, clock, pc);
    } else if pc.OpenWindow? {
      OpenStepSound(plans, db, clock, pc);
    } else if pc.Increment? {
      CountStepSound(plans, db, clock, pc);
    } else if pc.QueryDue? {
      DueStepSound(plans, db, clock, pc);
    } else if IsRead(pc) {
      ReadStepSound(plans, db, clock, pc);
    } else {
      QuietStepSound(plans, db, clock, pc);
    }
  }

  /** The opening window has begun, so a lookup that finds nothing proves it is over. */
  lemma OpeningSeen(db: Db, sub: nat, now: Instant)
    requires WindowsOk(db) && sub < |db.subs| && db.subs[sub].startedAt <= now
    requires CurrentQuota(db.quotas, sub, now).None?
    ensures OpeningOver(db.subs[sub], now)
  {
    hide PerpetualEnd, PeriodEnd;
    assert HasOpening(db, sub);
    var q :| 0 <= q < |db.quotas| && db.quotas[q].sub == sub && IsOpening(db, q);
    assert !Current(db.quotas[q], sub, now);
  }

  lemma OpenSound(db: Db, clock: Instant, sub: nat, start: Instant)
    requires DbSound(db, clock) && sub < |db.subs| && OpeningOver(db.subs[sub], start) && start <= clock
    requires InsertWindow(db, sub, start).Ok?
    ensures var after := InsertWindow(db, sub, start).value;
            && DbSound(after, clock) && Grows(db, after)
            && |after.quotas| == |db.quotas| + 1 && after.quotas[|db.quotas|].Contains(start)
  {
    hide PerpetualEnd, RowOk, OpeningEnd, OneActive, Covered, WindowsOk;
    RotationKeepsWindows(db, sub, start);
    var after := InsertWindow(db, sub, start).value;
    forall q | 0 <= q < |db.quotas|
      ensures after.quotas[q] == db.quotas[q]
    {
      assert after.quotas[q] == after.quotas[..|db.quotas|][q];
    }
  }

  lemma BumpSound(db: Db, clock: Instant, q: nat)
    requires DbSound(db, clock) && q < |db.quotas|
    ensures DbSound(Bump(db, q), clock) && Grows(db, Bump(db, q))
  {
    hide OneActive, Covered, WindowsOk;
    BumpKeepsWindows(db, q);
  }

  lemma StartSound(plans: Catalogue, db: Db, clock: Instant, call: Call)
    ensures PcSound(db, clock, Start(plans, clock, call))
  {
  }

  lemma FaultSound(db: Db, clock: Instant, pc: Pc)
    requires PcSound(db, clock, pc)
    ensures PcSound(db, clock, OnFault(pc))
  {
  }

  // ---- Every event, every run ----------------------------------------------------------------

  lemma ApplySound(plans: Catalogue, s: State, e: Event)
    requires Sound(s)
    ensures Sound(Apply(plans, s, e)) && Grows(s.db, Apply(plans, s, e).db)
    ensures s.clock <= Apply(plans, s, e).clock
    ensures |Apply(plans, s, e).workers| == |s.workers|
  {
    hide DbSound, PcSound, Act;
    var t := Apply(plans, s, e);
    match e
    case Tick(d) =>
      LaterSound(s.db, s.clock, t.clock);
      forall w | 0 <= w < |t.workers|
        ensures PcSound(t.db, t.clock, t.workers[w])
      {
        PcSoundLater(s.db, s.clock, t.db, t.clock, s.workers[w]);
      }
    case Begin(w, call) =>
      StartSound(plans, s.db, s.clock, call);
    case Step(w) =>
      if w < |s.workers| && Fits(s.db, s.workers[w]) {
        ActSound(plans, s.db, s.clock, s.workers[w]);
        forall v | 0 <= v < |t.workers|
          ensures PcSound(t.db, t.clock, t.workers[v])
        {
          if v != w {
            PcSoundLater(s.db, s.clock, t.db, t.clock, s.workers[v]);
          }
        }
      }
    case Fault(w) =>
      if w < |s.workers| {
        FaultSound(s.db, s.clock, s.workers[w]);
      }
  }

  lemma LaterSound(db: Db, clock: Instant, later: Instant)
    requires DbSound(db, clock) && clock <= later
    ensures DbSound(db, later) && Grows(db, db)
  {
  }

  lemma InitialSound(workers: nat, clock: Instant)
    ensures Sound(Initial(workers, clock))
  {
  }

  lemma {:induction false} RunSound(plans: Catalogue, s: State, es: seq<Event>)
    requires Sound(s)
    ensures Sound(Run(plans, s, es)) && Grows(s.db, Run(plans, s, es).db)
    ensures s.clock <= Run(plans, s, es).clock
    ensures |Run(plans, s, es).workers| == |s.workers|
  {
    hide Sound, Grows, Apply;
    if es == [] {
      LaterGrows(s);
    } else {
      var before := Run(plans, s, es[..|es| - 1]);
      RunSound(plans, s, es[..|es| - 1]);
      ApplySound(plans, before, es[|es| - 1]);
      GrowsFurther(s.db, before.db, Run(plans, s, es).db);
    }
  }

  lemma LaterGrows(s: State)
    requires Sound(s)
    ensures Grows(s.db, s.db)
  {
    LaterSound(s.db, s.clock, s.clock);
  }
}
