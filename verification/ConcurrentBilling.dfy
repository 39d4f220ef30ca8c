/**
 The subscription services as N workers that interleave on one database and one clock.

 A `@transaction.atomic` body reads first and commits later, from what it read; its commit applies
 all of its writes or, when the unique constraint or the calendar refuses, none. `record_request`
 is not a transaction: every clock reading, query and write of it is a step of its own.
*/
module ConcurrentBilling {
  import opened Wrappers
  import opened Calendar
  import opened Subscriptions

  datatype Call =
    | CallEnroll(user: UserId)
    | CallSubscribe(user: UserId, slug: string)
    | CallCancel(user: UserId)
    | CallSweep
    | CallRecord(user: UserId)

  /** What follows a transaction: nothing, the rest of `record_request`, or the rest of the sweep. */
  datatype Next = Finish | GoRecord | GoSweep(rows: seq<nat>, affected: nat)

  /** A transaction that has done its reading. */
  datatype Job = Job(retire: Intent, user: UserId, plan: Plan, expires: bool, next: Next)

  datatype Intent = Keep | ReplaceRow(row: nat) | CancelRow(row: nat) | ExpireRow(row: nat)

  /** Where a worker is, with its local variables. */
  datatype Pc =
    | Idle
    | ReadForSubscribe(user: UserId, slug: string)
    | ReadForCancel(user: UserId)
    | Stamp(job: Job)
    | Commit(job: Job, at: Instant)
    | QueryDue(now: Instant)
    | NextRow(rows: seq<nat>, affected: nat)
    | ReadForRecord(user: UserId)
    | ClockForQuota(sub: nat)
    | QueryQuota(sub: nat, now: Instant)
    | ClockForWindow(sub: nat)
    | OpenWindow(sub: nat, start: Instant)
    | CheckLimit(quota: nat, used: nat, at: Instant)
    | Increment(quota: nat, at: Instant)

  /** Who created a quota row: the transaction that created its subscription, or a worker rotating. */
  datatype Maker = Opening | By(worker: nat)

  /** One counted request: the clock reading that chose its window, and who wrote the increment, and when. */
  datatype Accept = Accept(quota: nat, at: Instant, worker: nat, done: Instant)

  datatype State = State(
    db: Db, clock: Instant, workers: seq<Pc>,
    makers: seq<Maker>, log: seq<Accept>, returned: seq<nat>)

  datatype Event = Tick(micros: nat) | Begin(worker: nat, call: Call) | Step(worker: nat) | Fault(worker: nat)

  datatype Effect =
    | Quiet
    | NewSubscription(db: Db)
    | NewWindow(db: Db)
    | Counted(quota: nat, at: Instant)
    | Returned(affected: nat)

  function Retiring(i: Intent, at: Instant): Retirement {
    match i
    case Keep => Nothing
    case ReplaceRow(row) => Replace(row, at)
    case CancelRow(row) => CancelByUser(row, at)
    case ExpireRow(row) => Expire(row)
  }

  function FreeJob(plans: Catalogue, i: Intent, user: UserId, next: Next): Option<Job> {
    match GetPlanBySlug(plans, FREE)
    case None => None
    case Some(free) => Some(Job(i, user, free, false, next))
  }

  /** After a transaction: `ok` is the new subscription when it committed. */
  function Continue(next: Next, ok: Option<nat>): Pc {
    match next
    case Finish => Idle
    case GoRecord => if ok.Some? then ClockForQuota(ok.value) else Idle
    case GoSweep(rows, affected) => NextRow(rows, affected + if ok.Some? then 1 else 0)
  }

  function Start(plans: Catalogue, clock: Instant, call: Call): Pc {
    match call
    case CallEnroll(user) =>
      var job := FreeJob(plans, Keep, user, Finish);
      if job.Some? then Stamp(job.value) else Idle
    case CallSubscribe(user, slug) => ReadForSubscribe(user, slug)
    case CallCancel(user) => ReadForCancel(user)
    case CallSweep => QueryDue(clock)
    case CallRecord(user) => ReadForRecord(user)
  }

  /** The rows a worker's variables refer to exist. */
  predicate Fits(db: Db, pc: Pc) {
    match pc
    case NextRow(rows, _) => rows != [] ==> rows[0] < |db.subs|
    case ClockForQuota(sub) => sub < |db.subs|
    case QueryQuota(sub, _) => sub < |db.subs|
    case ClockForWindow(sub) => sub < |db.subs|
    case OpenWindow(sub, _) => sub < |db.subs|
    case CheckLimit(q, _, _) => q < |db.quotas|
    case Increment(q, _) => q < |db.quotas|
    case _ => true
  }

  /** One step of one worker. */
  function Act(plans: Catalogue, db: Db, clock: Instant, pc: Pc): (Pc, Effect)
    requires Fits(db, pc)
  {
    match pc
    case Idle => (Idle, Quiet)
    case ReadForSubscribe(user, slug) => (AfterSubscribeRead(plans, db, user, slug), Quiet)
    case ReadForCancel(user) => (AfterCancelRead(plans, db, user), Quiet)
    case Stamp(job) => (Commit(job, clock), Quiet)
    case Commit(job, at) =>
      (match Transact(db, Retiring(job.retire, at), job.user, job.plan, job.expires, at)
       case Ok(after) => (Continue(job.next, Some(|db.subs|)), NewSubscription(after))
       case Err(_) => (Continue(job.next, None), Quiet))
    case QueryDue(now) => (NextRow(DueRows(db.subs, now), 0), Quiet)
    case NextRow(rows, affected) =>
      if rows == [] then (Idle, Returned(affected))
      else
        var job := FreeJob(plans, ExpireRow(rows[0]), db.subs[rows[0]].user, GoSweep(rows[1..], affected));
        (if job.Some? then Stamp(job.value) else NextRow(rows[1..], affected), Quiet)
    case ReadForRecord(user) => (AfterRecordRead(plans, db, user), Quiet)
    case ClockForQuota(sub) => (QueryQuota(sub, clock), Quiet)
    case QueryQuota(sub, now) =>
      (match CurrentQuota(db.quotas, sub, now)
       case Some(q) => (CheckLimit(q, db.quotas[q].requestsUsed, now), Quiet)
       case None => (ClockForWindow(sub), Quiet))
    case ClockForWindow(sub) => (OpenWindow(sub, clock), Quiet)
    case OpenWindow(sub, start) =>
      (match InsertWindow(db, sub, start)
       case Ok(after) => (CheckLimit(|db.quotas|, 0, start), NewWindow(after))
       case Err(_) => (Idle, Quiet))
    case CheckLimit(q, used, at) =>
      var limit := Limit(db, q);
      (if limit != 0 && used >= limit then Idle else Increment(q, at), Quiet)
    case Increment(q, at) => (Idle, Counted(q, at))
  }

  function AfterSubscribeRead(plans: Catalogue, db: Db, user: UserId, slug: string): Pc {
    match GetPlanBySlug(plans, slug)
    case None => Idle
    case Some(plan) =>
      match ActiveRow(db.subs, user)
      case None => Stamp(Job(Keep, user, plan, plan.durationDays > 0, Finish))
      case Some(i) =>
        if db.subs[i].plan.slug == plan.slug then Idle
        else Stamp(Job(ReplaceRow(i), user, plan, plan.durationDays > 0, Finish))
  }

  function AfterCancelRead(plans: Catalogue, db: Db, user: UserId): Pc {
    match ActiveRow(db.subs, user)
    case None => Idle
    case Some(i) =>
      var job := FreeJob(plans, CancelRow(i), user, Finish);
      if job.Some? then Stamp(job.value) else Idle
  }

  function AfterRecordRead(plans: Catalogue, db: Db, user: UserId): Pc {
    match ActiveRow(db.subs, user)
    case Some(i) => ClockForQuota(i)
    case None =>
      var job := FreeJob(plans, Keep, user, GoRecord);
      if job.Some? then Stamp(job.value) else Idle
  }

  /** A database error ends the call, except inside the sweep's loop, which goes on to the next row. */
  function OnFault(pc: Pc): Pc {
    match pc
    case Stamp(job) => Continue(job.next, None)
    case Commit(job, _) => Continue(job.next, None)
    case NextRow(_, _) => pc
    case _ => Idle
  }

  function Record(s: State, w: nat, e: Effect): State
    requires e.Counted? ==> e.quota < |s.db.quotas|
  {
    match e
    case Quiet => s
    case NewSubscription(db) => s.(db := db, makers := s.makers + [Opening])
    case NewWindow(db) => s.(db := db, makers := s.makers + [By(w)])
    case Counted(q, at) => s.(db := Bump(s.db, q), log := s.log + [Accept(q, at, w, s.clock)])
    case Returned(n) => s.(returned := s.returned + [n])
  }

  function Advance(plans: Catalogue, s: State, w: nat): State
    requires w < |s.workers| && Fits(s.db, s.workers[w])
  {
    var (pc, effect) := Act(plans, s.db, s.clock, s.workers[w]);
    Record(s, w, effect).(workers := s.workers[w := pc])
  }

  /** Events that name no worker, or begin a call on a busy one, change nothing. */
  function Apply(plans: Catalogue, s: State, e: Event): State {
    match e
    case Tick(d) => s.(clock := s.clock + d)
    case Begin(w, call) =>
      if w < |s.workers| && s.workers[w].Idle?
      then s.(workers := s.workers[w := Start(plans, s.clock, call)]) else s
    case Step(w) => if w < |s.workers| && Fits(s.db, s.workers[w]) then Advance(plans, s, w) else s
    case Fault(w) => if w < |s.workers| then s.(workers := s.workers[w := OnFault(s.workers[w])]) else s
  }

  function Initial(workers: nat, clock: Instant): State {
    State(Db([], []), clock, seq(workers, _ => Idle), [], [], [])
  }

  function Run(plans: Catalogue, s: State, es: seq<Event>): State {
    if es == [] then s else Apply(plans, Run(plans, s, es[..|es| - 1]), es[|es| - 1])
  }

  lemma {:induction false} RunAppend(plans: Catalogue, s: State, es: seq<Event>, fs: seq<Event>)
    ensures Run(plans, s, es + fs) == Run(plans, Run(plans, s, es), fs)
  {
    if fs == [] {
      assert es + fs == es;
    } else {
      var n := |fs| - 1;
      assert (es + fs)[..|es + fs| - 1] == es + fs[..n];
      RunAppend(plans, s, es, fs[..n]);
    }
  }
}
