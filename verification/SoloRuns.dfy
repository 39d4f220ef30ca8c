/**
 The machine refines the sequential services: when one worker makes a call and no other worker moves,
 every run that ends the call ends in the database that the sequential function returns for clock
 readings taken during the call.
*/
module SoloRuns {
  import opened Calendar
  import opened Subscriptions
  import opened ConcurrentBilling
  import opened ConcurrentLaws
  import opened SequentialLaws

  /** The clock and worker `w` move; nobody begins a call and no database error occurs. */
  predicate Alone(es: seq<Event>, w: nat) {
    forall k :: 0 <= k < |es| ==> es[k].Tick? || es[k] == Step(w)
  }

  /** The database at the end, and what a sweep returned on the way. */
  datatype Ending = Ending(db: Db, returned: seq<nat>)

  /** Readings between `from` and `to`, in the order of the rows. */
  ghost predicate InOrder(at: nat -> Instant, rows: seq<nat>, from: Instant, to: Instant) {
    && (forall j :: 0 <= j < |rows| ==> from <= at(rows[j]) <= to)
    && (forall j, l :: 0 <= j < l < |rows| ==> at(rows[j]) <= at(rows[l]))
  }

  ghost predicate NoRepeats(rows: seq<nat>) {
    forall j, l :: 0 <= j < l < |rows| ==> rows[j] != rows[l]
  }

  // ---- What is left of a call ----------------------------------------------------------------

  ghost predicate RestOfSweep(plans: Catalogue, db: Db, rows: seq<nat>, affected: nat, from: Instant, to: Instant, e: Ending) {
    NoRepeats(rows) && InTable(rows, db) ==>
      exists at: nat -> Instant ::
        && InOrder(at, rows, from, to)
        && e == Ending(SweepRows(db, plans, rows, 0, at).db, [affected + SweepRows(db, plans, rows, 0, at).affected])
  }

  ghost predicate RestOfRequest(db: Db, sub: nat, from: Instant, to: Instant, e: Ending) {
    sub < |db.subs| ==>
      exists find, open :: from <= find <= open <= to && e == Ending(Charge(db, sub, find, open).db, [])
  }

  ghost predicate RestOfCommit(plans: Catalogue, db: Db, job: Job, at: Instant, from: Instant, to: Instant, e: Ending) {
    var res := Transact(db, Retiring(job.retire, at), job.user, job.plan, job.expires, at);
    match job.next
    case Finish => e == Ending(OrSame(db, res), [])
    case GoRecord => if res.Ok? then RestOfRequest(res.value, |db.subs|, from, to, e) else e == Ending(db, [])
    case GoSweep(rows, affected) =>
      RestOfSweep(plans, OrSame(db, res), rows, affected + (if res.Ok? then 1 else 0), from, to, e)
  }

  /** Open a window and count on it. */
  function OpenAndCount(db: Db, sub: nat, open: Instant): Db
    requires sub < |db.subs|
  {
    match InsertWindow(db, sub, open)
    case Err(_) => db
    case Ok(after) => Count(after, |db.quotas|).db
  }

  /**
   The endings that the sequential code allows a worker at `pc` which still has clock readings between
   `from` and `to` to take.
  */
  ghost predicate Rest(plans: Catalogue, db: Db, pc: Pc, from: Instant, to: Instant, e: Ending) {
    match pc
    case Idle => e == Ending(db, [])
    case ReadForSubscribe(user, slug) =>
      exists at :: from <= at <= to && e == Ending(OrSame(db, Subscribe(db, plans, user, slug, at, at)), [])
    case ReadForCancel(user) =>
      exists at :: from <= at <= to && e == Ending(OrSame(db, Cancel(db, plans, user, at, at)), [])
    case ReadForRecord(user) =>
      exists t: Readings :: Timely(t, from, to) && e == Ending(RecordRequest(db, plans, user, t).db, [])
    case Stamp(job) => exists at :: from <= at <= to && RestOfCommit(plans, db, job, at, at, to, e)
    case Commit(job, at) => RestOfCommit(plans, db, job, at, from, to, e)
    case QueryDue(now) => RestOfSweep(plans, db, DueRows(db.subs, now), 0, from, to, e)
    case NextRow(rows, affected) => RestOfSweep(plans, db, rows, affected, from, to, e)
    case ClockForQuota(sub) => RestOfRequest(db, sub, from, to, e)
    case QueryQuota(sub, now) =>
      sub < |db.subs| ==> exists open :: from <= open <= to && e == Ending(Charge(db, sub, now, open).db, [])
    case ClockForWindow(sub) =>
      sub < |db.subs| ==> exists open :: from <= open <= to && e == Ending(OpenAndCount(db, sub, open), [])
    case OpenWindow(sub, start) => sub < |db.subs| ==> e == Ending(OpenAndCount(db, sub, start), [])
    case CheckLimit(q, used, _) =>
      q < |db.quotas| && used == db.quotas[q].requestsUsed ==> e == Ending(Count(db, q).db, [])
    case Increment(q, _) => q < |db.quotas| ==> e == Ending(Bump(db, q), [])
  }

  // ---- Time passes ---------------------------------------------------------------------------

  lemma SweepEarlier(plans: Catalogue, db: Db, rows: seq<nat>, affected: nat, from: Instant, later: Instant, to: Instant, e: Ending)
    requires from <= later && RestOfSweep(plans, db, rows, affected, later, to, e)
    ensures RestOfSweep(plans, db, rows, affected, from, to, e)
  {
    hide SweepRows;
    if NoRepeats(rows) && InTable(rows, db) {
      var at: nat -> Instant :|
        && InOrder(at, rows, later, to)
        && e == Ending(SweepRows(db, plans, rows, 0, at).db, [affected + SweepRows(db, plans, rows, 0, at).affected]);
      assert InOrder(at, rows, from, to);
    }
  }

  lemma CommitEarlier(plans: Catalogue, db: Db, job: Job, at: Instant, from: Instant, later: Instant, to: Instant, e: Ending)
    requires from <= later && RestOfCommit(plans, db, job, at, later, to, e)
    ensures RestOfCommit(plans, db, job, at, from, to, e)
  {
    hide Transact, Charge, RestOfSweep;
    if job.next.GoSweep? {
      var res := Transact(db, Retiring(job.retire, at), job.user, job.plan, job.expires, at);
      SweepEarlier(plans, OrSame(db, res), job.next.rows, job.next.affected + (if res.Ok? then 1 else 0), from, later, to, e);
    }
  }

  /** Readings taken after the clock has moved on are also readings from before. */
  lemma RestEarlier(plans: Catalogue, db: Db, pc: Pc, from: Instant, later: Instant, to: Instant, e: Ending)
    requires from <= later && Rest(plans, db, pc, later, to, e)
    ensures Rest(plans, db, pc, from, to, e)
  {
    hide Transact, Charge, Subscribe, Cancel, RecordRequest, RestOfCommit, RestOfSweep, OpenAndCount, Count;
    match pc
    case Commit(job, at) => CommitEarlier(plans, db, job, at, from, later, to, e);
    case QueryDue(now) => SweepEarlier(plans, db, DueRows(db.subs, now), 0, from, later, to, e);
    case NextRow(rows, affected) => SweepEarlier(plans, db, rows, affected, from, later, to, e);
    case _ =>
  }

  // ---- One step of the worker ----------------------------------------------------------------

  /** The sequential rest of the call before the step includes that after it. */
  ghost predicate StepRefines(plans: Catalogue, db: Db, clock: Instant, pc: Pc, to: Instant, e: Ending)
    requires Fits(db, pc)
  {
    var (next, effect) := Act(plans, db, clock, pc);
    && (effect.Counted? ==> effect.quota < |db.quotas|)
    && (Rest(plans, EffectDb(db, effect), next, clock, to, e) ==>
          Rest(plans, db, pc, clock, to, Ending(e.db, (if effect.Returned? then [effect.affected] else []) + e.returned)))
  }

  /** The reads at the head of `subscribe`, `cancel` and `record_request`. */
  lemma ReadRefines(plans: Catalogue, db: Db, clock: Instant, pc: Pc, to: Instant, e: Ending)
    requires clock <= to && (pc.ReadForSubscribe? || pc.ReadForCancel?)
    ensures StepRefines(plans, db, clock, pc, to, e)
  {
    hide Transact;
    assert [] + e.returned == e.returned;
    var (next, _) := Act(plans, db, clock, pc);
    if Rest(plans, db, next, clock, to, e) {
      var at: Instant :| clock <= at <= to && (next.Stamp? ==> RestOfCommit(plans, db, next.job, at, at, to, e));
      assert pc.ReadForSubscribe? ==> e == Ending(OrSame(db, Subscribe(db, plans, pc.user, pc.slug, at, at)), []);
      assert pc.ReadForCancel? ==> e == Ending(OrSame(db, Cancel(db, plans, pc.user, at, at)), []);
    }
  }

  lemma RequestReadRefines(plans: Catalogue, db: Db, clock: Instant, pc: Pc, to: Instant, e: Ending)
    requires clock <= to && pc.ReadForRecord?
    ensures StepRefines(plans, db, clock, pc, to, e)
  {
    hide Charge;
    var (next, _) := Act(plans, db, clock, pc);
    if Rest(plans, db, next, clock, to, e) {
      match ActiveRow(db.subs, pc.user)
      case Some(i) =>
        var find, open :| clock <= find <= open <= to && e == Ending(Charge(db, i, find, open).db, []);
        ChosenRequest(plans, db, pc.user, Readings(clock, find, open), clock, to, e);
      case None =>
        if next.Idle? {
          ChosenRequest(plans, db, pc.user, Readings(clock, clock, clock), clock, to, e);
        } else {
          var at :| clock <= at <= to && RestOfCommit(plans, db, next.job, at, at, to, e);
          var res := Transact(db, Nothing, pc.user, next.job.plan, false, at);
          if res.Ok? {
            var find, open :| at <= find <= open <= to && e == Ending(Charge(res.value, |db.subs|, find, open).db, []);
            ChosenRequest(plans, db, pc.user, Readings(at, find, open), clock, to, e);
          } else {
            ChosenRequest(plans, db, pc.user, Readings(at, at, at), clock, to, e);
          }
        }
    }
    assert [] + e.returned == e.returned;
  }

  lemma ChosenRequest(plans: Catalogue, db: Db, user: UserId, t: Readings, from: Instant, to: Instant, e: Ending)
    requires Timely(t, from, to) && e == Ending(RecordRequest(db, plans, user, t).db, [])
    ensures Rest(plans, db, ReadForRecord(user), from, to, e)
  {
    hide RecordRequest;
  }

  lemma CommitRefines(plans: Catalogue, db: Db, clock: Instant, pc: Pc, to: Instant, e: Ending)
    requires clock <= to && (pc.Stamp? || pc.Commit?)
    ensures StepRefines(plans, db, clock, pc, to, e)
  {
    hide Transact, RestOfSweep, RestOfRequest;
    assert [] + e.returned == e.returned;
  }

  lemma QuotaRefines(plans: Catalogue, db: Db, clock: Instant, pc: Pc, to: Instant, e: Ending)
    requires clock <= to && Fits(db, pc)
    requires pc.ClockForQuota? || pc.ClockForWindow? || pc.OpenWindow? || pc.CheckLimit? || pc.Increment?
    ensures StepRefines(plans, db, clock, pc, to, e)
  {
    assert [] + e.returned == e.returned;
  }

  lemma LookupRefines(plans: Catalogue, db: Db, clock: Instant, pc: Pc, to: Instant, e: Ending)
    requires clock <= to && Fits(db, pc) && pc.QueryQuota?
    ensures StepRefines(plans, db, clock, pc, to, e)
  {
    hide Count, InsertWindow;
    assert [] + e.returned == e.returned;
    var (next, _) := Act(plans, db, clock, pc);
    if Rest(plans, db, next, clock, to, e) {
      match CurrentQuota(db.quotas, pc.sub, pc.now)
      case Some(q) => assert e == Ending(Charge(db, pc.sub, pc.now, clock).db, []);
      case None =>
        var open :| clock <= open <= to && e == Ending(OpenAndCount(db, pc.sub, open), []);
        assert e == Ending(Charge(db, pc.sub, pc.now, open).db, []);
    }
  }

  /** The rest of the loop does not depend on the readings of rows already done. */
  lemma {:induction false} SweepTail(db: Db, plans: Catalogue, rows: seq<nat>, k: nat, at: nat -> Instant, before: nat -> Instant)
    requires k < |rows| && InTable(rows, db)
    requires forall j :: k < j < |rows| ==> at(rows[j]) == before(rows[j])
    ensures SweepRows(db, plans, rows, k + 1, at) == SweepRows(db, plans, rows[1..], k, before)
    decreases |rows| - k
  {
    hide ExpireOne;
    if k + 1 < |rows| {
      var row := rows[k + 1];
      assert rows[1..][k] == row;
      var res := ExpireOne(db, plans, row, at(row));
      KeepsRows(db, plans, row, at(row));
      SweepTail(OrSame(db, res), plans, rows, k + 1, at, before);
    }
  }

  lemma KeepsRows(db: Db, plans: Catalogue, row: nat, start: Instant)
    requires row < |db.subs|
    ensures |db.subs| <= |OrSame(db, ExpireOne(db, plans, row, start)).subs|
  {
  }

  /** One more row in front, read at `first`. */
  lemma SweepMore(plans: Catalogue, db: Db, rows: seq<nat>, affected: nat, first: Instant, from: Instant, to: Instant, e: Ending)
    requires rows != [] && rows[0] < |db.subs| && from <= first <= to
    requires var res := ExpireOne(db, plans, rows[0], first);
             RestOfSweep(plans, OrSame(db, res), rows[1..], affected + (if res.Ok? then 1 else 0), first, to, e)
    ensures RestOfSweep(plans, db, rows, affected, from, to, e)
  {
    hide ExpireOne;
    if NoRepeats(rows) && InTable(rows, db) {
      var res := ExpireOne(db, plans, rows[0], first);
      var db1, n := OrSame(db, res), affected + (if res.Ok? then 1 else 0);
      KeepsRows(db, plans, rows[0], first);
      assert NoRepeats(rows[1..]) && InTable(rows[1..], db1);
      var before: nat -> Instant :|
        && InOrder(before, rows[1..], first, to)
        && e == Ending(SweepRows(db1, plans, rows[1..], 0, before).db, [n + SweepRows(db1, plans, rows[1..], 0, before).affected]);
      var at := (i: nat) => if i == rows[0] then first else before(i);
      forall j | 0 < j < |rows|
        ensures at(rows[j]) == before(rows[1..][j - 1])
      {
      }
      SweepTail(db1, plans, rows, 0, at, before);
      assert InOrder(at, rows, from, to);
    }
  }

  lemma LoopRefines(plans: Catalogue, db: Db, clock: Instant, pc: Pc, to: Instant, e: Ending)
    requires clock <= to && Fits(db, pc) && (pc.NextRow? || pc.QueryDue?)
    ensures StepRefines(plans, db, clock, pc, to, e)
  {
    hide Transact, RestOfSweep;
    var (next, effect) := Act(plans, db, clock, pc);
    assert [] + e.returned == e.returned;
    if pc.NextRow? && Rest(plans, db, next, clock, to, e) {
      if pc.rows == [] {
        SweepDone(plans, db, pc.affected, clock, to);
        assert e == Ending(db, []) && [pc.affected] + e.returned == [pc.affected];
      } else if next.Stamp? {
        var at :| clock <= at <= to && RestOfCommit(plans, db, next.job, at, at, to, e);
        SweepMore(plans, db, pc.rows, pc.affected, at, clock, to, e);
      } else {
        SweepMore(plans, db, pc.rows, pc.affected, clock, clock, to, e);
      }
    }
  }

  lemma SweepDone(plans: Catalogue, db: Db, affected: nat, from: Instant, to: Instant)
    ensures RestOfSweep(plans, db, [], affected, from, to, Ending(db, [affected]))
  {
    var at: nat -> Instant := _ => from;
    assert InOrder(at, [], from, to);
  }

  lemma ActRefines(plans: Catalogue, db: Db, clock: Instant, pc: Pc, to: Instant, e: Ending)
    requires clock <= to && Fits(db, pc)
    ensures StepRefines(plans, db, clock, pc, to, e)
  {
    match pc
    case Idle => assert [] + e.returned == e.returned;
    case ReadForSubscribe(_, _) => ReadRefines(plans, db, clock, pc, to, e);
    case ReadForCancel(_) => ReadRefines(plans, db, clock, pc, to, e);
    case ReadForRecord(_) => RequestReadRefines(plans, db, clock, pc, to, e);
    case Stamp(_) => CommitRefines(plans, db, clock, pc, to, e);
    case Commit(_, _) => CommitRefines(plans, db, clock, pc, to, e);
    case QueryDue(_) => LoopRefines(plans, db, clock, pc, to, e);
    case NextRow(_, _) => LoopRefines(plans, db, clock, pc, to, e);
    case QueryQuota(_, _) => LookupRefines(plans, db, clock, pc, to, e);
    case _ => QuotaRefines(plans, db, clock, pc, to, e);
  }

  // ---- Every run of the worker alone ---------------------------------------------------------

  /** The run moved only worker `w`, and took it to the end of its call by a sequential continuation. */
  ghost predicate EndsSequentially(plans: Catalogue, s: State, w: nat, t: State)
    requires w < |s.workers|
  {
    && s.clock <= t.clock
    && t.workers == s.workers[w := Idle]
    && s.returned <= t.returned
    && Rest(plans, s.db, s.workers[w], s.clock, t.clock, Ending(t.db, t.returned[|s.returned|..]))
  }

  lemma {:induction false} RunRefines(plans: Catalogue, s: State, w: nat, es: seq<Event>)
    requires w < |s.workers| && Alone(es, w)
    requires var t := Run(plans, s, es); w < |t.workers| && t.workers[w].Idle?
    ensures EndsSequentially(plans, s, w, Run(plans, s, es))
    decreases |es|
  {
    hide Act, Rest;
    if es == [] {
      StaysSequential(plans, s, w);
    } else {
      FirstEvent(plans, s, es);
      var s1, t := Apply(plans, s, es[0]), Run(plans, s, es);
      RunRefines(plans, s1, w, es[1..]);
      if es[0].Tick? {
        RestEarlier(plans, s.db, s.workers[w], s.clock, s1.clock, t.clock, Ending(t.db, t.returned[|s.returned|..]));
      } else if Fits(s.db, s.workers[w]) {
        StepThenRest(plans, s, w, t);
      }
    }
  }

  lemma FirstEvent(plans: Catalogue, s: State, es: seq<Event>)
    requires es != []
    ensures Run(plans, s, es) == Run(plans, Apply(plans, s, es[0]), es[1..])
  {
    assert es == [es[0]] + es[1..];
    assert [es[0]][..0] == [];
    RunAppend(plans, s, [es[0]], es[1..]);
    assert Run(plans, s, [es[0]]) == Apply(plans, Run(plans, s, []), es[0]);
  }

  lemma StaysSequential(plans: Catalogue, s: State, w: nat)
    requires w < |s.workers| && s.workers[w].Idle?
    ensures EndsSequentially(plans, s, w, s)
  {
    assert s.workers[w := Idle] == s.workers;
  }

  lemma StepThenRest(plans: Catalogue, s: State, w: nat, t: State)
    requires w < |s.workers| && Fits(s.db, s.workers[w])
    requires EndsSequentially(plans, Advance(plans, s, w), w, t)
    ensures EndsSequentially(plans, s, w, t)
  {
    hide Act, Rest;
    var s1 := Advance(plans, s, w);
    var e := Ending(t.db, t.returned[|s1.returned|..]);
    ActRefines(plans, s.db, s.clock, s.workers[w], t.clock, e);
    var (_, effect) := Act(plans, s.db, s.clock, s.workers[w]);
    assert t.returned[|s.returned|..] == (if effect.Returned? then [effect.affected] else []) + e.returned;
  }

  /** Begin the call, then let only its worker step; the run ends once the worker is idle again. */
  ghost predicate RunsAlone(plans: Catalogue, s: State, w: nat, call: Call, es: seq<Event>, t: State) {
    && w < |s.workers| && s.workers[w].Idle? && Alone(es, w)
    && t == Run(plans, s, [Begin(w, call)] + es)
    && w < |t.workers| && t.workers[w].Idle?
  }

  lemma CallRefines(plans: Catalogue, s: State, w: nat, call: Call, es: seq<Event>, t: State)
    requires RunsAlone(plans, s, w, call, es, t)
    ensures s.clock <= t.clock && t.workers == s.workers && s.returned <= t.returned
    ensures Rest(plans, s.db, Start(plans, s.clock, call), s.clock, t.clock, Ending(t.db, t.returned[|s.returned|..]))
  {
    hide Rest, Start;
    FirstEvent(plans, s, [Begin(w, call)] + es);
    var begun := Apply(plans, s, Begin(w, call));
    assert ([Begin(w, call)] + es)[1..] == es;
    RunRefines(plans, begun, w, es);
    assert begun.workers[w := Idle] == s.workers;
  }

  // ---- The calls -----------------------------------------------------------------------------

  /** Every uninterrupted enrolment ends with the effect of the sequential function at some reading of the call. */
  lemma SoloEnroll(plans: Catalogue, s: State, w: nat, user: UserId, es: seq<Event>, t: State)
    requires RunsAlone(plans, s, w, CallEnroll(user), es, t)
    ensures t.workers == s.workers && t.returned == s.returned
    ensures exists at :: s.clock <= at <= t.clock && t.db == OrSame(s.db, Enroll(s.db, plans, user, at))
  {
    hide Run, Transact;
    CallRefines(plans, s, w, CallEnroll(user), es, t);
    var e := Ending(t.db, t.returned[|s.returned|..]);
    match FreeJob(plans, Keep, user, Finish)
    case None => assert t.db == OrSame(s.db, Enroll(s.db, plans, user, s.clock));
    case Some(job) =>
      var at :| s.clock <= at <= t.clock && RestOfCommit(plans, s.db, job, at, at, t.clock, e);
      assert t.db == OrSame(s.db, Enroll(s.db, plans, user, at));
  }

  /** Every uninterrupted `subscribe` ends with the effect of the sequential function at some reading of the call. */
  lemma SoloSubscribe(plans: Catalogue, s: State, w: nat, user: UserId, slug: string, es: seq<Event>, t: State)
    requires RunsAlone(plans, s, w, CallSubscribe(user, slug), es, t)
    ensures t.workers == s.workers && t.returned == s.returned
    ensures exists at :: s.clock <= at <= t.clock && t.db == OrSame(s.db, Subscribe(s.db, plans, user, slug, at, at))
  {
    hide Run, Subscribe;
    CallRefines(plans, s, w, CallSubscribe(user, slug), es, t);
  }

  /** Every uninterrupted `cancel` ends with the effect of the sequential function at some reading of the call. */
  lemma SoloCancel(plans: Catalogue, s: State, w: nat, user: UserId, es: seq<Event>, t: State)
    requires RunsAlone(plans, s, w, CallCancel(user), es, t)
    ensures t.workers == s.workers && t.returned == s.returned
    ensures exists at :: s.clock <= at <= t.clock && t.db == OrSame(s.db, Cancel(s.db, plans, user, at, at))
  {
    hide Run, Cancel;
    CallRefines(plans, s, w, CallCancel(user), es, t);
  }

  /** Every uninterrupted `record_request` ends with the effect of the sequential function at three readings of the call. */
  lemma SoloRecord(plans: Catalogue, s: State, w: nat, user: UserId, es: seq<Event>, t: State)
    requires RunsAlone(plans, s, w, CallRecord(user), es, t)
    ensures t.workers == s.workers && t.returned == s.returned
    ensures exists r: Readings :: Timely(r, s.clock, t.clock) && t.db == RecordRequest(s.db, plans, user, r).db
  {
    hide Run, RecordRequest;
    CallRefines(plans, s, w, CallRecord(user), es, t);
  }

  /**
   Every uninterrupted sweep ends with the effect of the sequential function, `now` being the reading at
   its start and the rows' readings following in the order of the rows, and returns exactly its count.
  */
  lemma SoloSweep(plans: Catalogue, s: State, w: nat, es: seq<Event>, t: State)
    requires RunsAlone(plans, s, w, CallSweep, es, t)
    ensures t.workers == s.workers
    ensures exists at: nat -> Instant ::
              && InOrder(at, DueRows(s.db.subs, s.clock), s.clock, t.clock)
              && t.db == Sweep(s.db, plans, s.clock, at).db
              && t.returned == s.returned + [Sweep(s.db, plans, s.clock, at).affected]
  {
    hide Run, DueRows, SweepRows, InOrder;
    CallRefines(plans, s, w, CallSweep, es, t);
    var rows := DueRows(s.db.subs, s.clock);
    assert NoRepeats(rows) && InTable(rows, s.db);
    var e := Ending(t.db, t.returned[|s.returned|..]);
    var at: nat -> Instant :|
      && InOrder(at, rows, s.clock, t.clock)
      && e == Ending(SweepRows(s.db, plans, rows, 0, at).db, [0 + SweepRows(s.db, plans, rows, 0, at).affected]);
    assert t.returned == s.returned + e.returned;
    assert t.db == Sweep(s.db, plans, s.clock, at).db;
  }
}
