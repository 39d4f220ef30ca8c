/** Over whole interleaved runs: status changes happen once, sweep counts add up, live quotas are unique. */
module StatusHistory {
  import opened Calendar
  import opened Subscriptions
  import opened SubscriptionLaws
  import opened ConcurrentBilling
  import opened ConcurrentLaws
  import opened Sums

  ghost predicate HasLeft(s: State, row: nat) {
    row < |s.db.subs| && s.db.subs[row].status != Active
  }

  /** How many events of the run took the row out of ACTIVE. */
  ghost function Departures(plans: Catalogue, s: State, es: seq<Event>, row: nat): nat {
    if es == [] then 0
    else
      var n := |es| - 1;
      var before, after := Run(plans, s, es[..n]), Run(plans, s, es);
      Departures(plans, s, es[..n], row)
      + if row < |before.db.subs| && !HasLeft(before, row) && HasLeft(after, row) then 1 else 0
  }

  /** Rows are born ACTIVE, so a row has left exactly as often as its present status says: once or never. */
  lemma {:induction false} LeavesOnce(plans: Catalogue, workers: nat, clock: Instant, es: seq<Event>, row: nat)
    ensures var s := Initial(workers, clock);
            Departures(plans, s, es, row) == if HasLeft(Run(plans, s, es), row) then 1 else 0
  {
    hide Sound, Apply, HasLeft;
    var s := Initial(workers, clock);
    if es == [] {
      NothingLeft(workers, clock, row);
    } else {
      var n := |es| - 1;
      var before := Run(plans, s, es[..n]);
      LeavesOnce(plans, workers, clock, es[..n], row);
      InitialSound(workers, clock);
      RunSound(plans, s, es[..n]);
      RowStep(plans, before, es[n], row);
    }
  }

  lemma NothingLeft(workers: nat, clock: Instant, row: nat)
    ensures !HasLeft(Initial(workers, clock), row)
  {
  }

  lemma RowStep(plans: Catalogue, s: State, e: Event, row: nat)
    requires Sound(s)
    ensures HasLeft(s, row) ==> HasLeft(Apply(plans, s, e), row)
    ensures |s.db.subs| <= row ==> !HasLeft(Apply(plans, s, e), row)
  {
    hide Sound, Apply;
    ApplySound(plans, s, e);
    if |s.db.subs| <= row < |Apply(plans, s, e).db.subs| {
      BornActive(plans, s, e, row);
    }
  }

  lemma BornActive(plans: Catalogue, s: State, e: Event, row: nat)
    requires Sound(s) && |s.db.subs| <= row < |Apply(plans, s, e).db.subs|
    ensures Apply(plans, s, e).db.subs[row].status == Active
  {
    hide PerpetualEnd, PeriodEnd, WindowsOk;
  }

  /** A CANCELED or EXPIRED row is the same row, in every column, at every later point of the run. */
  lemma FinalRowsStay(plans: Catalogue, workers: nat, clock: Instant, es: seq<Event>, fs: seq<Event>, row: nat)
    requires HasLeft(Run(plans, Initial(workers, clock), es), row)
    ensures var s := Initial(workers, clock);
            && row < |Run(plans, s, es + fs).db.subs|
            && Run(plans, s, es + fs).db.subs[row] == Run(plans, s, es).db.subs[row]
  {
    var s := Initial(workers, clock);
    InitialSound(workers, clock);
    RunSound(plans, s, es);
    RunAppend(plans, s, es, fs);
    RunSound(plans, Run(plans, s, es), fs);
  }

  /** In every reachable state each user with a row has exactly one ACTIVE row, and EXPIRED rows were due. */
  lemma OneActiveAlways(plans: Catalogue, workers: nat, clock: Instant, es: seq<Event>)
    ensures var s := Run(plans, Initial(workers, clock), es);
            && OneActive(s.db.subs) && Covered(s.db.subs)
            && (forall i :: 0 <= i < |s.db.subs| ==> RowOk(s.db.subs[i]))
            && (forall i :: 0 <= i < |s.db.subs| && s.db.subs[i].status == Expired ==>
                  PastDueBy(s.db.subs[i], s.clock))
  {
    hide RowOk;
    InitialSound(workers, clock);
    RunSound(plans, Initial(workers, clock), es);
  }

  // ---- One live quota ------------------------------------------------------------------------

  ghost predicate OnlyQuota(db: Db, sub: nat, q: nat) {
    && q < |db.quotas| && db.quotas[q].sub == sub
    && forall r :: 0 <= r < |db.quotas| && db.quotas[r].sub == sub ==> r == q
  }

  /**
   In every reachable state a subscription is reported live exactly while it is ACTIVE and, when it
   expires at all, less than its plan's days have passed since it began.
  */
  lemma LiveExactly(plans: Catalogue, workers: nat, clock: Instant, es: seq<Event>, sub: nat, now: Instant)
    requires sub < |Run(plans, Initial(workers, clock), es).db.subs|
    ensures var row := Run(plans, Initial(workers, clock), es).db.subs[sub];
            row.IsActive(now) <==>
            row.status == Active && (row.expiresAt.Some? ==> now < row.startedAt + row.plan.durationDays * DAY)
  {
    InitialSound(workers, clock);
    RunSound(plans, Initial(workers, clock), es);
    assert RowOk(Run(plans, Initial(workers, clock), es).db.subs[sub]);
  }

  /** The row's only quota row is current. */
  ghost predicate OneCurrentQuota(db: Db, sub: nat, now: Instant) {
    exists q: nat :: OnlyQuota(db, sub, q) && db.quotas[q].Contains(now)
  }

  /**
   A subscription that `is_active` reports live has one quota row, and that row is current, exactly
   until its opening window ends: for a live expiring one always, for the others fifty years.
  */
  lemma LiveHasOneQuota(plans: Catalogue, workers: nat, clock: Instant, es: seq<Event>, sub: nat)
    requires var s := Run(plans, Initial(workers, clock), es);
             sub < |s.db.subs| && s.db.subs[sub].IsActive(s.clock)
    ensures var s := Run(plans, Initial(workers, clock), es);
            var row := s.db.subs[sub];
            && OpeningEnd(row).Some?
            && (OneCurrentQuota(s.db, sub, s.clock) <==> s.clock < OpeningEnd(row).value)
            && (row.expiresAt.Some? ==> s.clock < OpeningEnd(row).value)
            && (row.expiresAt.None? ==> row.startedAt + 18_261 * DAY <= OpeningEnd(row).value)
  {
    hide OneCurrentQuota;
    var s := Run(plans, Initial(workers, clock), es);
    InitialSound(workers, clock);
    RunSound(plans, Initial(workers, clock), es);
    PerpetualWindow(s.db.subs[sub].startedAt);
    OnlyOpening(s.db, s.clock, sub);
  }

  lemma OnlyOpening(db: Db, clock: Instant, sub: nat)
    requires DbSound(db, clock) && sub < |db.subs|
    ensures OpeningEnd(db.subs[sub]).Some?
    ensures OneCurrentQuota(db, sub, clock) <==> clock < OpeningEnd(db.subs[sub]).value
  {
    hide OpeningEnd, PeriodEnd, OneActive, Covered;
    assert RowOk(db.subs[sub]) && HasOpening(db, sub);
    var q :| 0 <= q < |db.quotas| && db.quotas[q].sub == sub && IsOpening(db, q);
    if clock < OpeningEnd(db.subs[sub]).value {
      forall r | 0 <= r < |db.quotas| && db.quotas[r].sub == sub
        ensures r == q
      {
        assert IsOpening(db, r) || IsRotation(db, r);
        assert IsOpening(db, r) ==> db.quotas[r].periodStart == db.quotas[q].periodStart;
      }
      assert OnlyQuota(db, sub, q) && db.quotas[q].Contains(clock);
    } else {
      assert !db.quotas[q].Contains(clock);
    }
  }

  /** A second window of a subscription exists only once its opening window is over. */
  lemma RotationComesAfter(plans: Catalogue, workers: nat, clock: Instant, es: seq<Event>, q: nat, r: nat)
    requires var s := Run(plans, Initial(workers, clock), es);
             q < r < |s.db.quotas| && s.db.quotas[q].sub == s.db.quotas[r].sub < |s.db.subs|
    ensures var s := Run(plans, Initial(workers, clock), es);
            OpeningOver(s.db.subs[s.db.quotas[q].sub], s.clock)
  {
    InitialSound(workers, clock);
    RunSound(plans, Initial(workers, clock), es);
    var s := Run(plans, Initial(workers, clock), es);
    assert IsRotation(s.db, q) || IsRotation(s.db, r);
  }

  // ---- Sweep counts --------------------------------------------------------------------------

  function CarriedBy(pc: Pc): nat {
    match pc
    case NextRow(_, affected) => affected
    case Stamp(job) => if job.next.GoSweep? then job.next.affected else 0
    case Commit(job, _) => if job.next.GoSweep? then job.next.affected else 0
    case _ => 0
  }

  const Carried: Pc -> nat := (pc: Pc) => CarriedBy(pc)
  const Itself: nat -> nat := (n: nat) => n
  const ExpiredOne: Subscription -> nat := (s: Subscription) => if s.status == Expired then 1 else 0

  /** Rows expired so far: counted in results already returned, or in the loops still running. */
  ghost predicate CountsAgree(s: State) {
    Total(s.db.subs, ExpiredOne) == Total(s.returned, Itself) + Total(s.workers, Carried)
  }

  lemma ApplyCounts(plans: Catalogue, s: State, e: Event)
    requires Sound(s) && CountsAgree(s)
    ensures CountsAgree(Apply(plans, s, e))
  {
    hide Sound, Act, Start, OnFault, Total;
    var t := Apply(plans, s, e);
    match e
    case Tick(_) =>
    case Begin(w, call) =>
      if w < |s.workers| && s.workers[w].Idle? {
        StartCarries(plans, s.clock, call);
        TotalUpdate(s.workers, w, Start(plans, s.clock, call), Carried);
      }
    case Step(w) =>
      if w < |s.workers| && Fits(s.db, s.workers[w]) {
        var (pc, effect) := Act(plans, s.db, s.clock, s.workers[w]);
        SoundWorker(s, w);
        ActSound(plans, s.db, s.clock, s.workers[w]);
        StepCounts(plans, s.db, s.clock, s.workers[w]);
        TotalUpdate(s.workers, w, pc, Carried);
        if effect.Returned? {
          TotalAppend(s.returned, effect.affected, Itself);
        }
      }
    case Fault(w) =>
      if w < |s.workers| {
        FaultCarries(s.workers[w]);
        TotalUpdate(s.workers, w, OnFault(s.workers[w]), Carried);
      }
  }

  lemma SoundWorker(s: State, w: nat)
    requires Sound(s) && w < |s.workers|
    ensures DbSound(s.db, s.clock) && PcSound(s.db, s.clock, s.workers[w])
  {
  }

  lemma StartCarries(plans: Catalogue, clock: Instant, call: Call)
    ensures CarriedBy(Start(plans, clock, call)) == 0
  {
  }

  lemma FaultCarries(pc: Pc)
    ensures CarriedBy(OnFault(pc)) == CarriedBy(pc)
  {
  }

  /** One step expires exactly as many rows as it adds to what the worker carries or returns. */
  lemma StepCounts(plans: Catalogue, db: Db, clock: Instant, pc: Pc)
    requires DbSound(db, clock) && PcSound(db, clock, pc)
    ensures var (next, e) := Act(plans, db, clock, pc);
            && (e.Counted? ==> e.quota < |db.quotas|)
            && Total(EffectDb(db, e).subs, ExpiredOne) + CarriedBy(pc)
               == Total(db.subs, ExpiredOne) + CarriedBy(next) + (if e.Returned? then e.affected else 0)
  {
    hide PerpetualEnd, PeriodEnd, OneActive, Covered, WindowsOk, Total;
    match pc
    case Commit(job, at) =>
      if Transact(db, Retiring(job.retire, at), job.user, job.plan, job.expires, at).Ok? {
        CommitCounts(db, clock, job, at);
      }
    case _ =>
  }

  lemma CommitCounts(db: Db, clock: Instant, job: Job, at: Instant)
    requires DbSound(db, clock) && JobSound(db, clock, job)
    requires Transact(db, Retiring(job.retire, at), job.user, job.plan, job.expires, at).Ok?
    ensures var after := Transact(db, Retiring(job.retire, at), job.user, job.plan, job.expires, at).value;
            Total(after.subs, ExpiredOne) == Total(db.subs, ExpiredOne) + (if job.next.GoSweep? then 1 else 0)
  {
    hide PerpetualEnd, PeriodEnd, WindowsOk, Total;
    var r := Retiring(job.retire, at);
    Committed(db, r, job.user, job.plan, job.expires, at);
    var after := Transact(db, r, job.user, job.plan, job.expires, at).value.subs;
    var n := |db.subs|;
    assert after == Retire(db.subs, r) + [after[n]];
    TotalAppend(Retire(db.subs, r), after[n], ExpiredOne);
    if !r.Nothing? {
      RetiredRow(db.subs, r);
      TotalUpdate(db.subs, r.row, Retire(db.subs, r)[r.row], ExpiredOne);
    }
  }

  /** Whenever no sweep is under way, the counts the sweeps returned sum to the rows expired. */
  lemma SweepCountsSum(plans: Catalogue, workers: nat, clock: Instant, es: seq<Event>)
    requires var s := Run(plans, Initial(workers, clock), es);
             forall w :: 0 <= w < |s.workers| ==> CarriedBy(s.workers[w]) == 0
    ensures var s := Run(plans, Initial(workers, clock), es);
            Total(s.returned, Itself) == Total(s.db.subs, ExpiredOne)
  {
    CountsAgreeAlways(plans, workers, clock, es);
    forall w | 0 <= w < |Run(plans, Initial(workers, clock), es).workers|
      ensures Carried(Run(plans, Initial(workers, clock), es).workers[w]) == 0
    {
      assert CarriedBy(Run(plans, Initial(workers, clock), es).workers[w]) == 0;
    }
    TotalZero(Run(plans, Initial(workers, clock), es).workers, Carried);
  }

  lemma {:induction false} CountsAgreeAlways(plans: Catalogue, workers: nat, clock: Instant, es: seq<Event>)
    ensures CountsAgree(Run(plans, Initial(workers, clock), es))
  {
    if es == [] {
      TotalZero(Initial(workers, clock).workers, Carried);
    } else {
      var n := |es| - 1;
      CountsAgreeAlways(plans, workers, clock, es[..n]);
      InitialSound(workers, clock);
      RunSound(plans, Initial(workers, clock), es[..n]);
      ApplyCounts(plans, Run(plans, Initial(workers, clock), es[..n]), es[n]);
    }
  }
}
