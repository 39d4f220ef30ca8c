/** The overshoot bound is exact: some interleaving of N workers ends at limit + N - 1. */
module OvershootReached {
  import opened Wrappers
  import opened Calendar
  import opened Subscriptions
  import opened ConcurrentBilling
  import opened Reachability
  import opened SoloRuns
  import opened SoloChoices

  /** One live subscription whose quota stands at `used`; the first `poised` workers have passed the check. */
  ghost predicate Stands(s: State, user: UserId, plan: Plan, used: nat, poised: nat) {
    && Tables(s, user, plan, used)
    && poised <= |s.workers|
    && (forall w :: 0 <= w < poised ==> s.workers[w] == Increment(0, s.clock))
    && (forall w :: poised <= w < |s.workers| ==> s.workers[w].Idle?)
  }

  predicate Tables(s: State, user: UserId, plan: Plan, used: nat) {
    && |s.db.subs| == 1 && ActiveFor(s.db.subs[0], user) && s.db.subs[0].plan == plan
    && |s.db.quotas| == 1 && Current(s.db.quotas[0], 0, s.clock) && s.db.quotas[0].requestsUsed == used
  }

  /** What each step of a request computes on the tables as they stand. */
  lemma RequestSteps(plans: Catalogue, s: State, user: UserId, plan: Plan, used: nat)
    requires Tables(s, user, plan, used) && used < plan.requestQuota
    ensures Act(plans, s.db, s.clock, ReadForRecord(user)) == (ClockForQuota(0), Quiet)
    ensures Act(plans, s.db, s.clock, ClockForQuota(0)) == (QueryQuota(0, s.clock), Quiet)
    ensures Act(plans, s.db, s.clock, QueryQuota(0, s.clock)) == (CheckLimit(0, used, s.clock), Quiet)
    ensures Act(plans, s.db, s.clock, CheckLimit(0, used, s.clock)) == (Increment(0, s.clock), Quiet)
  {
    assert ActiveRow(s.db.subs, user) == Some(0);
    assert CurrentQuota(s.db.quotas, 0, s.clock) == Some(0);
  }

  lemma MovesTo(plans: Catalogue, s: State, m: State, w: nat, pc: Pc)
    requires w < |m.workers| && Reaches(plans, s, m, Anything)
    requires Fits(m.db, m.workers[w]) && Act(plans, m.db, m.clock, m.workers[w]) == (pc, Quiet)
    ensures Reaches(plans, s, At(m, w, pc), Anything)
  {
    hide Reaches, Act;
    Moves(plans, m, w, pc, Anything);
    ThenReaches(plans, s, m, At(m, w, pc), Anything);
  }

  /** A worker goes from idle past the limit check while the count is below the limit. */
  lemma Poise(plans: Catalogue, s: State, user: UserId, plan: Plan, used: nat, w: nat)
    requires Tables(s, user, plan, used) && w < |s.workers| && s.workers[w].Idle? && used < plan.requestQuota
    ensures Reaches(plans, s, At(s, w, Increment(0, s.clock)), Anything)
  {
    hide Reaches, Act;
    RequestSteps(plans, s, user, plan, used);
    OneEvent(plans, s, Begin(w, CallRecord(user)), Anything);
    assert Apply(plans, s, Begin(w, CallRecord(user))) == At(s, w, ReadForRecord(user));
    MovesTo(plans, s, At(s, w, ReadForRecord(user)), w, ClockForQuota(0));
    assert At(At(s, w, ReadForRecord(user)), w, ClockForQuota(0)) == At(s, w, ClockForQuota(0));
    MovesTo(plans, s, At(s, w, ClockForQuota(0)), w, QueryQuota(0, s.clock));
    assert At(At(s, w, ClockForQuota(0)), w, QueryQuota(0, s.clock)) == At(s, w, QueryQuota(0, s.clock));
    MovesTo(plans, s, At(s, w, QueryQuota(0, s.clock)), w, CheckLimit(0, used, s.clock));
    assert At(At(s, w, QueryQuota(0, s.clock)), w, CheckLimit(0, used, s.clock)) == At(s, w, CheckLimit(0, used, s.clock));
    MovesTo(plans, s, At(s, w, CheckLimit(0, used, s.clock)), w, Increment(0, s.clock));
    assert At(At(s, w, CheckLimit(0, used, s.clock)), w, Increment(0, s.clock)) == At(s, w, Increment(0, s.clock));
  }

  lemma Fire(plans: Catalogue, s: State, user: UserId, plan: Plan, used: nat, w: nat) returns (t: State)
    requires Stands(s, user, plan, used, w + 1)
    ensures Reaches(plans, s, t, Anything) && Stands(t, user, plan, used + 1, w) && |t.workers| == |s.workers|
  {
    hide Reaches;
    t := Advance(plans, s, w);
    Steps(plans, s, w, Anything);
  }

  lemma {:induction false} PoiseAll(plans: Catalogue, s: State, user: UserId, plan: Plan, used: nat, n: nat)
    returns (t: State)
    requires Stands(s, user, plan, used, 0) && n <= |s.workers| && used < plan.requestQuota
    ensures Reaches(plans, s, t, Anything) && Stands(t, user, plan, used, n) && |t.workers| == |s.workers|
  {
    hide Reaches;
    if n == 0 {
      t := s;
      Stays(plans, s, Anything);
    } else {
      var before := PoiseAll(plans, s, user, plan, used, n - 1);
      Poise(plans, before, user, plan, used, n - 1);
      t := At(before, n - 1, Increment(0, before.clock));
      ThenReaches(plans, s, before, t, Anything);
    }
  }

  lemma {:induction false} FireAll(plans: Catalogue, s: State, user: UserId, plan: Plan, used: nat, n: nat)
    returns (t: State)
    requires Stands(s, user, plan, used, n)
    ensures Reaches(plans, s, t, Anything) && Stands(t, user, plan, used + n, 0) && |t.workers| == |s.workers|
    decreases n
  {
    hide Reaches, Stands;
    if n == 0 {
      t := s;
      Stays(plans, s, Anything);
    } else {
      var first := Fire(plans, s, user, plan, used, n - 1);
      t := FireAll(plans, first, user, plan, used + 1, n - 1);
      ThenReaches(plans, s, first, t, Anything);
    }
  }

  /** Uncontended requests bring the count to any value up to the limit. */
  lemma {:induction false} Fill(plans: Catalogue, s: State, user: UserId, plan: Plan, used: nat) returns (t: State)
    requires Stands(s, user, plan, 0, 0) && |s.workers| > 0 && used <= plan.requestQuota
    ensures Reaches(plans, s, t, Anything) && Stands(t, user, plan, used, 0) && |t.workers| == |s.workers|
    decreases used
  {
    hide Reaches, Stands;
    if used == 0 {
      t := s;
      Stays(plans, s, Anything);
    } else {
      var before := Fill(plans, s, user, plan, used - 1);
      var poised := PoiseAll(plans, before, user, plan, used - 1, 1);
      ThenReaches(plans, s, before, poised, Anything);
      t := FireAll(plans, poised, user, plan, used - 1, 1);
      ThenReaches(plans, s, poised, t, Anything);
    }
  }

  /** Wait for a day on which the plan can be opened, then subscribe. */
  lemma Open(plans: Catalogue, workers: nat, clock: Instant, user: UserId, slug: string, plan: Plan) returns (t: State)
    requires workers > 0 && GetPlanBySlug(plans, slug) == Some(plan)
    ensures Reaches(plans, Initial(workers, clock), t, Anything) && Stands(t, user, plan, 0, 0) && |t.workers| == workers
  {
    hide Reaches, Stands, IsLeapDay;
    var s := Initial(workers, clock);
    var s1 := s.(clock := if IsLeapDay(clock) then clock + DAY else clock);
    if IsLeapDay(clock) {
      LeapDayPasses(clock);
    }
    Wait(plans, s, s1.clock, Anything);
    t := OpenNow(plans, s1, user, slug, plan);
    ThenReaches(plans, s, s1, t, Anything);
  }

  lemma OpenNow(plans: Catalogue, s: State, user: UserId, slug: string, plan: Plan) returns (t: State)
    requires |s.workers| > 0 && s == Initial(|s.workers|, s.clock) && !IsLeapDay(s.clock)
    requires GetPlanBySlug(plans, slug) == Some(plan)
    ensures Reaches(plans, s, t, Anything) && Stands(t, user, plan, 0, 0) && |t.workers| == |s.workers|
  {
    hide Transact, IsLeapDay, Run, Rest;
    FirstCommit(user, plan, s.clock);
    SubscribeCanEnd(plans, s, 0, user, slug, s.clock);
    var db := Transact(Db([], []), Nothing, user, plan, plan.durationDays > 0, s.clock).value;
    assert ActiveRow(s.db.subs, user) == None;
    assert Subscribe(s.db, plans, user, slug, s.clock, s.clock) == Ok(db);
    var es: seq<Event>, last: State :|
      && RunsAlone(plans, s, 0, CallSubscribe(user, slug), es, last)
      && last.db == db && last.returned == s.returned && last.clock <= s.clock;
    t := last;
    CallRefines(plans, s, 0, CallSubscribe(user, slug), es, t);
    assert AllOf([Begin(0, CallSubscribe(user, slug))] + es, Anything);
  }

  lemma FirstCommit(user: UserId, plan: Plan, start: Instant)
    requires !IsLeapDay(start)
    ensures var res := Transact(Db([], []), Nothing, user, plan, plan.durationDays > 0, start);
            && res.Ok? && |res.value.subs| == 1 && |res.value.quotas| == 1
            && ActiveFor(res.value.subs[0], user) && res.value.subs[0].plan == plan
            && Current(res.value.quotas[0], 0, start) && res.value.quotas[0].requestsUsed == 0
  {
    PerpetualWindow(start);
  }

  /** For every number of workers and every positive limit, some run overshoots by exactly N - 1. */
  lemma BoundIsReached(plans: Catalogue, workers: nat, clock: Instant, user: UserId, slug: string)
    requires workers > 0 && GetPlanBySlug(plans, slug).Some?
    requires GetPlanBySlug(plans, slug).value.requestQuota > 0
    ensures exists es: seq<Event> ::
              var db := Run(plans, Initial(workers, clock), es).db;
              && |db.subs| == |db.quotas| == 1 && db.quotas[0].sub == 0 && db.subs[0].plan == plans[slug]
              && db.quotas[0].requestsUsed == plans[slug].requestQuota + workers - 1
  {
    hide Stands, Run, IsLeapDay;
    var plan := GetPlanBySlug(plans, slug).value;
    var s := Initial(workers, clock);
    var used := plan.requestQuota - 1;
    var begun := Open(plans, workers, clock, user, slug, plan);
    var filled := Fill(plans, begun, user, plan, used);
    ThenReaches(plans, s, begun, filled, Anything);
    var poised := PoiseAll(plans, filled, user, plan, used, workers);
    ThenReaches(plans, s, filled, poised, Anything);
    var over := FireAll(plans, poised, user, plan, used, workers);
    ThenReaches(plans, s, poised, over, Anything);
    var es: seq<Event> :| AllOf(es, Anything) && Run(plans, s, es) == over;
    StandsAt(over, user, plan, used + workers);
  }

  lemma StandsAt(s: State, user: UserId, plan: Plan, used: nat)
    requires Stands(s, user, plan, used, 0)
    ensures |s.db.subs| == |s.db.quotas| == 1 && s.db.quotas[0].sub == 0 && s.db.subs[0].plan == plan
    ensures s.db.quotas[0].requestsUsed == used
  {
  }
}
