/**
 What N workers can do to a quota: no increment is lost, the stale check lets at most N - 1 requests
 past the limit, at most N windows overlap, and a bounded number of requests fits in any interval.
*/
module QuotaBounds {
  import opened Calendar
  import opened Subscriptions
  import opened SubscriptionLaws
  import opened ConcurrentBilling
  import opened ConcurrentLaws
  import opened Sums

  // ---- No lost updates -----------------------------------------------------------------------

  function OnQuota(q: nat): Accept -> nat {
    (a: Accept) => if a.quota == q then 1 else 0
  }

  /** A quota's count is the number of increment steps taken on it, each dated inside its window. */
  ghost predicate LogSound(db: Db, log: seq<Accept>) {
    && (forall q :: 0 <= q < |db.quotas| ==> db.quotas[q].requestsUsed == Total(log, OnQuota(q)))
    && (forall k :: 0 <= k < |log| ==> log[k].quota < |db.quotas| && db.quotas[log[k].quota].Contains(log[k].at))
  }

  /** Windows stay as they were and the counts of old rows too; new rows start from zero. */
  ghost predicate QuotasAppended(db: Db, after: Db) {
    && |db.quotas| <= |after.quotas|
    && (forall q :: 0 <= q < |db.quotas| ==> after.quotas[q] == db.quotas[q])
    && (forall q :: |db.quotas| <= q < |after.quotas| ==> after.quotas[q].requestsUsed == 0)
  }

  lemma LogCarries(db: Db, after: Db, log: seq<Accept>)
    requires LogSound(db, log) && QuotasAppended(db, after)
    ensures LogSound(after, log)
  {
    forall q | |db.quotas| <= q < |after.quotas|
      ensures Total(log, OnQuota(q)) == 0
    {
      TotalZero(log, OnQuota(q));
    }
  }

  lemma LogCounts(db: Db, log: seq<Accept>, e: Accept)
    requires LogSound(db, log) && e.quota < |db.quotas| && db.quotas[e.quota].Contains(e.at)
    ensures LogSound(Bump(db, e.quota), log + [e])
  {
    hide Total;
    var after := Bump(db, e.quota);
    forall r | 0 <= r < |after.quotas|
      ensures after.quotas[r].requestsUsed == Total(log + [e], OnQuota(r))
    {
      TotalAppend(log, e, OnQuota(r));
    }
  }

  // ---- The stale check -----------------------------------------------------------------------

  /** A worker that has seen the count below the limit and has not yet incremented. */
  predicate Hot(pc: Pc, q: nat, limit: nat) {
    || (pc.CheckLimit? && pc.quota == q && pc.used < limit)
    || (pc.Increment? && pc.quota == q)
  }

  function HotOn(q: nat, limit: nat): Pc -> nat {
    (pc: Pc) => if Hot(pc, q, limit) then 1 else 0
  }

  ghost predicate WithinAllowance(db: Db, workers: seq<Pc>, q: nat)
    requires q < |db.quotas|
  {
    var limit := Limit(db, q);
    limit > 0 ==> db.quotas[q].requestsUsed + Total(workers, HotOn(q, limit)) <= limit - 1 + |workers|
  }

  ghost predicate AllWithinAllowance(db: Db, workers: seq<Pc>) {
    forall q :: 0 <= q < |db.quotas| ==> WithinAllowance(db, workers, q)
  }

  /** A worker joins the hot ones only from a count below the limit, when there is room for all N. */
  lemma HotChange(db: Db, workers: seq<Pc>, w: nat, pc: Pc, after: Db, q: nat)
    requires w < |workers| && q < |db.quotas| && q < |after.quotas| && WithinAllowance(db, workers, q)
    requires Limit(after, q) == Limit(db, q)
    requires var limit := Limit(db, q);
             limit == 0 ||
             var used, used' := db.quotas[q].requestsUsed, after.quotas[q].requestsUsed;
             || used' < limit
             || (used' == used && (Hot(pc, q, limit) ==> Hot(workers[w], q, limit)))
             || (used' == used + 1 && Hot(workers[w], q, limit) && !Hot(pc, q, limit))
    ensures WithinAllowance(after, workers[w := pc], q)
  {
    var f := HotOn(q, Limit(db, q));
    TotalUpdate(workers, w, pc, f);
    TotalAtMost(workers[w := pc], f, 1);
  }

  // ---- Windows by maker ----------------------------------------------------------------------

  predicate Mine(s: State, q: nat, w: nat, sub: nat)
    requires q < |s.db.quotas| && |s.makers| == |s.db.quotas|
  {
    s.makers[q] == By(w) && s.db.quotas[q].sub == sub
  }

  /** The windows a worker has opened for the subscription are behind the reading it works with. */
  ghost predicate SeesOwn(s: State, w: nat)
    requires w < |s.workers| && |s.makers| == |s.db.quotas|
  {
    match s.workers[w]
    case QueryQuota(sub, now) =>
      forall q :: 0 <= q < |s.db.quotas| && Mine(s, q, w, sub) ==> s.db.quotas[q].periodStart <= now
    case ClockForWindow(sub) =>
      forall q :: 0 <= q < |s.db.quotas| && Mine(s, q, w, sub) ==> s.db.quotas[q].periodEnd <= s.clock
    case OpenWindow(sub, start) =>
      forall q :: 0 <= q < |s.db.quotas| && Mine(s, q, w, sub) ==> s.db.quotas[q].periodEnd <= start
    case _ => true
  }

  /** Windows that one worker opened for one subscription follow one another. */
  ghost predicate OwnDisjoint(s: State)
    requires |s.makers| == |s.db.quotas|
  {
    forall q, r :: 0 <= q < r < |s.db.quotas| && s.db.quotas[q].sub == s.db.quotas[r].sub
                   && s.makers[q] == s.makers[r] && s.makers[q].By? ==>
                     s.db.quotas[q].periodEnd <= s.db.quotas[r].periodStart
  }

  ghost predicate MakersSound(s: State)
    requires Sound(s)
  {
    && |s.makers| == |s.db.quotas|
    && (forall q :: 0 <= q < |s.makers| ==> (s.makers[q].Opening? <==> IsOpening(s.db, q)))
    && (forall q :: 0 <= q < |s.makers| && s.makers[q].By? ==> s.makers[q].worker < |s.workers|)
    && OwnDisjoint(s)
    && (forall w :: 0 <= w < |s.workers| ==> SeesOwn(s, w))
  }

  // ---- The invariant -------------------------------------------------------------------------

  ghost predicate Metered(s: State) {
    && Sound(s) && MakersSound(s)
    && LogSound(s.db, s.log)
    && AllWithinAllowance(s.db, s.workers)
  }

  /** Only the rotation step moves a worker's knowledge of its own windows forward. */
  lemma OwnSeen(s: State, t: State, w: nat)
    requires Sound(s) && Sound(t) && MakersSound(s) && w < |s.workers| == |t.workers|
    requires Grows(s.db, t.db) && s.clock <= t.clock && |t.makers| == |t.db.quotas|
    requires t.workers[w] == s.workers[w]
    requires forall q :: 0 <= q < |s.db.quotas| ==> t.makers[q] == s.makers[q]
    requires forall q :: |s.db.quotas| <= q < |t.db.quotas| ==> t.makers[q] != By(w)
    ensures SeesOwn(t, w)
  {
    hide Sound, IsOpening;
    forall q | 0 <= q < |s.db.quotas|
      ensures SameWindow(s.db.quotas[q], t.db.quotas[q])
    {
    }
    assert SeesOwn(s, w);
  }

  lemma OpeningsStay(db: Db, after: Db)
    requires WindowsOk(db) && WindowsOk(after) && Extends(db, after)
    ensures forall q :: 0 <= q < |db.quotas| ==> IsOpening(db, q) == IsOpening(after, q)
  {
    hide IsOpening, IsRotation, RowOk;
    WindowsCarryOver(db, after);
  }

  /** The worker that steps has seen every window it opened itself. */
  lemma OwnAdvanced(plans: Catalogue, s: State, w: nat)
    requires Metered(s) && w < |s.workers| && Fits(s.db, s.workers[w])
    requires !s.workers[w].Commit? && !s.workers[w].OpenWindow? && !s.workers[w].Increment?
    ensures var t := Advance(plans, s, w);
            t.db == s.db && t.makers == s.makers && t.log == s.log && t.clock == s.clock && SeesOwn(t, w)
  {
    hide LogSound, AllWithinAllowance, OneActive, Covered, WindowsOk;
    assert PcSound(s.db, s.clock, s.workers[w]) && SeesOwn(s, w);
    match s.workers[w]
    case QueryQuota(sub, now) =>
      assert CurrentQuota(s.db.quotas, sub, now).None? ==>
          forall q :: 0 <= q < |s.db.quotas| && Mine(s, q, w, sub) ==> !Current(s.db.quotas[q], sub, now);
    case _ =>
  }

  lemma QuietMakers(plans: Catalogue, s: State, w: nat)
    requires Metered(s) && w < |s.workers| && Fits(s.db, s.workers[w])
    requires !s.workers[w].Commit? && !s.workers[w].OpenWindow? && !s.workers[w].Increment?
    requires Sound(Advance(plans, s, w)) && Grows(s.db, Advance(plans, s, w).db)
    ensures MakersSound(Advance(plans, s, w))
  {
    hide Sound, LogSound, AllWithinAllowance, Grows, SeesOwn, Act;
    var t := Advance(plans, s, w);
    OwnAdvanced(plans, s, w);
    forall v | 0 <= v < |t.workers|
      ensures SeesOwn(t, v)
    {
      if v != w {
        OwnSeen(s, t, v);
      }
    }
  }

  lemma CommitAppends(plans: Catalogue, s: State, w: nat)
    requires Sound(s) && w < |s.workers| && s.workers[w].Commit?
    ensures var t := Advance(plans, s, w);
            && QuotasAppended(s.db, t.db) && t.log == s.log && t.clock == s.clock
            && (|| (t.db == s.db && t.makers == s.makers)
                || (|t.db.quotas| == |s.db.quotas| + 1 && t.makers == s.makers + [Opening]
                    && IsNewOpening(t.db, |s.db.quotas|)))
            && !Continues(t.workers[w])
  {
    hide OneActive, Covered, WindowsOk, PeriodEnd, PerpetualEnd;
    var job, at := s.workers[w].job, s.workers[w].at;
    assert PcSound(s.db, s.clock, s.workers[w]);
    var res := Transact(s.db, Retiring(job.retire, at), job.user, job.plan, job.expires, at);
    if res.Ok? {
      CommitKeepsWindows(s.db, Retiring(job.retire, at), job.user, job.plan, job.expires, at);
      forall q | 0 <= q < |s.db.quotas|
        ensures res.value.quotas[q] == s.db.quotas[q]
      {
        assert res.value.quotas[q] == res.value.quotas[..|s.db.quotas|][q];
      }
    }
  }

  predicate IsNewOpening(db: Db, q: nat) {
    q < |db.quotas| && db.quotas[q].sub < |db.subs| && IsOpening(db, q)
  }

  lemma CommitMakers(plans: Catalogue, s: State, w: nat)
    requires Metered(s) && w < |s.workers| && s.workers[w].Commit?
    requires Sound(Advance(plans, s, w)) && Grows(s.db, Advance(plans, s, w).db)
    ensures MakersSound(Advance(plans, s, w)) && QuotasAppended(s.db, Advance(plans, s, w).db)
    ensures Advance(plans, s, w).log == s.log
    ensures !Continues(Advance(plans, s, w).workers[w])
  {
    hide LogSound, AllWithinAllowance, SeesOwn, OneActive, Covered, WindowsOk, IsOpening, Act;
    var t := Advance(plans, s, w);
    CommitAppends(plans, s, w);
    OpeningsStay(s.db, t.db);
    forall v | 0 <= v < |t.workers|
      ensures SeesOwn(t, v)
    {
      if v != w {
        OwnSeen(s, t, v);
      } else {
        NothingToSee(t, w);
      }
    }
  }

  /** Steps that rely on the worker's own windows. */
  predicate Continues(pc: Pc) {
    pc.QueryQuota? || pc.ClockForWindow? || pc.OpenWindow?
  }

  lemma NothingToSee(s: State, w: nat)
    requires w < |s.workers| && |s.makers| == |s.db.quotas| && !Continues(s.workers[w])
    ensures SeesOwn(s, w)
  {
  }

  lemma OpenMakers(plans: Catalogue, s: State, w: nat)
    requires Metered(s) && w < |s.workers| && s.workers[w].OpenWindow? && Fits(s.db, s.workers[w])
    requires Sound(Advance(plans, s, w)) && Grows(s.db, Advance(plans, s, w).db)
    ensures MakersSound(Advance(plans, s, w)) && QuotasAppended(s.db, Advance(plans, s, w).db)
    ensures Advance(plans, s, w).log == s.log
  {
    hide LogSound, AllWithinAllowance, OneActive, Covered, WindowsOk, PeriodEnd, PerpetualEnd, OpeningEnd;
    var t := Advance(plans, s, w);
    var sub, start := s.workers[w].sub, s.workers[w].start;
    assert PcSound(s.db, s.clock, s.workers[w]) && SeesOwn(s, w);
    if InsertWindow(s.db, sub, start).Ok? {
      RotationKeepsWindows(s.db, sub, start);
      OpeningsStay(s.db, t.db);
    }
    forall v | 0 <= v < |t.workers|
      ensures SeesOwn(t, v)
    {
      if v != w {
        OwnSeen(s, t, v);
      } else {
        NothingToSee(t, w);
      }
    }
  }

  lemma CountMakers(plans: Catalogue, s: State, w: nat)
    requires Metered(s) && w < |s.workers| && s.workers[w].Increment? && Fits(s.db, s.workers[w])
    requires Sound(Advance(plans, s, w)) && Grows(s.db, Advance(plans, s, w).db)
    ensures MakersSound(Advance(plans, s, w))
  {
    hide LogSound, AllWithinAllowance, OneActive, Covered, WindowsOk, PeriodEnd, PerpetualEnd, OpeningEnd;
    var t := Advance(plans, s, w);
    BumpKeepsWindows(s.db, s.workers[w].quota);
    forall v | 0 <= v < |t.workers|
      ensures SeesOwn(t, v)
    {
      if v != w {
        OwnSeen(s, t, v);
      } else {
        NothingToSee(t, w);
      }
    }
  }

  /** Every row a worker's variables name still has the plan limit it had. */
  lemma LimitFixed(db: Db, after: Db, q: nat)
    requires Grows(db, after) && q < |db.quotas| && db.quotas[q].sub < |db.subs|
    ensures Limit(after, q) == Limit(db, q)
  {
    assert SameWindow(db.quotas[q], after.quotas[q]);
    assert SameContract(db.subs[db.quotas[q].sub], after.subs[db.quotas[q].sub]);
  }

  lemma StepAllowance(plans: Catalogue, s: State, w: nat)
    requires Metered(s) && w < |s.workers| && Fits(s.db, s.workers[w])
    requires Sound(Advance(plans, s, w)) && Grows(s.db, Advance(plans, s, w).db)
    requires s.workers[w].Increment? || QuotasAppended(s.db, Advance(plans, s, w).db)
    ensures AllWithinAllowance(Advance(plans, s, w).db, Advance(plans, s, w).workers)
  {
    hide MakersSound, LogSound, OneActive, Covered, Grows, WindowsOk;
    var t := Advance(plans, s, w);
    forall q | 0 <= q < |t.db.quotas|
      ensures WithinAllowance(t.db, t.workers, q)
    {
      if q < |s.db.quotas| {
        QuotaInRange(s.db, q);
        LimitFixed(s.db, t.db, q);
        StepHot(plans, s, w, q);
        HotChange(s.db, s.workers, w, t.workers[w], t.db, q);
      } else {
        assert t.db.quotas[q].requestsUsed == 0;
        TotalAtMost(t.workers, HotOn(q, Limit(t.db, q)), 1);
      }
    }
  }

  lemma QuotaInRange(db: Db, q: nat)
    requires WindowsOk(db) && q < |db.quotas|
    ensures db.quotas[q].sub < |db.subs|
  {
  }

  lemma StepHot(plans: Catalogue, s: State, w: nat, q: nat)
    requires Sound(s) && w < |s.workers| && Fits(s.db, s.workers[w]) && q < |s.db.quotas|
    requires s.workers[w].Increment? || QuotasAppended(s.db, Advance(plans, s, w).db)
    requires q < |Advance(plans, s, w).db.quotas|
    ensures var limit, pc, t := Limit(s.db, q), s.workers[w], Advance(plans, s, w);
            var used, used' := s.db.quotas[q].requestsUsed, t.db.quotas[q].requestsUsed;
            || used' < limit
            || (used' == used && (Hot(t.workers[w], q, limit) ==> Hot(pc, q, limit)))
            || (used' == used + 1 && Hot(pc, q, limit) && !Hot(t.workers[w], q, limit))
            || limit == 0
  {
    hide OneActive, Covered, WindowsOk, Transact;
    assert PcSound(s.db, s.clock, s.workers[w]);
  }

  lemma StepMetered(plans: Catalogue, s: State, w: nat)
    requires Metered(s) && w < |s.workers| && Fits(s.db, s.workers[w])
    requires Sound(Advance(plans, s, w)) && Grows(s.db, Advance(plans, s, w).db)
    ensures Metered(Advance(plans, s, w))
  {
    hide Sound, MakersSound, LogSound, AllWithinAllowance, Grows, Act;
    var t := Advance(plans, s, w);
    if s.workers[w].Commit? {
      CommitMakers(plans, s, w);
      LogCarries(s.db, t.db, s.log);
    } else if s.workers[w].OpenWindow? {
      OpenMakers(plans, s, w);
      LogCarries(s.db, t.db, s.log);
    } else if s.workers[w].Increment? {
      CountMakers(plans, s, w);
      CountLogged(plans, s, w);
    } else {
      QuietMakers(plans, s, w);
      OwnAdvanced(plans, s, w);
    }
    StepAllowance(plans, s, w);
  }

  lemma CountLogged(plans: Catalogue, s: State, w: nat)
    requires Sound(s) && LogSound(s.db, s.log) && w < |s.workers| && s.workers[w].Increment? && Fits(s.db, s.workers[w])
    ensures LogSound(Advance(plans, s, w).db, Advance(plans, s, w).log)
  {
    hide LogSound, DbSound;
    assert PcSound(s.db, s.clock, s.workers[w]);
    LogCounts(s.db, s.log, Accept(s.workers[w].quota, s.workers[w].at, w, s.clock));
  }

  /** Starting a call or failing in one makes nobody hot and needs no window. */
  lemma ReplaceMetered(s: State, w: nat, pc: Pc)
    requires Metered(s) && w < |s.workers| && Sound(s.(workers := s.workers[w := pc]))
    requires pc == s.workers[w] || (!Continues(pc) && !pc.CheckLimit? && !pc.Increment?)
    ensures Metered(s.(workers := s.workers[w := pc]))
  {
    hide Sound, LogSound;
    var t := s.(workers := s.workers[w := pc]);
    forall v | 0 <= v < |t.workers|
      ensures SeesOwn(t, v)
    {
      assert SeesOwn(s, v);
    }
    forall q | 0 <= q < |t.db.quotas|
      ensures WithinAllowance(t.db, t.workers, q)
    {
      HotChange(s.db, s.workers, w, pc, t.db, q);
    }
  }

  lemma ApplyMetered(plans: Catalogue, s: State, e: Event)
    requires Metered(s)
    ensures Metered(Apply(plans, s, e))
  {
    hide Metered, Sound, Grows, Act;
    var t := Apply(plans, s, e);
    Sounds(s);
    ApplySound(plans, s, e);
    match e
    case Tick(d) => TickMetered(s, d);
    case Begin(w, call) =>
      if w < |s.workers| && s.workers[w].Idle? {
        ReplaceMetered(s, w, Start(plans, s.clock, call));
      }
    case Step(w) =>
      if w < |s.workers| && Fits(s.db, s.workers[w]) {
        StepMetered(plans, s, w);
      }
    case Fault(w) =>
      if w < |s.workers| {
        ReplaceMetered(s, w, OnFault(s.workers[w]));
      }
  }

  lemma Sounds(s: State)
    requires Metered(s)
    ensures Sound(s)
  {
  }

  lemma TickMetered(s: State, d: nat)
    requires Metered(s) && Sound(s.(clock := s.clock + d))
    ensures Metered(s.(clock := s.clock + d))
  {
    hide Sound, LogSound;
    var t := s.(clock := s.clock + d);
    forall v | 0 <= v < |t.workers|
      ensures SeesOwn(t, v)
    {
      assert SeesOwn(s, v);
    }
  }

  lemma {:induction false} AlwaysMetered(plans: Catalogue, workers: nat, clock: Instant, es: seq<Event>)
    ensures Metered(Run(plans, Initial(workers, clock), es))
    ensures |Run(plans, Initial(workers, clock), es).workers| == workers
  {
    if es == [] {
      InitialSound(workers, clock);
    } else {
      var before := Run(plans, Initial(workers, clock), es[..|es| - 1]);
      AlwaysMetered(plans, workers, clock, es[..|es| - 1]);
      ApplyMetered(plans, before, es[|es| - 1]);
      ApplySound(plans, before, es[|es| - 1]);
    }
  }
}
