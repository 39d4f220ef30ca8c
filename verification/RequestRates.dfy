/**
 The long-run rate when requests are dated by the instant their increment is written. A worker may be
 held up between choosing a window and writing to it, but only once per worker across any instant, and
 a worker held up in an old window has opened no newer one meanwhile; so the bound stays the same.
*/
module RequestRates {
  import opened Calendar
  import opened Subscriptions
  import opened SubscriptionLaws
  import opened ConcurrentBilling
  import opened ConcurrentLaws
  import opened QuotaBounds
  import opened QuotaTheorems
  import opened Sums

  // ---- How the log is dated ------------------------------------------------------------------

  /** Everything the worker has written so far was written by `t`. */
  ghost predicate DoneBy(log: seq<Accept>, w: nat, t: Instant) {
    forall k :: 0 <= k < |log| && log[k].worker == w ==> log[k].done <= t
  }

  /** No window that the worker opened for the quota's subscription starts after the quota's. */
  ghost predicate NoneNewer(s: State, w: nat, q: nat)
    requires |s.makers| == |s.db.quotas|
  {
    && q < |s.db.quotas|
    && forall r :: 0 <= r < |s.db.quotas| && Mine(s, r, w, s.db.quotas[q].sub) ==>
         s.db.quotas[r].periodStart <= s.db.quotas[q].periodStart
  }

  /** A worker's readings are later than all of its writes, and the window in its hand is its newest. */
  ghost predicate ReadsInTime(s: State, w: nat)
    requires w < |s.workers| && |s.makers| == |s.db.quotas|
  {
    match s.workers[w]
    case QueryQuota(_, now) => DoneBy(s.log, w, now)
    case OpenWindow(_, start) => DoneBy(s.log, w, start)
    case CheckLimit(q, _, at) => at <= s.clock && DoneBy(s.log, w, at) && NoneNewer(s, w, q)
    case Increment(q, at) => at <= s.clock && DoneBy(s.log, w, at) && NoneNewer(s, w, q)
    case _ => true
  }

  /** A window opened by the worker of entry `k` starts no later than the entry's, or after the entry is written. */
  ghost predicate NotOvertaken(s: State, k: nat, r: nat)
    requires k < |s.log| && r < |s.db.quotas| && |s.makers| == |s.db.quotas| && s.log[k].quota < |s.db.quotas|
  {
    var q := s.log[k].quota;
    Mine(s, r, s.log[k].worker, s.db.quotas[q].sub) ==>
      s.db.quotas[r].periodStart <= s.db.quotas[q].periodStart || s.log[k].done <= s.db.quotas[r].periodStart
  }

  ghost predicate LogDated(s: State)
    requires |s.makers| == |s.db.quotas|
  {
    && (forall k :: 0 <= k < |s.log| ==> s.log[k].quota < |s.db.quotas| && s.log[k].worker < |s.workers|)
    && (forall k :: 0 <= k < |s.log| ==> s.log[k].at <= s.log[k].done <= s.clock)
    && (forall k, l :: 0 <= k < l < |s.log| && s.log[k].worker == s.log[l].worker ==> s.log[k].done <= s.log[l].at)
    && (forall k: nat, r: nat :: k < |s.log| && r < |s.db.quotas| ==> NotOvertaken(s, k, r))
  }

  ghost predicate Paced(s: State) {
    && Metered(s) && LogDated(s)
    && forall w :: 0 <= w < |s.workers| ==> ReadsInTime(s, w)
  }

  // ---- Steps ---------------------------------------------------------------------------------

  /** From `s` to `t` windows and log only grow, by rows and entries of worker `w`, and time does not go back. */
  ghost predicate GrowsBy(s: State, t: State, w: nat)
    requires |s.makers| == |s.db.quotas|
  {
    && |t.makers| == |t.db.quotas| && |s.db.quotas| <= |t.db.quotas| && |s.workers| == |t.workers| && s.clock <= t.clock
    && (forall q :: 0 <= q < |s.db.quotas| ==> SameWindow(s.db.quotas[q], t.db.quotas[q]) && t.makers[q] == s.makers[q])
    && (forall q :: |s.db.quotas| <= q < |t.db.quotas| ==> t.makers[q].Opening? || t.makers[q] == By(w))
    && s.log <= t.log
    && (forall k :: |s.log| <= k < |t.log| ==> t.log[k].worker == w)
  }

  /** What a step of worker `w` leaves behind. */
  ghost predicate StepDated(s: State, t: State, w: nat) {
    && |s.makers| == |s.db.quotas| && GrowsBy(s, t, w) && LogDated(t)
    && w < |t.workers| && ReadsInTime(t, w)
  }

  lemma OthersInTime(s: State, t: State, w: nat, v: nat)
    requires |s.makers| == |s.db.quotas| && GrowsBy(s, t, w) && v < |s.workers| && v != w
    requires ReadsInTime(s, v) && t.workers[v] == s.workers[v]
    ensures ReadsInTime(t, v)
  {
    assert forall k :: 0 <= k < |s.log| ==> t.log[k] == s.log[k];
    match s.workers[v]
    case CheckLimit(q, _, _) => assert SameWindow(s.db.quotas[q], t.db.quotas[q]);
    case Increment(q, _) => assert SameWindow(s.db.quotas[q], t.db.quotas[q]);
    case _ =>
  }

  /** Nothing was logged: the old entries keep their dates, and rows opened since start after them. */
  lemma SameLogDated(s: State, t: State, w: nat)
    requires |s.makers| == |s.db.quotas| && LogDated(s) && GrowsBy(s, t, w) && t.log == s.log
    requires forall r :: |s.db.quotas| <= r < |t.db.quotas| && t.makers[r] == By(w) ==>
               DoneBy(s.log, w, t.db.quotas[r].periodStart)
    ensures LogDated(t)
  {
    forall k: nat, r: nat | k < |t.log| && r < |t.db.quotas|
      ensures NotOvertaken(t, k, r)
    {
      assert SameWindow(s.db.quotas[s.log[k].quota], t.db.quotas[s.log[k].quota]);
      if r < |s.db.quotas| {
        assert NotOvertaken(s, k, r);
        assert SameWindow(s.db.quotas[r], t.db.quotas[r]);
      }
    }
  }

  /** What the lookup finds is the newest of the worker's own windows: the others are over or start earlier. */
  lemma FoundNewest(s: State, w: nat)
    requires Metered(s) && w < |s.workers| && s.workers[w].QueryQuota?
    requires CurrentQuota(s.db.quotas, s.workers[w].sub, s.workers[w].now).Some?
    ensures NoneNewer(s, w, CurrentQuota(s.db.quotas, s.workers[w].sub, s.workers[w].now).value)
  {
    hide LogSound, AllWithinAllowance, OneActive, Covered, RowOk, OpeningEnd, PeriodEnd;
    var sub, now := s.workers[w].sub, s.workers[w].now;
    var q := CurrentQuota(s.db.quotas, sub, now).value;
    assert SeesOwn(s, w);
    forall r | 0 <= r < |s.db.quotas| && Mine(s, r, w, sub)
      ensures s.db.quotas[r].periodStart <= s.db.quotas[q].periodStart
    {
      assert IsRotation(s.db, r);
      assert IsOpening(s.db, q) || IsRotation(s.db, q);
      SameLength(s.db.subs[sub].plan, s.db.quotas[r].periodStart, s.db.quotas[q].periodStart);
    }
  }

  lemma SameLength(plan: Plan, a: Instant, b: Instant)
    ensures PeriodEnd(plan, a) - a == PeriodEnd(plan, b) - b
  {
  }

  lemma QuietReads(plans: Catalogue, s: State, w: nat)
    requires Paced(s) && w < |s.workers| && Fits(s.db, s.workers[w])
    requires !s.workers[w].Commit? && !s.workers[w].OpenWindow? && !s.workers[w].Increment?
    ensures |Advance(plans, s, w).makers| == |Advance(plans, s, w).db.quotas| && ReadsInTime(Advance(plans, s, w), w)
  {
    hide Sound, LogSound, AllWithinAllowance, SeesOwn, NoneNewer;
    OwnAdvanced(plans, s, w);
    assert ReadsInTime(s, w);
    var t := Advance(plans, s, w);
    if s.workers[w].QueryQuota? && CurrentQuota(s.db.quotas, s.workers[w].sub, s.workers[w].now).Some? {
      FoundNewest(s, w);
      WorkerSound(s, w);
      SameNewest(s, t, w, t.workers[w].quota);
    } else if s.workers[w].CheckLimit? {
      SameNewest(s, t, w, s.workers[w].quota);
    }
  }

  /** Steps that neither commit, open a window, nor count. */
  lemma QuietPaced(plans: Catalogue, s: State, w: nat)
    requires Paced(s) && w < |s.workers| && Fits(s.db, s.workers[w])
    requires !s.workers[w].Commit? && !s.workers[w].OpenWindow? && !s.workers[w].Increment?
    ensures StepDated(s, Advance(plans, s, w), w)
  {
    hide Metered, ReadsInTime, Act;
    SameMakers(s);
    QuietReads(plans, s, w);
    OwnAdvanced(plans, s, w);
    var t := Advance(plans, s, w);
    assert forall q :: 0 <= q < |s.db.quotas| ==> SameWindow(s.db.quotas[q], t.db.quotas[q]);
    SameLogDated(s, t, w);
  }

  lemma SameNewest(s: State, t: State, w: nat, q: nat)
    requires |s.makers| == |s.db.quotas| && NoneNewer(s, w, q) && t.db == s.db && t.makers == s.makers
    ensures NoneNewer(t, w, q)
  {
    assert forall r :: 0 <= r < |s.db.quotas| ==> Mine(t, r, w, s.db.quotas[q].sub) == Mine(s, r, w, s.db.quotas[q].sub);
  }

  lemma WorkerSound(s: State, w: nat)
    requires Sound(s) && w < |s.workers|
    ensures PcSound(s.db, s.clock, s.workers[w])
  {
  }

  lemma CommitPaced(plans: Catalogue, s: State, w: nat)
    requires Paced(s) && w < |s.workers| && s.workers[w].Commit?
    requires Metered(Advance(plans, s, w)) && Grows(s.db, Advance(plans, s, w).db)
    ensures StepDated(s, Advance(plans, s, w), w)
  {
    hide LogSound, AllWithinAllowance, DbSound, SeesOwn, Transact;
    var t := Advance(plans, s, w);
    SameLogDated(s, t, w);
  }

  lemma OpenPaced(plans: Catalogue, s: State, w: nat)
    requires Paced(s) && w < |s.workers| && s.workers[w].OpenWindow? && Fits(s.db, s.workers[w])
    requires Metered(Advance(plans, s, w)) && Grows(s.db, Advance(plans, s, w).db)
    ensures StepDated(s, Advance(plans, s, w), w)
  {
    hide LogSound, AllWithinAllowance, DbSound, PeriodEnd;
    var t := Advance(plans, s, w);
    WorkerSound(s, w);
    assert ReadsInTime(s, w);
    SameLogDated(s, t, w);
    if t.workers[w].CheckLimit? {
      var q := |s.db.quotas|;
      forall r | 0 <= r < |t.db.quotas| && Mine(t, r, w, t.db.quotas[q].sub)
        ensures t.db.quotas[r].periodStart <= t.db.quotas[q].periodStart
      {
        if r < q {
          assert t.db.quotas[r].periodEnd <= t.db.quotas[q].periodStart;
          NotEmpty(t.db, t.clock, r);
        }
      }
    }
  }

  lemma NotEmpty(db: Db, clock: Instant, q: nat)
    requires DbSound(db, clock) && q < |db.quotas|
    ensures db.quotas[q].periodStart < db.quotas[q].periodEnd
  {
    hide OneActive, Covered, PerpetualEnd;
    assert RowOk(db.subs[db.quotas[q].sub]);
    assert IsOpening(db, q) || IsRotation(db, q);
  }

  lemma CountPaced(plans: Catalogue, s: State, w: nat)
    requires Paced(s) && w < |s.workers| && s.workers[w].Increment? && Fits(s.db, s.workers[w])
    requires Metered(Advance(plans, s, w)) && Grows(s.db, Advance(plans, s, w).db)
    ensures StepDated(s, Advance(plans, s, w), w)
  {
    hide Metered, Grows;
    var t := Advance(plans, s, w);
    SameMakers(s);
    SameMakers(t);
    assert ReadsInTime(s, w);
    forall k: nat, r: nat | k < |t.log| && r < |t.db.quotas|
      ensures NotOvertaken(t, k, r)
    {
      if k < |s.log| {
        assert NotOvertaken(s, k, r);
      }
    }
  }

  lemma StepPaced(plans: Catalogue, s: State, w: nat)
    requires Paced(s) && w < |s.workers| && Fits(s.db, s.workers[w])
    requires Metered(Advance(plans, s, w)) && Grows(s.db, Advance(plans, s, w).db)
    ensures Paced(Advance(plans, s, w))
  {
    hide Metered, Grows, LogDated, ReadsInTime, GrowsBy, Act;
    var t := Advance(plans, s, w);
    SameMakers(s);
    SameMakers(t);
    if s.workers[w].Commit? {
      CommitPaced(plans, s, w);
    } else if s.workers[w].OpenWindow? {
      OpenPaced(plans, s, w);
    } else if s.workers[w].Increment? {
      CountPaced(plans, s, w);
    } else {
      QuietPaced(plans, s, w);
    }
    forall v | 0 <= v < |t.workers|
      ensures ReadsInTime(t, v)
    {
      if v != w {
        OthersInTime(s, t, w, v);
      }
    }
  }

  lemma SameMakers(s: State)
    requires Metered(s)
    ensures |s.makers| == |s.db.quotas|
  {
  }

  lemma ReplacePaced(s: State, w: nat, pc: Pc)
    requires Paced(s) && w < |s.workers| && Metered(s.(workers := s.workers[w := pc]))
    requires pc == s.workers[w] || (!Continues(pc) && !pc.CheckLimit? && !pc.Increment?)
    ensures Paced(s.(workers := s.workers[w := pc]))
  {
    hide Metered;
    SameMakers(s);
    var t := s.(workers := s.workers[w := pc]);
    forall v | 0 <= v < |t.workers|
      ensures ReadsInTime(t, v)
    {
      assert ReadsInTime(s, v);
    }
    forall k: nat, r: nat | k < |t.log| && r < |t.db.quotas|
      ensures NotOvertaken(t, k, r)
    {
      assert NotOvertaken(s, k, r);
    }
  }

  lemma TickPaced(s: State, d: nat)
    requires Paced(s) && Metered(s.(clock := s.clock + d))
    ensures Paced(s.(clock := s.clock + d))
  {
    hide Metered;
    SameMakers(s);
    var t := s.(clock := s.clock + d);
    forall v | 0 <= v < |t.workers|
      ensures ReadsInTime(t, v)
    {
      assert ReadsInTime(s, v);
    }
    forall k: nat, r: nat | k < |t.log| && r < |t.db.quotas|
      ensures NotOvertaken(t, k, r)
    {
      assert NotOvertaken(s, k, r);
    }
  }

  lemma ApplyPaced(plans: Catalogue, s: State, e: Event)
    requires Paced(s)
    ensures Paced(Apply(plans, s, e))
  {
    hide Metered, Sound, Grows, Act, LogDated, ReadsInTime;
    Sounds(s);
    ApplyMetered(plans, s, e);
    ApplySound(plans, s, e);
    match e
    case Tick(d) => TickPaced(s, d);
    case Begin(w, call) =>
      if w < |s.workers| && s.workers[w].Idle? {
        ReplacePaced(s, w, Start(plans, s.clock, call));
      }
    case Step(w) =>
      if w < |s.workers| && Fits(s.db, s.workers[w]) {
        StepPaced(plans, s, w);
      }
    case Fault(w) =>
      if w < |s.workers| {
        ReplacePaced(s, w, OnFault(s.workers[w]));
      }
  }

  lemma {:induction false} AlwaysPaced(plans: Catalogue, workers: nat, clock: Instant, es: seq<Event>)
    ensures Paced(Run(plans, Initial(workers, clock), es))
  {
    hide Metered, Apply;
    if es == [] {
      AlwaysMetered(plans, workers, clock, []);
      NothingLogged(workers, clock);
    } else {
      AlwaysPaced(plans, workers, clock, es[..|es| - 1]);
      ApplyPaced(plans, Run(plans, Initial(workers, clock), es[..|es| - 1]), es[|es| - 1]);
    }
  }

  lemma NothingLogged(workers: nat, clock: Instant)
    requires Metered(Initial(workers, clock))
    ensures Paced(Initial(workers, clock))
  {
    hide Metered;
  }

  // ---- What the log records ------------------------------------------------------------------

  /** Event `i` of the run is the step of the entry's worker that adds one to the entry's quota, at its instant. */
  ghost predicate Writes(plans: Catalogue, s: State, es: seq<Event>, i: nat, e: Accept)
    requires i < |es|
  {
    var before, after := Run(plans, s, es[..i]), Run(plans, s, es[..i + 1]);
    && es[i] == Step(e.worker) && before.clock == e.done
    && e.quota < |before.db.quotas| && after.db.subs == before.db.subs
    && after.db.quotas == before.db.quotas[e.quota :=
         before.db.quotas[e.quota].(requestsUsed := before.db.quotas[e.quota].requestsUsed + 1)]
    && after.log == before.log + [e]
  }

  /** Every entry of the log was written by such an event. */
  lemma {:induction false} EntryIsIncrement(plans: Catalogue, s: State, es: seq<Event>, k: nat)
    requires |s.log| <= k < |Run(plans, s, es).log|
    ensures exists i :: 0 <= i < |es| && Writes(plans, s, es, i, Run(plans, s, es).log[k])
    decreases |es|
  {
    hide Apply, Writes;
    var n := |es| - 1;
    var before := Run(plans, s, es[..n]);
    if k < |before.log| {
      EntryIsIncrement(plans, s, es[..n], k);
      var i :| 0 <= i < n && Writes(plans, s, es[..n], i, before.log[k]);
      WritesInPrefix(plans, s, es, n, i, before.log[k]);
      LogOnlyGrows(plans, before, es[n]);
    } else {
      LastWrites(plans, s, es);
    }
  }

  lemma WritesInPrefix(plans: Catalogue, s: State, es: seq<Event>, n: nat, i: nat, e: Accept)
    requires i < n <= |es| && Writes(plans, s, es[..n], i, e)
    ensures Writes(plans, s, es, i, e)
  {
    hide Run;
    assert es[..n][..i] == es[..i] && es[..n][..i + 1] == es[..i + 1];
  }

  lemma LastWrites(plans: Catalogue, s: State, es: seq<Event>)
    requires es != []
    requires |Run(plans, s, es[..|es| - 1]).log| < |Run(plans, s, es).log|
    ensures var k := |Run(plans, s, es[..|es| - 1]).log|;
            k + 1 == |Run(plans, s, es).log| && Writes(plans, s, es, |es| - 1, Run(plans, s, es).log[k])
  {
    hide Apply;
    assert es[..|es| - 1 + 1] == es;
    LastEntry(plans, Run(plans, s, es[..|es| - 1]), es[|es| - 1]);
  }

  lemma LogOnlyGrows(plans: Catalogue, s: State, e: Event)
    ensures s.log <= Apply(plans, s, e).log
  {
    hide Act;
  }

  lemma LastEntry(plans: Catalogue, s: State, e: Event)
    requires |s.log| < |Apply(plans, s, e).log|
    ensures var t := Apply(plans, s, e);
            && t.log == s.log + [t.log[|s.log|]]
            && var a := t.log[|s.log|];
               && e == Step(a.worker) && a.done == s.clock && a.quota < |s.db.quotas| && t.db == Bump(s.db, a.quota)
  {
  }

  // ---- Counting ------------------------------------------------------------------------------

  /** Requests on the subscription whose increments were written from `a` up to `b`. */
  function WrittenIn(db: Db, sub: nat, a: Instant, b: Instant): Accept -> nat {
    (e: Accept) => if e.quota < |db.quotas| && db.quotas[e.quota].sub == sub && a <= e.done < b then 1 else 0
  }

  /** Entries are grouped by their window, or, when that was over by `a`, by the worker held up. */
  function GroupOf(db: Db, a: Instant): Accept -> nat {
    (e: Accept) =>
      if e.quota < |db.quotas| && db.quotas[e.quota].periodEnd <= a then |db.quotas| + e.worker else e.quota
  }

  /** The worker wrote, from `a` up to `b`, to a window that was over by `a`. */
  ghost predicate HeldUp(s: State, sub: nat, a: Instant, b: Instant, w: nat) {
    exists k :: 0 <= k < |s.log| && s.log[k].worker == w && Late(s, sub, a, b, k)
  }

  predicate Late(s: State, sub: nat, a: Instant, b: Instant, k: nat)
    requires k < |s.log|
  {
    WrittenIn(s.db, sub, a, b)(s.log[k]) == 1 && s.db.quotas[s.log[k].quota].periodEnd <= a
  }

  ghost function Groups(s: State, sub: nat, a: Instant, b: Instant): set<nat> {
    Meeting(s.db, sub, a, b) + set w | 0 <= w < |s.workers| && HeldUp(s, sub, a, b, w) :: |s.db.quotas| + w
  }

  lemma LogFacts(s: State)
    requires Paced(s)
    ensures Metered(s) && |s.makers| == |s.db.quotas| && LogDated(s) && LogSound(s.db, s.log)
  {
    hide Sound, LogDated, AllWithinAllowance, MakersSound;
    SameMakers(s);
  }

  /** A worker held up in an ended window has no window of its own that runs from before `a` into the interval. */
  lemma HeldUpAlone(s: State, sub: nat, a: Instant, b: Instant, k: nat, r: nat)
    requires Paced(s) && k < |s.log| && Late(s, sub, a, b, k)
    requires r in Meeting(s.db, sub, a, b) && sub < |s.db.subs| && s.db.subs[sub].expiresAt.Some?
    requires |s.makers| == |s.db.quotas| && MakerIndex(s.makers[r]) == s.log[k].worker
    ensures a <= s.db.quotas[r].periodStart
  {
    hide LogSound, AllWithinAllowance, OneActive, Covered, RowOk, OpeningEnd, PeriodEnd, ReadsInTime;
    var q := s.log[k].quota;
    if s.db.quotas[r].periodStart < a {
      if s.makers[r].Opening? {
        assert IsOpening(s.db, r);
        assert IsOpening(s.db, q) || IsRotation(s.db, q);
        NotEmpty(s.db, s.clock, q);
        assert false;
      } else {
        assert NotOvertaken(s, k, r);
        WindowLength(s.db, s.clock, q);
        WindowLength(s.db, s.clock, r);
        assert false;
      }
    }
  }

  /** A worker is held up across `a` at most once: its next request is read after the first is written. */
  lemma HeldUpOnce(s: State, sub: nat, a: Instant, b: Instant, w: nat)
    requires Paced(s)
    ensures Total(s.log, InGroup(WrittenIn(s.db, sub, a, b), GroupOf(s.db, a), |s.db.quotas| + w)) <= 1
  {
    hide Metered, ReadsInTime;
    LogFacts(s);
    TotalOnce(s.log, InGroup(WrittenIn(s.db, sub, a, b), GroupOf(s.db, a), |s.db.quotas| + w));
  }

  lemma EveryEntryGrouped(s: State, sub: nat, a: Instant, b: Instant)
    requires Paced(s)
    ensures Total(s.log, WrittenIn(s.db, sub, a, b))
            == Total(s.log, InGroups(WrittenIn(s.db, sub, a, b), GroupOf(s.db, a), Groups(s, sub, a, b)))
  {
    hide Metered, ReadsInTime;
    LogFacts(s);
    forall k | 0 <= k < |s.log| && WrittenIn(s.db, sub, a, b)(s.log[k]) == 1
      ensures GroupOf(s.db, a)(s.log[k]) in Groups(s, sub, a, b)
    {
      assert s.db.quotas[s.log[k].quota].Contains(s.log[k].at);
      if s.db.quotas[s.log[k].quota].periodEnd <= a {
        assert Late(s, sub, a, b, k);
        assert HeldUp(s, sub, a, b, s.log[k].worker);
      }
    }
    TotalSame(s.log, WrittenIn(s.db, sub, a, b),
              InGroups(WrittenIn(s.db, sub, a, b), GroupOf(s.db, a), Groups(s, sub, a, b)));
  }

  /** Windows by maker and period as before; a worker held up takes the slot of the period that ends after `a`. */
  function GroupSlot(s: State, a: Instant, d: int, slots: nat): nat -> int
    requires d > 0
  {
    var ofWindow := SlotOf(s, a, d, slots);
    (g: nat) => if g < |s.db.quotas| then ofWindow(g) else (g - |s.db.quotas|) * slots
  }

  lemma GroupKind(s: State, sub: nat, a: Instant, b: Instant, g: nat)
    requires g in Groups(s, sub, a, b)
    ensures if g < |s.db.quotas| then g in Meeting(s.db, sub, a, b)
            else g - |s.db.quotas| < |s.workers| && HeldUp(s, sub, a, b, g - |s.db.quotas|)
  {
    hide HeldUp;
  }

  lemma GroupFits(s: State, sub: nat, a: Instant, len: nat, g: nat)
    requires Paced(s) && |s.workers| > 0 && sub < |s.db.subs| && s.db.subs[sub].expiresAt.Some?
    requires s.db.subs[sub].plan.durationDays > 0 && g in Groups(s, sub, a, a + len)
    ensures var d := s.db.subs[sub].plan.durationDays * DAY;
            0 <= GroupSlot(s, a, d, CeilDiv(len, d) + 1)(g) < |s.workers| * (CeilDiv(len, d) + 1)
  {
    hide Paced, Metered, SlotOf, CeilDiv, Groups, HeldUp, LogDated, LogSound;
    var d := s.db.subs[sub].plan.durationDays * DAY;
    LogFacts(s);
    GroupKind(s, sub, a, a + len, g);
    if g < |s.db.quotas| {
      SlotFits(s, g, a, len, d);
    } else {
      PairInRange(g - |s.db.quotas|, |s.workers|, 0, CeilDiv(len, d) + 1);
    }
  }

  lemma GroupsApart(s: State, sub: nat, a: Instant, len: nat, g: nat, h: nat)
    requires Paced(s) && |s.workers| > 0 && sub < |s.db.subs| && s.db.subs[sub].expiresAt.Some?
    requires s.db.subs[sub].plan.durationDays > 0
    requires g in Groups(s, sub, a, a + len) && h in Groups(s, sub, a, a + len)
    requires var d := s.db.subs[sub].plan.durationDays * DAY;
             GroupSlot(s, a, d, CeilDiv(len, d) + 1)(g) == GroupSlot(s, a, d, CeilDiv(len, d) + 1)(h)
    ensures g == h
  {
    hide Paced, Metered, SlotOf, CeilDiv, Groups, HeldUp, LogDated, LogSound;
    var n := |s.db.quotas|;
    LogFacts(s);
    GroupKind(s, sub, a, a + len, g);
    GroupKind(s, sub, a, a + len, h);
    if g < n && h < n {
      SameWindowSlot(s, sub, a, len, g, h);
    } else if g < n {
      NoSharedSlot(s, sub, a, len, g, h - n);
    } else if h < n {
      NoSharedSlot(s, sub, a, len, h, g - n);
    } else {
      PairsDistinct(g - n, 0, h - n, 0, CeilDiv(len, s.db.subs[sub].plan.durationDays * DAY) + 1);
    }
  }

  lemma FewGroups(s: State, sub: nat, a: Instant, len: nat)
    requires Paced(s) && |s.workers| > 0 && sub < |s.db.subs| && s.db.subs[sub].expiresAt.Some?
    requires s.db.subs[sub].plan.durationDays > 0
    ensures |Groups(s, sub, a, a + len)| <= |s.workers| * (CeilDiv(len, s.db.subs[sub].plan.durationDays * DAY) + 1)
  {
    hide Paced, GroupSlot, CeilDiv, Groups;
    var d := s.db.subs[sub].plan.durationDays * DAY;
    var f, groups := GroupSlot(s, a, d, CeilDiv(len, d) + 1), Groups(s, sub, a, a + len);
    forall g | g in groups
      ensures 0 <= f(g) < |s.workers| * (CeilDiv(len, d) + 1)
    {
      GroupFits(s, sub, a, len, g);
    }
    forall g, h | g in groups && h in groups && f(g) == f(h)
      ensures g == h
    {
      GroupsApart(s, sub, a, len, g, h);
    }
    Injection(groups, f, 0, |s.workers| * (CeilDiv(len, d) + 1));
  }

  lemma NoSharedSlot(s: State, sub: nat, a: Instant, len: nat, q: nat, w: nat)
    requires Paced(s) && |s.workers| > 0 && sub < |s.db.subs| && s.db.subs[sub].expiresAt.Some?
    requires s.db.subs[sub].plan.durationDays > 0
    requires q in Meeting(s.db, sub, a, a + len) && HeldUp(s, sub, a, a + len, w)
    ensures var d := s.db.subs[sub].plan.durationDays * DAY;
            SlotOf(s, a, d, CeilDiv(len, d) + 1)(q) != w * (CeilDiv(len, d) + 1)
  {
    hide Paced, Metered, SlotOf, CeilDiv, LogDated, LogSound, Late;
    LogFacts(s);
    var d := s.db.subs[sub].plan.durationDays * DAY;
    var slots := CeilDiv(len, d) + 1;
    var k :| 0 <= k < |s.log| && s.log[k].worker == w && Late(s, sub, a, a + len, k);
    SlotFits(s, q, a, len, d);
    var x := s.db.quotas[q].periodStart - a;
    if SlotOf(s, a, d, slots)(q) == w * slots {
      PairsDistinct(MakerIndex(s.makers[q]), x / d + 1, w, 0, slots);
      HeldUpAlone(s, sub, a, a + len, k, q);
      assert false;
    }
  }

  /**
   The long-run rate: on a subscription with period `d` and a positive limit, N workers together get at
   most `(limit + N - 1) * N * (ceil(len / d) + 1)` increments written in any interval of length `len`,
   though periods start lazily and leave gaps and workers may be held up. One worker gets at most
   `limit * (ceil(len / d) + 1)`.
  */
  lemma RateByIncrement(plans: Catalogue, workers: nat, clock: Instant, es: seq<Event>, sub: nat, a: Instant, len: nat)
    requires workers > 0
    requires var db := Run(plans, Initial(workers, clock), es).db;
             && sub < |db.subs| && db.subs[sub].expiresAt.Some?
             && db.subs[sub].plan.requestQuota > 0 && db.subs[sub].plan.durationDays > 0
    ensures var s := Run(plans, Initial(workers, clock), es);
            var d := s.db.subs[sub].plan.durationDays * DAY;
            Total(s.log, WrittenIn(s.db, sub, a, a + len))
            <= workers * (CeilDiv(len, d) + 1) * (s.db.subs[sub].plan.requestQuota + workers - 1)
  {
    hide Paced, Metered, Run, CeilDiv, Groups, WrittenIn, GroupOf, InGroup, InGroups, Total;
    var s := Run(plans, Initial(workers, clock), es);
    var groups := Groups(s, sub, a, a + len);
    var bound := s.db.subs[sub].plan.requestQuota + workers - 1;
    AlwaysMetered(plans, workers, clock, es);
    AlwaysPaced(plans, workers, clock, es);
    FewGroups(s, sub, a, len);
    forall g | g in groups
      ensures Total(s.log, InGroup(WrittenIn(s.db, sub, a, a + len), GroupOf(s.db, a), g)) <= bound
    {
      FewInGroup(plans, workers, clock, es, sub, a, len, g);
    }
    TotalByGroup(s.log, WrittenIn(s.db, sub, a, a + len), GroupOf(s.db, a), groups, bound);
    EveryEntryGrouped(s, sub, a, a + len);
    Wider(|groups|, workers * (CeilDiv(len, s.db.subs[sub].plan.durationDays * DAY) + 1), bound);
  }

  lemma FewInGroup(plans: Catalogue, workers: nat, clock: Instant, es: seq<Event>, sub: nat, a: Instant, len: nat, g: nat)
    requires workers > 0
    requires var s := Run(plans, Initial(workers, clock), es);
             && sub < |s.db.subs| && s.db.subs[sub].plan.requestQuota > 0
             && g in Groups(s, sub, a, a + len)
    ensures var s := Run(plans, Initial(workers, clock), es);
            Total(s.log, InGroup(WrittenIn(s.db, sub, a, a + len), GroupOf(s.db, a), g))
            <= s.db.subs[sub].plan.requestQuota + workers - 1
  {
    hide Paced, Run, Groups, HeldUp, WrittenIn, GroupOf, Total;
    var s := Run(plans, Initial(workers, clock), es);
    AlwaysPaced(plans, workers, clock, es);
    GroupKind(s, sub, a, a + len, g);
    if g < |s.db.quotas| {
      NoLostUpdates(plans, workers, clock, es, g);
      Overshoot(plans, workers, clock, es, g);
      OnlyOnQuota(s, sub, a, a + len, g);
    } else {
      HeldUpOnce(s, sub, a, a + len, g - |s.db.quotas|);
    }
  }

  lemma OnlyOnQuota(s: State, sub: nat, a: Instant, b: Instant, q: nat)
    requires q < |s.db.quotas|
    ensures Total(s.log, InGroup(WrittenIn(s.db, sub, a, b), GroupOf(s.db, a), q)) <= Total(s.log, OnQuota(q))
  {
    TotalMonotone(s.log, InGroup(WrittenIn(s.db, sub, a, b), GroupOf(s.db, a), q), OnQuota(q));
  }
}
