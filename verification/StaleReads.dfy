/**
 What a worker does with what it has read, whatever the others have done since. A transaction commits
 exactly if the row it read is still ACTIVE; `record_request` decides by the count it read at its lookup,
 however far others have raised it meanwhile.
*/
module StaleReads {
  import opened Wrappers
  import opened Calendar
  import opened Subscriptions
  import opened SubscriptionLaws
  import opened ConcurrentBilling
  import opened ConcurrentLaws
  import opened SequentialLaws
  import opened SweepLaws

  /** Time passes and the other workers do whatever they do. */
  predicate ByOthers(es: seq<Event>, w: nat) {
    forall k :: 0 <= k < |es| ==> es[k].Tick? || es[k].worker != w
  }

  lemma {:induction false} Undisturbed(plans: Catalogue, s: State, es: seq<Event>, w: nat)
    requires Sound(s) && w < |s.workers| && ByOthers(es, w)
    ensures var t := Run(plans, s, es);
            Sound(t) && Grows(s.db, t.db) && |t.workers| == |s.workers| && t.workers[w] == s.workers[w]
  {
    hide Sound, Grows, Act;
    RunSound(plans, s, es);
    if es != [] {
      Undisturbed(plans, s, es[..|es| - 1], w);
    }
  }

  /** The worker's next step keeps the invariant. */
  lemma StepSoundly(plans: Catalogue, s: State, w: nat)
    requires Sound(s) && w < |s.workers|
    ensures Fits(s.db, s.workers[w])
    ensures Sound(Advance(plans, s, w)) && Grows(s.db, Advance(plans, s, w).db)
    ensures |Advance(plans, s, w).workers| == |s.workers|
  {
    hide DbSound, Grows, Act;
    ApplySound(plans, s, Step(w));
    assert PcSound(s.db, s.clock, s.workers[w]);
  }

  // ---- Transactions --------------------------------------------------------------------------

  /** Others act, the worker takes its clock reading, and others act again before it commits. */
  ghost predicate Interrupted(plans: Catalogue, s: State, w: nat, es: seq<Event>, fs: seq<Event>, at: Instant, t: State) {
    && w < |s.workers| && ByOthers(es, w) && ByOthers(fs, w)
    && var m := Run(plans, s, es);
       && w < |m.workers| && Fits(m.db, m.workers[w])
       && at == m.clock && t == Run(plans, Advance(plans, m, w), fs)
       && w < |t.workers| && Fits(t.db, t.workers[w])
  }

  lemma ReadyToCommit(plans: Catalogue, s: State, w: nat, es: seq<Event>, fs: seq<Event>, at: Instant, t: State)
    requires Sound(s) && Interrupted(plans, s, w, es, fs, at, t) && s.workers[w].Stamp?
    ensures Sound(t) && Grows(s.db, t.db) && t.workers[w] == Commit(s.workers[w].job, at)
    ensures Names(t.db.subs, Retiring(s.workers[w].job.retire, at), s.workers[w].job.user)
  {
    hide DbSound, Grows;
    var m := Run(plans, s, es);
    Undisturbed(plans, s, es, w);
    StepSoundly(plans, m, w);
    Undisturbed(plans, Advance(plans, m, w), fs, w);
    GrowsFurther(s.db, m.db, Advance(plans, m, w).db);
    GrowsFurther(s.db, Advance(plans, m, w).db, t.db);
    assert PcSound(t.db, t.clock, t.workers[w]);
  }

  lemma TablesSound(s: State)
    requires Sound(s)
    ensures OneActive(s.db.subs) && Covered(s.db.subs)
  {
  }

  /**
   A `cancel` that read row `i` cancels it and opens a Free row exactly if the row is still ACTIVE at the
   commit and the reading was not taken on 29 February; otherwise it changes nothing.
  */
  lemma StaleCancel(plans: Catalogue, s: State, w: nat, user: UserId, i: nat,
                    es: seq<Event>, fs: seq<Event>, at: Instant, t: State)
    requires Sound(s) && w < |s.workers| && s.workers[w] == ReadForCancel(user) && FreeOffered(plans)
    requires i < |s.db.subs| && s.db.subs[i].user == user && s.db.subs[i].status == Active
    requires Interrupted(plans, Advance(plans, s, w), w, es, fs, at, t)
    ensures var after := Advance(plans, t, w).db;
            && i < |t.db.subs|
            && if t.db.subs[i].status == Active && !IsLeapDay(at)
               then Cancels(t.db, after, user, at, true) && Opens(t.db, after, user, plans["free"], false, at)
               else after == t.db
  {
    hide Sound, Grows, Transact, Cancels, Opens, IsLeapDay, OneActive, Covered;
    OnlyActiveRow(s, user, i);
    StepSoundly(plans, s, w);
    ReadyToCommit(plans, Advance(plans, s, w), w, es, fs, at, t);
    TablesSound(t);
    CommitOutcome(t.db, CancelByUser(i, at), user, plans["free"], false, at);
    if Transact(t.db, CancelByUser(i, at), user, plans["free"], false, at).Ok? {
      CommitOpens(t.db, CancelByUser(i, at), user, plans["free"], false, at);
      CommitCancels(t.db, CancelByUser(i, at), user, plans["free"], false, at, at);
    }
  }

  lemma OnlyActiveRow(s: State, user: UserId, i: nat)
    requires Sound(s) && i < |s.db.subs| && s.db.subs[i].user == user && s.db.subs[i].status == Active
    ensures ActiveRow(s.db.subs, user) == Some(i)
  {
    hide Sound, OneActive, Covered, ActiveRow;
    TablesSound(s);
    var r := match ActiveRow(s.db.subs, user) case None => Nothing case Some(k) => Replace(k, 0);
    ActiveRowTrue(s.db.subs, user, r);
    assert ActiveFor(s.db.subs[i], user);
  }

  /**
   A `subscribe` that read row `i`, of another plan, replaces it exactly if the row is still ACTIVE at the
   commit and the plan can be opened at its reading; otherwise it changes nothing.
  */
  lemma StaleSubscribe(plans: Catalogue, s: State, w: nat, user: UserId, slug: string, i: nat,
                       es: seq<Event>, fs: seq<Event>, at: Instant, t: State)
    requires Sound(s) && w < |s.workers| && s.workers[w] == ReadForSubscribe(user, slug)
    requires slug in plans && plans[slug].isActive
    requires i < |s.db.subs| && s.db.subs[i].user == user && s.db.subs[i].status == Active
    requires s.db.subs[i].plan.slug != plans[slug].slug
    requires Interrupted(plans, Advance(plans, s, w), w, es, fs, at, t)
    ensures var after, expires := Advance(plans, t, w).db, plans[slug].durationDays > 0;
            && i < |t.db.subs|
            && if t.db.subs[i].status == Active && (expires || !IsLeapDay(at))
               then Cancels(t.db, after, user, at, false) && Opens(t.db, after, user, plans[slug], expires, at)
               else after == t.db
  {
    hide Sound, Grows, Transact, Cancels, Opens, IsLeapDay, OneActive, Covered;
    OnlyActiveRow(s, user, i);
    StepSoundly(plans, s, w);
    ReadyToCommit(plans, Advance(plans, s, w), w, es, fs, at, t);
    TablesSound(t);
    var expires := plans[slug].durationDays > 0;
    CommitOutcome(t.db, Replace(i, at), user, plans[slug], expires, at);
    if Transact(t.db, Replace(i, at), user, plans[slug], expires, at).Ok? {
      CommitOpens(t.db, Replace(i, at), user, plans[slug], expires, at);
      CommitCancels(t.db, Replace(i, at), user, plans[slug], expires, at, at);
    }
  }

  /**
   A sweep that comes to row `rows[0]` expires it, gives its user the Free plan, and counts it exactly if
   the row is still ACTIVE at the commit and the reading was not taken on 29 February.
  */
  lemma StaleExpire(plans: Catalogue, s: State, w: nat, rows: seq<nat>, affected: nat,
                    es: seq<Event>, fs: seq<Event>, at: Instant, t: State)
    requires Sound(s) && w < |s.workers| && rows != [] && s.workers[w] == NextRow(rows, affected) && FreeOffered(plans)
    requires rows[0] < |s.db.subs| && Interrupted(plans, Advance(plans, s, w), w, es, fs, at, t)
    ensures var next, row := Advance(plans, t, w), rows[0];
            && row < |t.db.subs|
            && var done := t.db.subs[row].status == Active && !IsLeapDay(at);
               && next.workers[w] == NextRow(rows[1..], affected + if done then 1 else 0)
               && if done then OneExactly(t.db, next.db, plans, row, at) else next.db == t.db
  {
    hide Sound, Transact, OneExactly, IsLeapDay, OneActive, Covered;
    var row := rows[0];
    StepSoundly(plans, s, w);
    ReadyToCommit(plans, Advance(plans, s, w), w, es, fs, at, t);
    TablesSound(t);
    SameUser(Advance(plans, s, w).db, t.db, row);
    CommitOutcome(t.db, Expire(row), t.db.subs[row].user, plans["free"], false, at);
    if t.db.subs[row].status == Active {
      OneRow(t.db, plans, row, at);
    }
  }

  lemma SameUser(db: Db, after: Db, row: nat)
    requires Grows(db, after) && row < |db.subs|
    ensures row < |after.subs| && after.subs[row].user == db.subs[row].user
  {
    assert SameContract(db.subs[row], after.subs[row]);
  }

  // ---- The limit check -----------------------------------------------------------------------

  /**
   The lookup finds quota `q` at count `used`. Whatever others do between the worker's steps, it adds one
   to `q` if `used` was below the limit, or the plan has none, and otherwise changes nothing.
  */
  lemma StaleCheck(plans: Catalogue, s: State, w: nat, sub: nat, now: Instant, q: nat,
                   es: seq<Event>, fs: seq<Event>, at: Instant, t: State)
    requires Sound(s) && w < |s.workers| && s.workers[w] == QueryQuota(sub, now)
    requires CurrentQuota(s.db.quotas, sub, now) == Some(q)
    requires Interrupted(plans, Advance(plans, s, w), w, es, fs, at, t)
    ensures var after, used := Advance(plans, t, w).db, s.db.quotas[q].requestsUsed;
            && sub < |s.db.subs| && q < |t.db.quotas|
            && var limit := s.db.subs[sub].plan.requestQuota;
               after == if 0 < limit <= used then t.db
                        else t.db.(quotas := t.db.quotas[q := t.db.quotas[q].(requestsUsed := t.db.quotas[q].requestsUsed + 1)])
  {
    hide DbSound, Grows, CurrentQuota;
    var found := Advance(plans, s, w);
    var m := Run(plans, found, es);
    StepSoundly(plans, s, w);
    assert found.workers[w] == CheckLimit(q, s.db.quotas[q].requestsUsed, now);
    Undisturbed(plans, found, es, w);
    GrowsFurther(s.db, found.db, m.db);
    SameLimit(s.db, m.db, q);
    StepSoundly(plans, m, w);
    Undisturbed(plans, Advance(plans, m, w), fs, w);
    StepSoundly(plans, t, w);
    GrowsFurther(s.db, m.db, Advance(plans, m, w).db);
    GrowsFurther(s.db, Advance(plans, m, w).db, t.db);
    MoreQuotas(s.db, t.db);
  }

  lemma SameLimit(db: Db, after: Db, q: nat)
    requires Grows(db, after) && q < |db.quotas| && db.quotas[q].sub < |db.subs|
    ensures q < |after.quotas| && Limit(after, q) == db.subs[db.quotas[q].sub].plan.requestQuota
  {
    PlanFixed(db, after, q);
  }

  lemma MoreQuotas(db: Db, after: Db)
    requires Grows(db, after)
    ensures |db.quotas| <= |after.quotas|
  {
  }
}
