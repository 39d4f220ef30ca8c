/**
 The other half of the refinement: whatever clock readings are chosen, some uninterrupted run of the
 machine takes exactly those and ends in the database that the sequential function returns for them.
*/
module SoloChoices {
  import opened Wrappers
  import opened Calendar
  import opened Subscriptions
  import opened ConcurrentBilling
  import opened SequentialLaws
  import opened Reachability
  import opened SoloRuns

  /** Worker `w` alone takes the machine from `s` to database `db`, ends idle by `limit`, and has returned `returned`. */
  ghost predicate Finishes(plans: Catalogue, s: State, w: nat, db: Db, returned: seq<nat>, limit: Instant)
    requires w < |s.workers|
  {
    exists t: State ::
      && Reaches(plans, s, t, OnlyWorker(w))
      && t.db == db && t.returned == returned && t.workers == s.workers[w := Idle] && t.clock <= limit
  }

  lemma FinishesIdle(plans: Catalogue, s: State, w: nat, limit: Instant)
    requires w < |s.workers| && s.workers[w].Idle? && s.clock <= limit
    ensures Finishes(plans, s, w, s.db, s.returned, limit)
  {
    Stays(plans, s, OnlyWorker(w));
    assert s.workers == s.workers[w := Idle];
  }

  /** One stretch of the run, then the rest of it. */
  lemma ThenFinishes(plans: Catalogue, s: State, m: State, w: nat, db: Db, returned: seq<nat>, limit: Instant)
    requires w < |s.workers| == |m.workers| && m.workers[w := Idle] == s.workers[w := Idle]
    requires Reaches(plans, s, m, OnlyWorker(w)) && Finishes(plans, m, w, db, returned, limit)
    ensures Finishes(plans, s, w, db, returned, limit)
  {
    hide Reaches;
    var t: State :|
      && Reaches(plans, m, t, OnlyWorker(w))
      && t.db == db && t.returned == returned && t.workers == m.workers[w := Idle] && t.clock <= limit;
    ThenReaches(plans, s, m, t, OnlyWorker(w));
  }

  /** A step without an effect, then the rest of the run. */
  lemma MoveThenFinishes(plans: Catalogue, s: State, w: nat, pc: Pc, db: Db, returned: seq<nat>, limit: Instant)
    requires w < |s.workers| && Fits(s.db, s.workers[w])
    requires Act(plans, s.db, s.clock, s.workers[w]) == (pc, Quiet)
    requires Finishes(plans, At(s, w, pc), w, db, returned, limit)
    ensures Finishes(plans, s, w, db, returned, limit)
  {
    hide Reaches, Finishes, Act;
    Moves(plans, s, w, pc, OnlyWorker(w));
    ThenFinishes(plans, s, At(s, w, pc), w, db, returned, limit);
  }

  lemma WaitThenFinishes(plans: Catalogue, s: State, w: nat, until: Instant, db: Db, returned: seq<nat>, limit: Instant)
    requires w < |s.workers| && s.clock <= until
    requires Finishes(plans, s.(clock := until), w, db, returned, limit)
    ensures Finishes(plans, s, w, db, returned, limit)
  {
    hide Reaches, Finishes;
    Wait(plans, s, until, OnlyWorker(w));
    ThenFinishes(plans, s, s.(clock := until), w, db, returned, limit);
  }

  /** A transaction after its read: wait for the reading, stamp, commit. */
  function Committing(s: State, w: nat, job: Job, start: Instant): State
    requires w < |s.workers|
  {
    match Transact(s.db, Retiring(job.retire, start), job.user, job.plan, job.expires, start)
    case Ok(after) =>
      At(s, w, Continue(job.next, Some(|s.db.subs|))).(db := after, clock := start, makers := s.makers + [Opening])
    case Err(_) => At(s, w, Continue(job.next, None)).(clock := start)
  }

  lemma CommitThenFinishes(plans: Catalogue, s: State, w: nat, job: Job, start: Instant, db: Db, returned: seq<nat>, limit: Instant)
    requires w < |s.workers| && s.workers[w] == Stamp(job) && s.clock <= start
    requires Finishes(plans, Committing(s, w, job, start), w, db, returned, limit)
    ensures Finishes(plans, s, w, db, returned, limit)
  {
    hide Transact, Finishes, Reaches;
    var s1 := s.(clock := start);
    var s2 := At(s1, w, Commit(job, start));
    Steps(plans, s2, w, OnlyWorker(w));
    assert Advance(plans, s2, w) == Committing(s, w, job, start);
    ThenFinishes(plans, s2, Committing(s, w, job, start), w, db, returned, limit);
    MoveThenFinishes(plans, s1, w, Commit(job, start), db, returned, limit);
    WaitThenFinishes(plans, s, w, start, db, returned, limit);
  }

  // ---- A whole call --------------------------------------------------------------------------

  /** Begun at the clock as it stands, the call can run alone to this end. */
  ghost predicate CanEnd(plans: Catalogue, s: State, w: nat, call: Call, db: Db, returned: seq<nat>, limit: Instant) {
    exists es: seq<Event>, t: State ::
      RunsAlone(plans, s, w, call, es, t) && t.db == db && t.returned == returned && t.clock <= limit
  }

  lemma BeginThenEnds(plans: Catalogue, s: State, w: nat, call: Call, db: Db, returned: seq<nat>, limit: Instant)
    requires w < |s.workers| && s.workers[w].Idle?
    requires Finishes(plans, At(s, w, Start(plans, s.clock, call)), w, db, returned, limit)
    ensures CanEnd(plans, s, w, call, db, returned, limit)
  {
    hide Start, Run;
    var begun := At(s, w, Start(plans, s.clock, call));
    var t: State :|
      && Reaches(plans, begun, t, OnlyWorker(w))
      && t.db == db && t.returned == returned && t.workers == begun.workers[w := Idle] && t.clock <= limit;
    var es: seq<Event> :| AllOf(es, OnlyWorker(w)) && Run(plans, begun, es) == t;
    assert forall k :: 0 <= k < |es| ==> OnlyWorker(w)(es[k]);
    FirstEvent(plans, s, [Begin(w, call)] + es);
    assert ([Begin(w, call)] + es)[1..] == es;
    assert RunsAlone(plans, s, w, call, es, t);
  }

  /** A transaction that nothing follows. */
  lemma TransactionFinishes(plans: Catalogue, s: State, w: nat, job: Job, start: Instant)
    requires w < |s.workers| && s.workers[w] == Stamp(job) && job.next == Finish && s.clock <= start
    ensures var res := Transact(s.db, Retiring(job.retire, start), job.user, job.plan, job.expires, start);
            Finishes(plans, s, w, OrSame(s.db, res), s.returned, start)
  {
    hide Transact, Finishes;
    var t := Committing(s, w, job, start);
    var res := Transact(s.db, Retiring(job.retire, start), job.user, job.plan, job.expires, start);
    FinishesIdle(plans, t, w, start);
    CommitThenFinishes(plans, s, w, job, start, OrSame(s.db, res), s.returned, start);
  }

  lemma EnrollCanEnd(plans: Catalogue, s: State, w: nat, user: UserId, start: Instant)
    requires w < |s.workers| && s.workers[w].Idle? && s.clock <= start
    ensures CanEnd(plans, s, w, CallEnroll(user), OrSame(s.db, Enroll(s.db, plans, user, start)), s.returned, start)
  {
    hide Transact, Finishes, CanEnd;
    var begun := At(s, w, Start(plans, s.clock, CallEnroll(user)));
    match FreeJob(plans, Keep, user, Finish) {
      case Some(job) => TransactionFinishes(plans, begun, w, job, start);
      case None => FinishesIdle(plans, begun, w, start);
    }
    BeginThenEnds(plans, s, w, CallEnroll(user), OrSame(s.db, Enroll(s.db, plans, user, start)), s.returned, start);
  }

  lemma SubscribeCanEnd(plans: Catalogue, s: State, w: nat, user: UserId, slug: string, start: Instant)
    requires w < |s.workers| && s.workers[w].Idle? && s.clock <= start
    ensures CanEnd(plans, s, w, CallSubscribe(user, slug),
                   OrSame(s.db, Subscribe(s.db, plans, user, slug, start, start)), s.returned, start)
  {
    hide Transact, Finishes, CanEnd;
    var db := OrSame(s.db, Subscribe(s.db, plans, user, slug, start, start));
    var begun := At(s, w, ReadForSubscribe(user, slug));
    var pc := AfterSubscribeRead(plans, s.db, user, slug);
    if pc.Stamp? {
      TransactionFinishes(plans, At(begun, w, pc), w, pc.job, start);
    } else {
      FinishesIdle(plans, At(begun, w, pc), w, start);
    }
    MoveThenFinishes(plans, begun, w, pc, db, s.returned, start);
    BeginThenEnds(plans, s, w, CallSubscribe(user, slug), db, s.returned, start);
  }

  lemma CancelCanEnd(plans: Catalogue, s: State, w: nat, user: UserId, start: Instant)
    requires w < |s.workers| && s.workers[w].Idle? && s.clock <= start
    ensures CanEnd(plans, s, w, CallCancel(user), OrSame(s.db, Cancel(s.db, plans, user, start, start)), s.returned, start)
  {
    hide Transact, Finishes, CanEnd;
    var db := OrSame(s.db, Cancel(s.db, plans, user, start, start));
    var begun := At(s, w, ReadForCancel(user));
    var pc := AfterCancelRead(plans, s.db, user);
    if pc.Stamp? {
      TransactionFinishes(plans, At(begun, w, pc), w, pc.job, start);
    } else {
      FinishesIdle(plans, At(begun, w, pc), w, start);
    }
    MoveThenFinishes(plans, begun, w, pc, db, s.returned, start);
    BeginThenEnds(plans, s, w, CallCancel(user), db, s.returned, start);
  }

  // ---- Usage accounting ----------------------------------------------------------------------

  /** From a quota row in hand: check, and count or refuse. */
  lemma CountFinishes(plans: Catalogue, s: State, w: nat, q: nat, at: Instant, limit: Instant)
    requires w < |s.workers| && q < |s.db.quotas| && s.clock <= limit
    requires s.workers[w] == CheckLimit(q, s.db.quotas[q].requestsUsed, at)
    ensures Finishes(plans, s, w, Count(s.db, q).db, s.returned, limit)
  {
    hide Finishes, Reaches;
    var allowed, used := Limit(s.db, q), s.db.quotas[q].requestsUsed;
    if allowed != 0 && used >= allowed {
      FinishesIdle(plans, At(s, w, Idle), w, limit);
      MoveThenFinishes(plans, s, w, Idle, s.db, s.returned, limit);
    } else {
      var s1 := At(s, w, Increment(q, at));
      var t := Advance(plans, s1, w);
      FinishesIdle(plans, t, w, limit);
      Steps(plans, s1, w, OnlyWorker(w));
      ThenFinishes(plans, s1, t, w, t.db, t.returned, limit);
      MoveThenFinishes(plans, s, w, Increment(q, at), t.db, t.returned, limit);
    }
  }

  lemma OpeningFinishes(plans: Catalogue, s: State, w: nat, sub: nat, open: Instant)
    requires w < |s.workers| && sub < |s.db.subs| && s.workers[w] == ClockForWindow(sub) && s.clock <= open
    ensures Finishes(plans, s, w, OpenAndCount(s.db, sub, open), s.returned, open)
  {
    hide Finishes, Reaches, Count;
    var db := OpenAndCount(s.db, sub, open);
    var s1 := s.(clock := open);
    var s2 := At(s1, w, OpenWindow(sub, open));
    var s3 := Advance(plans, s2, w);
    if InsertWindow(s.db, sub, open).Ok? {
      CountFinishes(plans, s3, w, |s.db.quotas|, open, open);
    } else {
      FinishesIdle(plans, s3, w, open);
    }
    Steps(plans, s2, w, OnlyWorker(w));
    ThenFinishes(plans, s2, s3, w, db, s.returned, open);
    MoveThenFinishes(plans, s1, w, OpenWindow(sub, open), db, s.returned, open);
    WaitThenFinishes(plans, s, w, open, db, s.returned, open);
  }

  lemma ChargeFinishes(plans: Catalogue, s: State, w: nat, sub: nat, find: Instant, open: Instant)
    requires w < |s.workers| && sub < |s.db.subs| && s.workers[w] == ClockForQuota(sub) && s.clock <= find <= open
    ensures Finishes(plans, s, w, Charge(s.db, sub, find, open).db, s.returned, open)
  {
    hide Finishes, Count, InsertWindow;
    var db := Charge(s.db, sub, find, open).db;
    var s1 := s.(clock := find);
    var s2 := At(s1, w, QueryQuota(sub, find));
    match CurrentQuota(s.db.quotas, sub, find) {
      case Some(q) =>
        var pc := CheckLimit(q, s.db.quotas[q].requestsUsed, find);
        CountFinishes(plans, At(s2, w, pc), w, q, find, open);
        MoveThenFinishes(plans, s2, w, pc, db, s.returned, open);
      case None =>
        OpeningFinishes(plans, At(s2, w, ClockForWindow(sub)), w, sub, open);
        MoveThenFinishes(plans, s2, w, ClockForWindow(sub), db, s.returned, open);
    }
    MoveThenFinishes(plans, s1, w, QueryQuota(sub, find), db, s.returned, open);
    WaitThenFinishes(plans, s, w, find, db, s.returned, open);
  }

  lemma RecordCanEnd(plans: Catalogue, s: State, w: nat, user: UserId, t: Readings)
    requires w < |s.workers| && s.workers[w].Idle? && s.clock <= t.enroll <= t.find <= t.open
    ensures CanEnd(plans, s, w, CallRecord(user), RecordRequest(s.db, plans, user, t).db, s.returned, t.open)
  {
    hide Transact, Charge, Finishes, CanEnd;
    var db := RecordRequest(s.db, plans, user, t).db;
    var begun := At(s, w, ReadForRecord(user));
    var pc := AfterRecordRead(plans, s.db, user);
    var s1 := At(begun, w, pc);
    if pc.ClockForQuota? {
      ChargeFinishes(plans, s1, w, pc.sub, t.find, t.open);
    } else if pc.Stamp? {
      var s2 := Committing(s1, w, pc.job, t.enroll);
      if Enroll(s.db, plans, user, t.enroll).Ok? {
        EnrollAdds(s.db, plans, user, t.enroll);
        ChargeFinishes(plans, s2, w, |s.db.subs|, t.find, t.open);
      } else {
        FinishesIdle(plans, s2, w, t.open);
      }
      CommitThenFinishes(plans, s1, w, pc.job, t.enroll, db, s.returned, t.open);
    } else {
      FinishesIdle(plans, s1, w, t.open);
    }
    MoveThenFinishes(plans, begun, w, pc, db, s.returned, t.open);
    BeginThenEnds(plans, s, w, CallRecord(user), db, s.returned, t.open);
  }

  lemma EnrollAdds(db: Db, plans: Catalogue, user: UserId, start: Instant)
    requires Enroll(db, plans, user, start).Ok?
    ensures |Enroll(db, plans, user, start).value.subs| == |db.subs| + 1
  {
  }

  // ---- The sweep -----------------------------------------------------------------------------

  /** The sweep's loop: the same rows, the same commits, and the count handed back at the end. */
  lemma {:induction false} RowsFinish(plans: Catalogue, s: State, w: nat, rows: seq<nat>, k: nat, affected: nat,
                                      at: nat -> Instant, limit: Instant)
    requires w < |s.workers| && k <= |rows| && InTable(rows, s.db) && s.workers[w] == NextRow(rows[k..], affected)
    requires forall j :: k <= j < |rows| ==> s.clock <= at(rows[j]) <= limit
    requires forall j, l :: k <= j < l < |rows| ==> at(rows[j]) <= at(rows[l])
    requires s.clock <= limit
    ensures var r := SweepRows(s.db, plans, rows, k, at);
            Finishes(plans, s, w, r.db, s.returned + [affected + r.affected], limit)
    decreases |rows| - k
  {
    hide Transact, Finishes, Reaches;
    var r := SweepRows(s.db, plans, rows, k, at);
    var returned := s.returned + [affected + r.affected];
    if k == |rows| {
      var t := Advance(plans, s, w);
      FinishesIdle(plans, t, w, limit);
      Steps(plans, s, w, OnlyWorker(w));
      ThenFinishes(plans, s, t, w, t.db, t.returned, limit);
    } else {
      var row := rows[k];
      assert rows[k..][0] == row && rows[k..][1..] == rows[k + 1..];
      match FreeJob(plans, ExpireRow(row), s.db.subs[row].user, GoSweep(rows[k + 1..], affected))
      case None =>
        RowsFinish(plans, At(s, w, NextRow(rows[k + 1..], affected)), w, rows, k + 1, affected, at, limit);
        MoveThenFinishes(plans, s, w, NextRow(rows[k + 1..], affected), r.db, returned, limit);
      case Some(job) =>
        var s1 := At(s, w, Stamp(job));
        var s2 := Committing(s1, w, job, at(row));
        CommittedRows(s1, w, job, at(row));
        var done := affected + if ExpireOne(s.db, plans, row, at(row)).Ok? then 1 else 0;
        RowsFinish(plans, s2, w, rows, k + 1, done, at, limit);
        CommitThenFinishes(plans, s1, w, job, at(row), r.db, returned, limit);
        MoveThenFinishes(plans, s, w, Stamp(job), r.db, returned, limit);
    }
  }

  lemma CommittedRows(s: State, w: nat, job: Job, start: Instant)
    requires w < |s.workers|
    ensures |s.db.subs| <= |Committing(s, w, job, start).db.subs|
  {
  }

  lemma SweepCanEnd(plans: Catalogue, s: State, w: nat, at: nat -> Instant, limit: Instant)
    requires w < |s.workers| && s.workers[w].Idle? && s.clock <= limit
    requires InOrder(at, DueRows(s.db.subs, s.clock), s.clock, limit)
    ensures var r := Sweep(s.db, plans, s.clock, at);
            CanEnd(plans, s, w, CallSweep, r.db, s.returned + [r.affected], limit)
  {
    hide Finishes, CanEnd, SweepRows, DueRows;
    var rows, r := DueRows(s.db.subs, s.clock), Sweep(s.db, plans, s.clock, at);
    var begun := At(s, w, QueryDue(s.clock));
    assert rows[0..] == rows;
    RowsFinish(plans, At(begun, w, NextRow(rows, 0)), w, rows, 0, 0, at, limit);
    MoveThenFinishes(plans, begun, w, NextRow(rows, 0), r.db, s.returned + [r.affected], limit);
    BeginThenEnds(plans, s, w, CallSweep, r.db, s.returned + [r.affected], limit);
  }
}
