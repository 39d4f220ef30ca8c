/**
 What every committed change keeps: one ACTIVE row per user, none lost, and quota windows that never
 reach back into the opening one. The concurrent machine and the sequential services share these.
*/
module SubscriptionLaws {
  import opened Wrappers
  import opened Calendar
  import opened Subscriptions

  /** The partial unique constraint. */
  ghost predicate OneActive(subs: seq<Subscription>) {
    forall i, j :: 0 <= i < j < |subs| && subs[i].status == Active && subs[j].status == Active ==>
      subs[i].user != subs[j].user
  }

  /** A user who has a row at all has an ACTIVE one. */
  ghost predicate Covered(subs: seq<Subscription>) {
    forall i :: 0 <= i < |subs| ==> HasActive(subs, subs[i].user)
  }

  ghost predicate Known(subs: seq<Subscription>, user: UserId) {
    exists i :: 0 <= i < |subs| && subs[i].user == user
  }

  /** The row a transaction set out to retire belongs to its user. */
  ghost predicate Names(subs: seq<Subscription>, r: Retirement, user: UserId) {
    !r.Nothing? ==> r.row < |subs| && subs[r.row].user == user
  }

  /** What the transaction read is still so: the row is still ACTIVE, or the user still has none. */
  ghost predicate StillTrue(subs: seq<Subscription>, r: Retirement, user: UserId)
    requires Names(subs, r, user)
  {
    if r.Nothing? then !Known(subs, user) else subs[r.row].status == Active
  }

  lemma RetireRest(subs: seq<Subscription>, r: Retirement)
    ensures forall i :: 0 <= i < |subs| && (r.Nothing? || i != r.row) ==> Retire(subs, r)[i] == subs[i]
    ensures !r.Nothing? && r.row < |subs| ==>
              var s, s' := subs[r.row], Retire(subs, r)[r.row];
              s'.status in {Canceled, Expired} && SameContract(s, s')
  {
  }

  /** Everything about a row except what retiring it writes. */
  predicate SameContract(a: Subscription, b: Subscription) {
    a.user == b.user && a.plan == b.plan && a.startedAt == b.startedAt && a.expiresAt == b.expiresAt
  }

  /** After the retirement the user is free of ACTIVE rows exactly when nothing changed meanwhile. */
  lemma RoomMade(subs: seq<Subscription>, r: Retirement, user: UserId)
    requires OneActive(subs) && Covered(subs) && Names(subs, r, user)
    ensures HasActive(Retire(subs, r), user) <==> !StillTrue(subs, r, user)
  {
    RetireRest(subs, r);
    var after := Retire(subs, r);
    if StillTrue(subs, r, user) {
      assert forall i :: 0 <= i < |subs| && ActiveFor(after[i], user) ==> subs[i].user == user;
    } else {
      var i :| 0 <= i < |subs| && subs[i].user == user && (!r.Nothing? ==> i == r.row);
      assert HasActive(subs, subs[i].user);
      var j :| 0 <= j < |subs| && ActiveFor(subs[j], user);
      assert ActiveFor(after[j], user);
    }
  }

  /**
   The exact outcome of a commit whose read may be stale: refused by the unique constraint when the
   row read is no longer ACTIVE, refused on 29 February when the new row does not expire, and
   otherwise applied in full.
  */
  lemma CommitOutcome(db: Db, r: Retirement, user: UserId, plan: Plan, expires: bool, start: Instant)
    requires OneActive(db.subs) && Covered(db.subs) && Names(db.subs, r, user)
    ensures var res := Transact(db, r, user, plan, expires, start);
            if !StillTrue(db.subs, r, user) then res == Err(IntegrityError)
            else if !expires && IsLeapDay(start) then res == Err(InvalidDate)
            else res.Ok?
  {
    RoomMade(db.subs, r, user);
    PerpetualWindow(start);
  }

  /** An applied commit retires at most the ACTIVE row it read, adds one ACTIVE row, and keeps both laws. */
  lemma Committed(db: Db, r: Retirement, user: UserId, plan: Plan, expires: bool, start: Instant)
    requires OneActive(db.subs) && Covered(db.subs) && Names(db.subs, r, user)
    requires Transact(db, r, user, plan, expires, start).Ok?
    ensures var after := Transact(db, r, user, plan, expires, start).value;
            && OneActive(after.subs) && Covered(after.subs)
            && StillTrue(db.subs, r, user)
            && |after.subs| == |db.subs| + 1
            && after.subs[..|db.subs|] == Retire(db.subs, r)
            && ActiveFor(after.subs[|db.subs|], user)
            && after.subs[|db.subs|].canceledAt.None?
  {
    hide PerpetualEnd, Retire;
    RoomMade(db.subs, r, user);
    RetireRest(db.subs, r);
    var after := Transact(db, r, user, plan, expires, start).value.subs;
    var n := |db.subs|;
    assert ActiveFor(after[n], user);
    forall i | 0 <= i < |after|
      ensures HasActive(after, after[i].user)
    {
      if after[i].user != user {
        assert HasActive(db.subs, db.subs[i].user);
        var j :| 0 <= j < n && ActiveFor(db.subs[j], after[i].user);
        assert ActiveFor(after[j], after[i].user);
      }
    }
  }

  // ---- Quota windows -------------------------------------------------------------------------

  /** End of the window opened together with the subscription. */
  function OpeningEnd(s: Subscription): Option<Instant> {
    if s.expiresAt.Some? then s.expiresAt else PerpetualEnd(s.startedAt)
  }

  predicate RowOk(s: Subscription) {
    && (s.expiresAt.Some? ==> s.plan.durationDays > 0 && s.expiresAt.value == PeriodEnd(s.plan, s.startedAt))
    && OpeningEnd(s).Some? && s.startedAt < OpeningEnd(s).value
    && (s.status == Canceled <==> s.canceledAt.Some?)
    && s.status != PastDue
  }

  predicate IsOpening(db: Db, q: nat)
    requires q < |db.quotas| && db.quotas[q].sub < |db.subs|
  {
    var s := db.subs[db.quotas[q].sub];
    db.quotas[q].periodStart == s.startedAt && Some(db.quotas[q].periodEnd) == OpeningEnd(s)
  }

  predicate IsRotation(db: Db, q: nat)
    requires q < |db.quotas| && db.quotas[q].sub < |db.subs|
  {
    var s := db.subs[db.quotas[q].sub];
    && OpeningEnd(s).Some? && OpeningEnd(s).value <= db.quotas[q].periodStart
    && db.quotas[q].periodEnd == PeriodEnd(s.plan, db.quotas[q].periodStart)
  }

  ghost predicate HasOpening(db: Db, i: nat)
    requires forall q :: 0 <= q < |db.quotas| ==> db.quotas[q].sub < |db.subs|
  {
    exists q :: 0 <= q < |db.quotas| && db.quotas[q].sub == i && IsOpening(db, q)
  }

  /** Every subscription keeps its opening window; every other window starts after that one ended. */
  ghost predicate WindowsOk(db: Db) {
    && (forall i :: 0 <= i < |db.subs| ==> RowOk(db.subs[i]))
    && (forall q :: 0 <= q < |db.quotas| ==> db.quotas[q].sub < |db.subs|)
    && (forall q :: 0 <= q < |db.quotas| ==> IsOpening(db, q) || IsRotation(db, q))
    && (forall i :: 0 <= i < |db.subs| ==> HasOpening(db, i))
    && (forall q, r :: 0 <= q < r < |db.quotas| && db.quotas[q].sub == db.quotas[r].sub ==>
          db.quotas[q].periodStart != db.quotas[r].periodStart)
  }

  lemma NewRowOk(user: UserId, plan: Plan, expires: bool, start: Instant)
    requires expires ==> plan.durationDays > 0
    requires !expires ==> PerpetualEnd(start).Some?
    ensures RowOk(Subscription(user, plan, Active, start,
                               if expires then Some(PeriodEnd(plan, start)) else None, None, expires))
  {
    PerpetualWindow(start);
  }

  /** `after` has the contracts and windows of `db`, and perhaps more rows at the end. */
  ghost predicate Extends(db: Db, after: Db) {
    && |db.subs| <= |after.subs| && |db.quotas| <= |after.quotas|
    && (forall i :: 0 <= i < |db.subs| ==> SameContract(db.subs[i], after.subs[i]))
    && (forall q :: 0 <= q < |db.quotas| ==> SameWindow(db.quotas[q], after.quotas[q]))
  }

  predicate SameWindow(a: UsageQuota, b: UsageQuota) {
    a.sub == b.sub && a.periodStart == b.periodStart && a.periodEnd == b.periodEnd
  }

  lemma WindowsCarryOver(db: Db, after: Db)
    requires WindowsOk(db) && Extends(db, after)
    requires forall q :: 0 <= q < |after.quotas| ==> after.quotas[q].sub < |after.subs|
    ensures forall q :: 0 <= q < |db.quotas| ==>
              IsOpening(db, q) == IsOpening(after, q) && IsRotation(db, q) == IsRotation(after, q)
    ensures forall i :: 0 <= i < |db.subs| ==> HasOpening(after, i)
  {
    hide OpeningEnd, PeriodEnd, RowOk;
    forall q | 0 <= q < |db.quotas|
      ensures IsOpening(db, q) == IsOpening(after, q) && IsRotation(db, q) == IsRotation(after, q)
    {
      var i := db.quotas[q].sub;
      SameEnd(db.subs[i], after.subs[i]);
      assert SameWindow(db.quotas[q], after.quotas[q]);
    }
    forall i | 0 <= i < |db.subs|
      ensures HasOpening(after, i)
    {
      assert HasOpening(db, i);
      var q :| 0 <= q < |db.quotas| && db.quotas[q].sub == i && IsOpening(db, q);
      assert SameWindow(db.quotas[q], after.quotas[q]);
      assert after.quotas[q].sub == i && IsOpening(after, q);
    }
  }

  lemma SameEnd(a: Subscription, b: Subscription)
    requires SameContract(a, b)
    ensures OpeningEnd(a) == OpeningEnd(b)
  {
  }

  lemma CommitKeepsWindows(db: Db, r: Retirement, user: UserId, plan: Plan, expires: bool, start: Instant)
    requires OneActive(db.subs) && Covered(db.subs) && Names(db.subs, r, user)
    requires WindowsOk(db) && (expires ==> plan.durationDays > 0)
    requires Transact(db, r, user, plan, expires, start).Ok?
    ensures var after := Transact(db, r, user, plan, expires, start).value;
            && WindowsOk(after) && Extends(db, after)
            && |after.quotas| == |db.quotas| + 1 && after.quotas[..|db.quotas|] == db.quotas
            && after.quotas[|db.quotas|].sub == |db.subs|
            && after.quotas[|db.quotas|].requestsUsed == 0
            && IsOpening(after, |db.quotas|)
            && after.subs[|db.subs|].startedAt == start
  {
    var after := Transact(db, r, user, plan, expires, start).value;
    var n, m := |db.subs|, |db.quotas|;
    CommitExtends(db, r, user, plan, expires, start);
    hide PerpetualEnd, RowOk, Retire, PeriodEnd, OneActive, Covered, HasActive, Transact;
    WindowsCarryOver(db, after);
    assert after.quotas[m].sub == n && IsOpening(after, m);
    assert HasOpening(after, n);
  }

  lemma CommitExtends(db: Db, r: Retirement, user: UserId, plan: Plan, expires: bool, start: Instant)
    requires OneActive(db.subs) && Covered(db.subs) && Names(db.subs, r, user)
    requires WindowsOk(db) && (expires ==> plan.durationDays > 0)
    requires Transact(db, r, user, plan, expires, start).Ok?
    ensures var after := Transact(db, r, user, plan, expires, start).value;
            && Extends(db, after) && |after.subs| == |db.subs| + 1
            && |after.quotas| == |db.quotas| + 1 && after.quotas[..|db.quotas|] == db.quotas
            && after.quotas[|db.quotas|].sub == |db.subs|
            && after.quotas[|db.quotas|].requestsUsed == 0
            && IsOpening(after, |db.quotas|)
            && after.subs[|db.subs|].startedAt == start
            && forall i :: 0 <= i < |after.subs| ==> RowOk(after.subs[i])
  {
    Committed(db, r, user, plan, expires, start);
    NewRowOk(user, plan, expires, start);
    RetiredRowsOk(db.subs, r);
    hide PerpetualEnd, RowOk, Retire, PeriodEnd, OneActive, Covered, HasActive, HasOpening;
    var after := Transact(db, r, user, plan, expires, start).value;
    assert forall i :: 0 <= i < |db.subs| ==> after.subs[i] == Retire(db.subs, r)[i];
  }

  lemma RetiredRowsOk(subs: seq<Subscription>, r: Retirement)
    requires forall i :: 0 <= i < |subs| ==> RowOk(subs[i])
    requires !r.Nothing? && r.row < |subs| ==> subs[r.row].status == Active
    ensures forall i :: 0 <= i < |subs| ==> RowOk(Retire(subs, r)[i]) && SameContract(subs[i], Retire(subs, r)[i])
  {
    hide PerpetualEnd, PeriodEnd;
    RetireRest(subs, r);
  }

  /** The unique constraint on quotas: no two windows of one subscription start together. */
  ghost predicate OnePerStart(quotas: seq<UsageQuota>) {
    forall q, r :: 0 <= q < r < |quotas| ==>
      !(quotas[q].sub == quotas[r].sub && quotas[q].periodStart == quotas[r].periodStart)
  }

  /** A window is inserted, empty and one period long, exactly when the constraint survives it, and refused otherwise. */
  lemma WindowOutcome(db: Db, sub: nat, start: Instant)
    requires OnePerStart(db.quotas) && sub < |db.subs|
    ensures var days := db.subs[sub].plan.durationDays;
            var wider := db.quotas + [UsageQuota(sub, start, start + (if days > 0 then days else 30) * DAY, 0)];
            InsertWindow(db, sub, start) == if OnePerStart(wider) then Ok(Db(db.subs, wider)) else Err(IntegrityError)
  {
    var wider := db.quotas + [UsageQuota(sub, start, PeriodEnd(db.subs[sub].plan, start), 0)];
    if SlotTaken(db.quotas, sub, start) {
      var q :| 0 <= q < |db.quotas| && db.quotas[q].sub == sub && db.quotas[q].periodStart == start;
      assert wider[q] == db.quotas[q] && wider[|db.quotas|].periodStart == start;
    }
  }

  /** A window may be added once the opening one is over and its first instant is not taken. */
  lemma RotationKeepsWindows(db: Db, sub: nat, start: Instant)
    requires WindowsOk(db) && sub < |db.subs| && InsertWindow(db, sub, start).Ok?
    requires OpeningEnd(db.subs[sub]).value <= start
    ensures var after := InsertWindow(db, sub, start).value;
            && WindowsOk(after) && Extends(db, after) && after.subs == db.subs
            && |after.quotas| == |db.quotas| + 1 && after.quotas[..|db.quotas|] == db.quotas
            && IsRotation(after, |db.quotas|) && !IsOpening(after, |db.quotas|)
  {
    hide PerpetualEnd, PeriodEnd;
    var after := InsertWindow(db, sub, start).value;
    assert after.quotas[..|db.quotas|] == db.quotas;
    WindowsCarryOver(db, after);
    assert RowOk(db.subs[sub]);
  }

  lemma BumpKeepsWindows(db: Db, q: nat)
    requires WindowsOk(db) && q < |db.quotas|
    ensures WindowsOk(Bump(db, q)) && Extends(db, Bump(db, q))
    ensures forall k :: 0 <= k < |db.quotas| ==> IsOpening(db, k) == IsOpening(Bump(db, q), k)
  {
    hide PerpetualEnd, PeriodEnd, RowOk;
    WindowsCarryOver(db, Bump(db, q));
  }
}
