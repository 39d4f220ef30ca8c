/** The expiry sweep run on its own: exactly which rows it expires, what it counts, and that it is idempotent. */
module SweepLaws {
  import opened Wrappers
  import opened Calendar
  import opened Subscriptions
  import opened SubscriptionLaws
  import opened SequentialLaws

  /** The row can be replaced by Free at its reading: Free is offered and the day is not 29 February. */
  predicate CanExpire(plans: Catalogue, start: Instant) {
    FreeOffered(plans) && !IsLeapDay(start)
  }

  /** An ACTIVE, non-expiring subscription to the Free plan. */
  predicate IsFreeRow(plans: Catalogue, s: Subscription) {
    s.status == Active && s.expiresAt.None? && "free" in plans && s.plan == plans["free"]
  }

  /** The rows, from the `k`-th on, that can be replaced at their readings. */
  function Expirable(plans: Catalogue, rows: seq<nat>, k: nat, at: nat -> Instant): (done: seq<nat>)
    requires k <= |rows|
    ensures |done| <= |rows| - k
    ensures |done| == |rows| - k <==> forall j :: k <= j < |rows| ==> CanExpire(plans, at(rows[j]))
    decreases |rows| - k
  {
    if k == |rows| then []
    else (if CanExpire(plans, at(rows[k])) then [rows[k]] else []) + Expirable(plans, rows, k + 1, at)
  }

  ghost predicate Distinct(rows: seq<nat>) {
    forall j, l :: 0 <= j < l < |rows| ==> rows[j] != rows[l]
  }

  ghost predicate StillActive(db: Db, rows: seq<nat>, k: nat) {
    InTable(rows, db) && forall j :: k <= j < |rows| ==> db.subs[rows[j]].status == Active
  }

  ghost predicate Among(rows: seq<nat>, k: nat, i: nat) {
    exists j :: k <= j < |rows| && rows[j] == i
  }

  /** Row `row` is succeeded by a Free row `sub` of its user, opened at `start` with quota `q`. */
  ghost predicate Replaces(db: Db, after: Db, plans: Catalogue, row: nat, start: Instant, sub: nat, q: nat) {
    && row < |db.subs| && sub < |after.subs| && q < |after.quotas| && "free" in plans
    && after.subs[sub] == Subscription(db.subs[row].user, plans["free"], Active, start, None, None, false)
    && after.quotas[q] == UsageQuota(sub, start, after.quotas[q].periodEnd, 0)
    && FiftyYearsOn(start, after.quotas[q].periodEnd)
  }

  /** Of the old rows exactly those among the rest that can be replaced become EXPIRED. */
  ghost predicate OldRowsExactly(db: Db, after: Db, plans: Catalogue, rows: seq<nat>, k: nat, at: nat -> Instant) {
    && |db.subs| <= |after.subs|
    && forall i :: 0 <= i < |db.subs| ==>
         after.subs[i] == if Among(rows, k, i) && CanExpire(plans, at(i))
                          then db.subs[i].(status := Expired) else db.subs[i]
  }

  /** Old quotas stay; the rows replaced get their successors in order, and nothing else is added. */
  ghost predicate SuccessorsExactly(db: Db, after: Db, plans: Catalogue, rows: seq<nat>, k: nat, at: nat -> Instant)
    requires k <= |rows|
  {
    var n, m, done := |db.subs|, |db.quotas|, Expirable(plans, rows, k, at);
    && |after.subs| == n + |done| && |after.quotas| == m + |done|
    && db.quotas <= after.quotas
    && forall j: nat :: j < |done| ==> Replaces(db, after, plans, done[j], at(done[j]), n + j, m + j)
  }

  /** What processing the rows from the `k`-th on does to both tables. */
  ghost predicate SweptExactly(db: Db, after: Db, plans: Catalogue, rows: seq<nat>, k: nat, at: nat -> Instant)
    requires k <= |rows|
  {
    OldRowsExactly(db, after, plans, rows, k, at) && SuccessorsExactly(db, after, plans, rows, k, at)
  }

  /** One iteration: the row becomes EXPIRED and its user gets a Free row, or nothing at all happens. */
  ghost predicate OneExactly(db: Db, next: Db, plans: Catalogue, row: nat, start: Instant)
    requires row < |db.subs|
  {
    if !CanExpire(plans, start) then next == db
    else
      && |next.subs| == |db.subs| + 1 && |next.quotas| == |db.quotas| + 1
      && (forall i :: 0 <= i < |db.subs| ==>
            next.subs[i] == if i == row then db.subs[i].(status := Expired) else db.subs[i])
      && db.quotas <= next.quotas
      && Replaces(db, next, plans, row, start, |db.subs|, |db.quotas|)
  }

  lemma OneRow(db: Db, plans: Catalogue, row: nat, start: Instant)
    requires OneActive(db.subs) && Covered(db.subs) && row < |db.subs| && db.subs[row].status == Active
    ensures var res := ExpireOne(db, plans, row, start);
            && (res.Ok? <==> CanExpire(plans, start))
            && OneActive(OrSame(db, res).subs) && Covered(OrSame(db, res).subs)
            && OneExactly(db, OrSame(db, res), plans, row, start)
  {
    hide PerpetualEnd, IsLeapDay, FiftyYearsOn;
    if FreeOffered(plans) {
      var user := db.subs[row].user;
      CommitOutcome(db, Expire(row), user, plans[FREE], false, start);
      if ExpireOne(db, plans, row, start).Ok? {
        Committed(db, Expire(row), user, plans[FREE], false, start);
        PerpetualWindow(start);
        var after := ExpireOne(db, plans, row, start).value;
        assert forall i :: 0 <= i < |db.subs| ==> after.subs[i] == after.subs[..|db.subs|][i];
      }
    }
  }

  lemma StillActiveNext(db: Db, next: Db, plans: Catalogue, rows: seq<nat>, k: nat, at: nat -> Instant)
    requires k < |rows| && Distinct(rows) && StillActive(db, rows, k)
    requires OneExactly(db, next, plans, rows[k], at(rows[k]))
    ensures StillActive(next, rows, k + 1)
  {
    hide CanExpire;
  }

  lemma OldRowsFurther(db: Db, next: Db, after: Db, plans: Catalogue, rows: seq<nat>, k: nat, at: nat -> Instant)
    requires k < |rows| && Distinct(rows) && InTable(rows, db)
    requires OneExactly(db, next, plans, rows[k], at(rows[k]))
    requires OldRowsExactly(next, after, plans, rows, k + 1, at)
    ensures OldRowsExactly(db, after, plans, rows, k, at)
  {
    hide CanExpire, Replaces;
    var row := rows[k];
    assert !Among(rows, k + 1, row);
    forall i | 0 <= i < |db.subs|
      ensures after.subs[i] == if Among(rows, k, i) && CanExpire(plans, at(i))
                               then db.subs[i].(status := Expired) else db.subs[i]
    {
      assert Among(rows, k, i) <==> i == row || Among(rows, k + 1, i);
    }
  }

  lemma SuccessorStays(db: Db, next: Db, after: Db, plans: Catalogue, row: nat, start: Instant, sub: nat, q: nat)
    requires Replaces(db, next, plans, row, start, sub, q)
    requires sub < |after.subs| && after.subs[sub] == next.subs[sub] && q < |after.quotas| && after.quotas[q] == next.quotas[q]
    ensures Replaces(db, after, plans, row, start, sub, q)
  {
    hide FiftyYearsOn;
  }

  lemma SameOwner(db: Db, next: Db, after: Db, plans: Catalogue, row: nat, start: Instant, sub: nat, q: nat)
    requires Replaces(next, after, plans, row, start, sub, q)
    requires row < |db.subs| && row < |next.subs| && db.subs[row].user == next.subs[row].user
    ensures Replaces(db, after, plans, row, start, sub, q)
  {
    hide FiftyYearsOn;
  }

  /** The first row's successor stays where it is. */
  lemma FirstSuccessor(db: Db, next: Db, after: Db, plans: Catalogue, rows: seq<nat>, k: nat, at: nat -> Instant)
    requires k < |rows| && InTable(rows, db) && CanExpire(plans, at(rows[k]))
    requires OneExactly(db, next, plans, rows[k], at(rows[k]))
    requires SweptExactly(next, after, plans, rows, k + 1, at)
    ensures Replaces(db, after, plans, rows[k], at(rows[k]), |db.subs|, |db.quotas|)
  {
    hide CanExpire, Expirable, FiftyYearsOn;
    assert !Among(rows, k + 1, |db.subs|);
    assert after.subs[|db.subs|] == next.subs[|db.subs|];
    SuccessorStays(db, next, after, plans, rows[k], at(rows[k]), |db.subs|, |db.quotas|);
  }

  /** The successors of the rest follow it. */
  lemma LaterSuccessor(db: Db, next: Db, after: Db, plans: Catalogue, rows: seq<nat>, k: nat, at: nat -> Instant, j: nat)
    requires k < |rows| && InTable(rows, db) && CanExpire(plans, at(rows[k]))
    requires OneExactly(db, next, plans, rows[k], at(rows[k]))
    requires SuccessorsExactly(next, after, plans, rows, k + 1, at) && j < |Expirable(plans, rows, k + 1, at)|
    ensures var row := Expirable(plans, rows, k + 1, at)[j];
            Replaces(db, after, plans, row, at(row), |next.subs| + j, |next.quotas| + j)
  {
    hide CanExpire, Expirable, FiftyYearsOn;
    var row := Expirable(plans, rows, k + 1, at)[j];
    assert Replaces(next, after, plans, row, at(row), |next.subs| + j, |next.quotas| + j);
    ExpirableAmong(plans, rows, k + 1, at, j);
    SameOwner(db, next, after, plans, row, at(row), |next.subs| + j, |next.quotas| + j);
  }

  lemma SuccessorsFurther(db: Db, next: Db, after: Db, plans: Catalogue, rows: seq<nat>, k: nat, at: nat -> Instant)
    requires k < |rows| && InTable(rows, db)
    requires OneExactly(db, next, plans, rows[k], at(rows[k]))
    requires SweptExactly(next, after, plans, rows, k + 1, at)
    ensures SuccessorsExactly(db, after, plans, rows, k, at)
  {
    hide CanExpire, Replaces, OldRowsExactly;
    var done, rest := Expirable(plans, rows, k, at), Expirable(plans, rows, k + 1, at);
    if CanExpire(plans, at(rows[k])) {
      FirstSuccessor(db, next, after, plans, rows, k, at);
      forall j: nat | j < |done|
        ensures Replaces(db, after, plans, done[j], at(done[j]), |db.subs| + j, |db.quotas| + j)
      {
        if j > 0 {
          LaterSuccessor(db, next, after, plans, rows, k, at, j - 1);
          assert done[j] == rest[j - 1];
        }
      }
    }
  }

  lemma {:induction false} ExpirableAmong(plans: Catalogue, rows: seq<nat>, k: nat, at: nat -> Instant, j: nat)
    requires k <= |rows| && j < |Expirable(plans, rows, k, at)|
    ensures Expirable(plans, rows, k, at)[j] in rows[k..]
    decreases |rows| - k
  {
    hide CanExpire;
    var head := if CanExpire(plans, at(rows[k])) then [rows[k]] else [];
    if j >= |head| {
      ExpirableAmong(plans, rows, k + 1, at, j - |head|);
      assert rows[k + 1..] == rows[k..][1..];
    }
  }

  lemma {:induction false} SweepRowsExactly(db: Db, plans: Catalogue, rows: seq<nat>, k: nat, at: nat -> Instant)
    requires OneActive(db.subs) && Covered(db.subs) && k <= |rows|
    requires Distinct(rows) && StillActive(db, rows, k)
    ensures var r := SweepRows(db, plans, rows, k, at);
            && r.affected == |Expirable(plans, rows, k, at)|
            && OneActive(r.db.subs) && Covered(r.db.subs)
            && SweptExactly(db, r.db, plans, rows, k, at)
    decreases |rows| - k
  {
    hide CanExpire, ExpireOne, OneActive, Covered, SweptExactly, OldRowsExactly, SuccessorsExactly, Distinct, StillActive;
    if k == |rows| {
      NoneLeft(db, plans, rows, at);
    } else {
      ActiveAt(db, rows, k);
      OneRow(db, plans, rows[k], at(rows[k]));
      var next := OrSame(db, ExpireOne(db, plans, rows[k], at(rows[k])));
      StillActiveNext(db, next, plans, rows, k, at);
      SweepRowsExactly(next, plans, rows, k + 1, at);
      var after := SweepRows(next, plans, rows, k + 1, at).db;
      BothParts(next, after, plans, rows, k + 1, at);
      OldRowsFurther(db, next, after, plans, rows, k, at);
      SuccessorsFurther(db, next, after, plans, rows, k, at);
      BothParts(db, after, plans, rows, k, at);
    }
  }

  lemma BothParts(db: Db, after: Db, plans: Catalogue, rows: seq<nat>, k: nat, at: nat -> Instant)
    requires k <= |rows|
    ensures SweptExactly(db, after, plans, rows, k, at) <==>
            OldRowsExactly(db, after, plans, rows, k, at) && SuccessorsExactly(db, after, plans, rows, k, at)
  {
  }

  lemma ActiveAt(db: Db, rows: seq<nat>, k: nat)
    requires StillActive(db, rows, k)
    ensures InTable(rows, db) && (k < |rows| ==> db.subs[rows[k]].status == Active)
  {
  }

  lemma NoneLeft(db: Db, plans: Catalogue, rows: seq<nat>, at: nat -> Instant)
    ensures SweptExactly(db, db, plans, rows, |rows|, at)
  {
  }

  /**
   The sweep at `now`, for any sound tables: the due rows, newest first, are the ACTIVE ones that have
   lapsed; a due row becomes EXPIRED exactly when Free can replace it at its reading; the result counts
   those rows; every other existing row and every existing quota is untouched; and the rows added are
   their Free successors, in the same order, each with its fifty-year window.
  */
  lemma SweepOutcome(db: Db, plans: Catalogue, now: Instant, at: nat -> Instant)
    requires OneActive(db.subs) && Covered(db.subs)
    ensures var r, rows := Sweep(db, plans, now, at), DueRows(db.subs, now);
            && LapsedNewestFirst(db.subs, now, rows)
            && r.affected == |Expirable(plans, rows, 0, at)|
            && OneActive(r.db.subs) && Covered(r.db.subs)
            && SweptExactly(db, r.db, plans, rows, 0, at)
  {
    hide SweptExactly, OneActive, Covered, StillActive, LapsedNewestFirst, SweepRows, DueRows, Distinct;
    DueAreLapsed(db, now);
    SweepRowsExactly(db, plans, DueRows(db.subs, now), 0, at);
  }

  /** The rows that are ACTIVE though no longer live, in the order of the default listing. */
  ghost predicate LapsedNewestFirst(subs: seq<Subscription>, now: Instant, rows: seq<nat>) {
    && (forall i: nat :: i in rows <==>
          i < |subs| && subs[i].status == Active && subs[i].expiresAt.Some? && subs[i].expiresAt.value <= now)
    && (forall i: nat :: i in rows <==> i < |subs| && subs[i].status == Active && !subs[i].IsActive(now))
    && (forall j, l :: 0 <= j < l < |rows| ==> rows[l] < rows[j])
  }

  lemma DueAreLapsed(db: Db, now: Instant)
    ensures LapsedNewestFirst(db.subs, now, DueRows(db.subs, now))
    ensures Distinct(DueRows(db.subs, now)) && StillActive(db, DueRows(db.subs, now), 0)
  {
    hide DueRows;
  }

  lemma AddedAreFree(db: Db, after: Db, plans: Catalogue, rows: seq<nat>, at: nat -> Instant)
    requires SweptExactly(db, after, plans, rows, 0, at)
    ensures forall i :: |db.subs| <= i < |after.subs| ==> IsFreeRow(plans, after.subs[i])
  {
    hide CanExpire, FiftyYearsOn;
    var done := Expirable(plans, rows, 0, at);
    forall i | |db.subs| <= i < |after.subs|
      ensures IsFreeRow(plans, after.subs[i])
    {
      var j := i - |db.subs|;
      assert Replaces(db, after, plans, done[j], at(done[j]), |db.subs| + j, |db.quotas| + j);
    }
  }

  /** The user of an expired row ends with one ACTIVE row, and it is a new, non-expiring Free one. */
  lemma ExpiredUsersGetFree(db: Db, plans: Catalogue, now: Instant, at: nat -> Instant, i: nat)
    requires OneActive(db.subs) && Covered(db.subs) && i < |db.subs| && Due(db.subs[i], now)
    requires CanExpire(plans, at(i))
    ensures var after := Sweep(db, plans, now, at).db.subs;
            var active := ActiveRow(after, db.subs[i].user);
            && after[i] == db.subs[i].(status := Expired)
            && active.Some? && active.value >= |db.subs|
            && IsFreeRow(plans, after[active.value])
            && (forall j :: 0 <= j < |after| && ActiveFor(after[j], db.subs[i].user) ==> j == active.value)
  {
    hide CanExpire, SweepRows, DueRows, OneActive, Covered;
    SweepOutcome(db, plans, now, at);
    var rows := DueRows(db.subs, now);
    var after := Sweep(db, plans, now, at).db.subs;
    SweptCovered(db, plans, now, at, i);
    var j :| 0 <= j < |rows| && rows[j] == i;
    assert Among(rows, 0, i);
    assert after[i].user == db.subs[i].user;
    OnlyActive(after, db.subs[i].user);
    NoOldActive(db, after, i);
    AddedAreFree(db, Sweep(db, plans, now, at).db, plans, rows, at);
  }

  lemma SweptCovered(db: Db, plans: Catalogue, now: Instant, at: nat -> Instant, i: nat)
    requires OneActive(db.subs) && Covered(db.subs) && i < |db.subs|
    ensures var after := Sweep(db, plans, now, at).db.subs;
            i < |after| && HasActive(after, after[i].user)
  {
    hide CanExpire, SweepRows, DueRows;
    SweepOutcome(db, plans, now, at);
  }

  /** The expired row was the user's one ACTIVE row, so the ACTIVE row afterwards is a new one. */
  lemma NoOldActive(db: Db, after: seq<Subscription>, i: nat)
    requires OneActive(db.subs) && i < |db.subs| && db.subs[i].status == Active && |db.subs| <= |after|
    requires after[i].status == Expired
    requires forall a :: 0 <= a < |db.subs| ==> after[a] == db.subs[a] || after[a] == db.subs[a].(status := Expired)
    ensures forall a :: 0 <= a < |db.subs| ==> !ActiveFor(after[a], db.subs[i].user)
  {
  }

  lemma OnlyActive(subs: seq<Subscription>, user: UserId)
    requires OneActive(subs) && HasActive(subs, user)
    ensures ActiveRow(subs, user).Some?
    ensures forall j :: 0 <= j < |subs| && ActiveFor(subs[j], user) ==> j == ActiveRow(subs, user).value
  {
  }

  /** Beside a user's ACTIVE row there is no other. */
  lemma NoOtherActive(subs: seq<Subscription>, user: UserId, a: nat)
    requires OneActive(subs) && a < |subs| && ActiveFor(subs[a], user)
    ensures forall i :: 0 <= i < |subs| && i != a ==> !ActiveFor(subs[i], user)
  {
  }

  lemma CoveredUser(subs: seq<Subscription>, user: UserId) returns (a: nat)
    requires Covered(subs) && Known(subs, user)
    ensures a < |subs| && ActiveFor(subs[a], user)
  {
    var k :| 0 <= k < |subs| && subs[k].user == user;
    assert HasActive(subs, subs[k].user);
    a :| 0 <= a < |subs| && ActiveFor(subs[a], user);
  }

  /** A user without a due row keeps every row as it was and gets none. */
  lemma OtherUsersUntouched(db: Db, plans: Catalogue, now: Instant, at: nat -> Instant, user: UserId)
    requires OneActive(db.subs) && Covered(db.subs)
    requires forall i :: 0 <= i < |db.subs| && db.subs[i].user == user ==> !Due(db.subs[i], now)
    ensures var after := Sweep(db, plans, now, at).db.subs;
            && (forall i :: 0 <= i < |db.subs| && db.subs[i].user == user ==> after[i] == db.subs[i])
            && (Known(db.subs, user) ==> forall i :: |db.subs| <= i < |after| ==> after[i].user != user)
  {
    hide CanExpire, SweepRows, DueRows, SuccessorsExactly, OneActive, Covered, Known, LapsedNewestFirst;
    SweepOutcome(db, plans, now, at);
    var rows := DueRows(db.subs, now);
    var after := Sweep(db, plans, now, at).db.subs;
    AddedAreFree(db, Sweep(db, plans, now, at).db, plans, rows, at);
    forall i | 0 <= i < |db.subs| && db.subs[i].user == user
      ensures after[i] == db.subs[i]
    {
      assert !Among(rows, 0, i);
    }
    if Known(db.subs, user) {
      var a := CoveredUser(db.subs, user);
      NoOtherActive(after, user, a);
    }
  }

  /**
   The sweep finishes its work exactly when every due row can be replaced: then the count is the
   number of due rows, none is left, and a second sweep at the same `now` counts 0 and changes nothing.
  */
  lemma SweepComplete(db: Db, plans: Catalogue, now: Instant, at: nat -> Instant, again: nat -> Instant)
    requires OneActive(db.subs) && Covered(db.subs)
    ensures var r, rows := Sweep(db, plans, now, at), DueRows(db.subs, now);
            var all := forall j :: 0 <= j < |rows| ==> CanExpire(plans, at(rows[j]));
            && (r.affected == |rows| <==> all)
            && ((forall i :: 0 <= i < |r.db.subs| ==> !Due(r.db.subs[i], now)) <==> all)
            && (all ==> Sweep(r.db, plans, now, again) == Swept(r.db, 0))
  {
    hide CanExpire, SweepRows, DueRows, SweptExactly, OneActive, Covered;
    SweepOutcome(db, plans, now, at);
    LeftDue(db, plans, now, at);
    var r, rows := Sweep(db, plans, now, at), DueRows(db.subs, now);
    if forall j :: 0 <= j < |rows| ==> CanExpire(plans, at(rows[j])) {
      assert forall i :: 0 <= i < |r.db.subs| ==> !Due(r.db.subs[i], now);
      NothingToSweep(r.db, plans, now, again);
    }
  }

  /** The rows still due after the sweep are the due ones it could not replace. */
  lemma LeftDue(db: Db, plans: Catalogue, now: Instant, at: nat -> Instant)
    requires OneActive(db.subs) && Covered(db.subs)
    ensures var after := Sweep(db, plans, now, at).db.subs;
            forall i :: 0 <= i < |after| ==>
              (Due(after[i], now) <==> i in DueRows(db.subs, now) && !CanExpire(plans, at(i)))
  {
    hide CanExpire, SweepRows, DueRows, SuccessorsExactly;
    SweepOutcome(db, plans, now, at);
    var rows := DueRows(db.subs, now);
    var after := Sweep(db, plans, now, at).db.subs;
    AddedAreFree(db, Sweep(db, plans, now, at).db, plans, rows, at);
    forall i | 0 <= i < |after|
      ensures Due(after[i], now) <==> i in rows && !CanExpire(plans, at(i))
    {
      assert Among(rows, 0, i) <==> i in rows;
    }
  }

  lemma NothingToSweep(db: Db, plans: Catalogue, now: Instant, at: nat -> Instant)
    requires forall i :: 0 <= i < |db.subs| ==> !Due(db.subs[i], now)
    ensures Sweep(db, plans, now, at) == Swept(db, 0)
  {
  }
}
