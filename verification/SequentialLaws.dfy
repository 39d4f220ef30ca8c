/** What the services promise when calls do not overlap: exact outcomes, and an invariant of every run. */
module SequentialLaws {
  import opened Wrappers
  import opened Calendar
  import opened Subscriptions
  import opened SubscriptionLaws
  import opened ConcurrentLaws

  // ---- Exact outcomes ------------------------------------------------------------------------

  /** The Free plan can be subscribed to. */
  predicate FreeOffered(plans: Catalogue) {
    "free" in plans && plans["free"].isActive
  }

  /** What a successful change adds: one ACTIVE row for its user, and that row's opening quota. */
  ghost predicate Opens(db: Db, after: Db, user: UserId, plan: Plan, expires: bool, start: Instant) {
    var n, m := |db.subs|, |db.quotas|;
    && |after.subs| == n + 1 && |after.quotas| == m + 1
    && after.subs[n] == Subscription(user, plan, Active, start,
                                     if expires then Some(start + plan.durationDays * DAY) else None, None, expires)
    && after.quotas[..m] == db.quotas
    && after.quotas[m] == UsageQuota(n, start, after.quotas[m].periodEnd, 0)
    && (if expires then after.quotas[m].periodEnd == start + plan.durationDays * DAY
        else FiftyYearsOn(start, after.quotas[m].periodEnd))
  }

  /** The user's ACTIVE row, if any, is CANCELED as of `at`; all other old rows are as they were. */
  ghost predicate Cancels(db: Db, after: Db, user: UserId, at: Instant, stopsRenewal: bool) {
    && |db.subs| <= |after.subs|
    && forall i :: 0 <= i < |db.subs| ==>
         var s := db.subs[i];
         after.subs[i] == if s.user != user || s.status != Active then s
                          else if stopsRenewal then s.(status := Canceled, canceledAt := Some(at), autoRenew := false)
                          else s.(status := Canceled, canceledAt := Some(at))
  }

  lemma CommitOpens(db: Db, r: Retirement, user: UserId, plan: Plan, expires: bool, start: Instant)
    requires OneActive(db.subs) && Covered(db.subs) && Names(db.subs, r, user) && (expires ==> plan.durationDays > 0)
    requires Transact(db, r, user, plan, expires, start).Ok?
    ensures Opens(db, Transact(db, r, user, plan, expires, start).value, user, plan, expires, start)
  {
    hide PerpetualEnd;
    Committed(db, r, user, plan, expires, start);
    PerpetualWindow(start);
  }

  lemma CommitCancels(db: Db, r: Retirement, user: UserId, plan: Plan, expires: bool, start: Instant, at: Instant)
    requires OneActive(db.subs) && Covered(db.subs) && Names(db.subs, r, user) && !r.Expire?
    requires !r.Nothing? ==> r.at == at
    requires Transact(db, r, user, plan, expires, start).Ok?
    ensures Cancels(db, Transact(db, r, user, plan, expires, start).value, user, at, r.CancelByUser?)
  {
    hide PerpetualEnd;
    Committed(db, r, user, plan, expires, start);
    var after := Transact(db, r, user, plan, expires, start).value;
    assert forall i :: 0 <= i < |db.subs| ==> after.subs[i] == after.subs[..|db.subs|][i];
  }

  /** Free enrolment is refused to any user who has had a subscription before, and on 29 February. */
  lemma EnrollOutcome(db: Db, plans: Catalogue, user: UserId, start: Instant)
    requires OneActive(db.subs) && Covered(db.subs)
    ensures var res := Enroll(db, plans, user, start);
            if !FreeOffered(plans) then res == Err(PlanMissing)
            else if exists i :: 0 <= i < |db.subs| && db.subs[i].user == user then res == Err(IntegrityError)
            else if IsLeapDay(start) then res == Err(InvalidDate)
            else res.Ok? && Opens(db, res.value, user, plans["free"], false, start) && db.subs <= res.value.subs
  {
    hide IsLeapDay, Transact, Opens;
    if FREE in plans && plans[FREE].isActive {
      CommitOutcome(db, Nothing, user, plans[FREE], false, start);
      if Transact(db, Nothing, user, plans[FREE], false, start).Ok? {
        CommitOpens(db, Nothing, user, plans[FREE], false, start);
        Committed(db, Nothing, user, plans[FREE], false, start);
      }
    }
  }

  /**
   `subscribe` succeeds exactly when the plan is offered, it is not the plan already held (even one
   that lapsed and awaits the sweep), and, for a plan that does not expire, the day is not 29 February.
  */
  lemma SubscribeOutcome(db: Db, plans: Catalogue, user: UserId, slug: string, at: Instant, start: Instant)
    requires OneActive(db.subs) && Covered(db.subs)
    ensures var res := Subscribe(db, plans, user, slug, at, start);
            if slug !in plans || !plans[slug].isActive then res == Err(PlanNotFound)
            else if exists i :: 0 <= i < |db.subs| && db.subs[i].user == user && db.subs[i].status == Active
                                && db.subs[i].plan.slug == plans[slug].slug
            then res == Err(AlreadySubscribed)
            else if plans[slug].durationDays == 0 && IsLeapDay(start) then res == Err(InvalidDate)
            else && res.Ok? && Opens(db, res.value, user, plans[slug], plans[slug].durationDays > 0, start)
                 && Cancels(db, res.value, user, at, false)
  {
    hide IsLeapDay, Transact, Opens, Cancels;
    if slug in plans && plans[slug].isActive {
      var plan := plans[slug];
      var r := match ActiveRow(db.subs, user) case None => Nothing case Some(i) => Replace(i, at);
      ActiveRowTrue(db.subs, user, r);
      CommitOutcome(db, r, user, plan, plan.durationDays > 0, start);
      if Transact(db, r, user, plan, plan.durationDays > 0, start).Ok? {
        CommitOpens(db, r, user, plan, plan.durationDays > 0, start);
        CommitCancels(db, r, user, plan, plan.durationDays > 0, start, at);
      }
    }
  }

  lemma ActiveRowTrue(subs: seq<Subscription>, user: UserId, r: Retirement)
    requires OneActive(subs) && Covered(subs)
    requires match ActiveRow(subs, user) case None => r.Nothing? case Some(i) => !r.Nothing? && r.row == i
    ensures Names(subs, r, user) && StillTrue(subs, r, user)
    ensures forall i :: 0 <= i < |subs| && ActiveFor(subs[i], user) ==> ActiveRow(subs, user) == Some(i)
  {
  }

  /** `cancel` always leaves a Free row behind, or refuses: no subscription, no Free plan, or 29 February. */
  lemma CancelOutcome(db: Db, plans: Catalogue, user: UserId, at: Instant, start: Instant)
    requires OneActive(db.subs) && Covered(db.subs)
    ensures var res := Cancel(db, plans, user, at, start);
            if forall i :: 0 <= i < |db.subs| ==> db.subs[i].user != user then res == Err(NoActiveSubscription)
            else if !FreeOffered(plans) then res == Err(PlanMissing)
            else if IsLeapDay(start) then res == Err(InvalidDate)
            else && res.Ok? && Opens(db, res.value, user, plans["free"], false, start)
                 && Cancels(db, res.value, user, at, true)
  {
    hide IsLeapDay, Transact, Opens, Cancels;
    match ActiveRow(db.subs, user) {
      case None =>
        ActiveRowTrue(db.subs, user, Nothing);
      case Some(i) =>
        assert Known(db.subs, user);
        if FREE in plans && plans[FREE].isActive {
          ActiveRowTrue(db.subs, user, CancelByUser(i, at));
          CommitOutcome(db, CancelByUser(i, at), user, plans[FREE], false, start);
          if Transact(db, CancelByUser(i, at), user, plans[FREE], false, start).Ok? {
            CommitOpens(db, CancelByUser(i, at), user, plans[FREE], false, start);
            CommitCancels(db, CancelByUser(i, at), user, plans[FREE], false, start, at);
          }
        }
    }
  }

  // ---- The sequential invariant --------------------------------------------------------------

  /** Windows of one subscription follow one another in the order they were opened. */
  ghost predicate Ordered(quotas: seq<UsageQuota>) {
    forall q, r :: 0 <= q < r < |quotas| && quotas[q].sub == quotas[r].sub ==>
      quotas[q].periodEnd <= quotas[r].periodStart
  }

  ghost predicate WithinLimits(db: Db) {
    forall q :: 0 <= q < |db.quotas| && Limit(db, q) > 0 ==> db.quotas[q].requestsUsed <= Limit(db, q)
  }

  ghost predicate SeqSound(db: Db, now: Instant) {
    DbSound(db, now) && Ordered(db.quotas) && WithinLimits(db)
  }

  lemma CommitSeqSound(db: Db, r: Retirement, user: UserId, plan: Plan, expires: bool, start: Instant, later: Instant)
    requires SeqSound(db, later) && Names(db.subs, r, user) && start <= later
    requires (expires ==> plan.durationDays > 0) && (r.Expire? ==> PastDueBy(db.subs[r.row], later))
    requires Transact(db, r, user, plan, expires, start).Ok?
    ensures var after := Transact(db, r, user, plan, expires, start).value;
            && SeqSound(after, later)
            && |after.subs| == |db.subs| + 1 && after.subs[|db.subs|].startedAt == start
            && Grows(db, after)
  {
    hide DbSound, OneActive, Covered, WindowsOk, PerpetualEnd, PeriodEnd, Grows, IsOpening;
    DbFacts(db, later);
    CommitSound(db, later, r, user, plan, expires, start);
    CommitKeepsWindows(db, r, user, plan, expires, start);
    var after := Transact(db, r, user, plan, expires, start).value;
    var m := |db.quotas|;
    forall q | 0 <= q < m
      ensures after.quotas[q] == db.quotas[q] && db.quotas[q].sub < |db.subs| && Limit(after, q) == Limit(db, q)
    {
      assert after.quotas[q] == after.quotas[..m][q];
      SubInRange(db, q);
      PlanFixed(db, after, q);
    }
  }

  lemma DbFacts(db: Db, now: Instant)
    requires DbSound(db, now)
    ensures OneActive(db.subs) && Covered(db.subs) && WindowsOk(db)
  {
  }

  lemma SubInRange(db: Db, q: nat)
    requires WindowsOk(db) && q < |db.quotas|
    ensures db.quotas[q].sub < |db.subs|
  {
  }

  lemma PlanFixed(db: Db, after: Db, q: nat)
    requires Grows(db, after) && q < |db.quotas| && db.quotas[q].sub < |db.subs|
    ensures Limit(after, q) == Limit(db, q)
  {
    assert SameWindow(db.quotas[q], after.quotas[q]);
    assert SameContract(db.subs[db.quotas[q].sub], after.subs[db.quotas[q].sub]);
  }

  /** A lookup that finds no window proves them all over, so the next one may open and cannot collide. */
  lemma AllOver(db: Db, now: Instant, sub: nat, find: Instant)
    requires SeqSound(db, now) && now <= find && sub < |db.subs|
    requires CurrentQuota(db.quotas, sub, find).None?
    ensures forall q :: 0 <= q < |db.quotas| && db.quotas[q].sub == sub ==>
              db.quotas[q].periodStart < db.quotas[q].periodEnd <= find
    ensures OpeningOver(db.subs[sub], find)
  {
    hide OneActive, Covered, PerpetualEnd, WithinLimits, Ordered;
    OpeningSeen(db, sub, find);
    forall q | 0 <= q < |db.quotas| && db.quotas[q].sub == sub
      ensures db.quotas[q].periodStart < db.quotas[q].periodEnd <= find
    {
      assert !Current(db.quotas[q], sub, find);
      assert RowOk(db.subs[sub]);
      assert IsOpening(db, q) || IsRotation(db, q);
    }
  }

  lemma CountSeqSound(db: Db, now: Instant, q: nat)
    requires SeqSound(db, now) && q < |db.quotas|
    ensures SeqSound(Count(db, q).db, now)
  {
    hide DbSound;
    if Count(db, q).outcome.Ok? {
      BumpSound(db, now, q);
    }
  }

  /** Charging a request keeps the windows in order, never meets the unique constraint, and opens at most one. */
  lemma ChargeSeqSound(db: Db, sub: nat, find: Instant, open: Instant, now: Instant)
    requires SeqSound(db, now) && sub < |db.subs| && now <= find <= open
    ensures SeqSound(Charge(db, sub, find, open).db, open)
    ensures Charge(db, sub, find, open).outcome != Err(IntegrityError)
    ensures Charge(db, sub, find, open).outcome.Err? ==> Charge(db, sub, find, open).db == db
  {
    hide DbSound, WindowsOk, PerpetualEnd, PeriodEnd;
    LaterSound(db, now, open);
    match CurrentQuota(db.quotas, sub, find)
    case Some(q) => CountSeqSound(db, open, q);
    case None =>
      AllOver(db, now, sub, find);
      assert !SlotTaken(db.quotas, sub, open);
      DbFacts(db, now);
      OpenSound(db, open, sub, open);
      var wider := InsertWindow(db, sub, open).value;
      forall q | 0 <= q < |db.quotas|
        ensures wider.quotas[q] == db.quotas[q] && Limit(wider, q) == Limit(db, q)
      {
      }
      CountSeqSound(wider, open, |db.quotas|);
  }

  predicate Timely(t: Readings, now: Instant, later: Instant) {
    now <= t.enroll <= t.find <= t.open <= later
  }

  lemma RecordSeqSound(db: Db, plans: Catalogue, user: UserId, t: Readings, now: Instant, later: Instant)
    requires SeqSound(db, now) && Timely(t, now, later)
    ensures var rec := RecordRequest(db, plans, user, t);
            SeqSound(rec.db, later) && rec.outcome != Err(IntegrityError) && (rec.outcome.Err? ==> rec.db == db)
  {
    hide DbSound, Charge, Transact;
    match ActiveRow(db.subs, user)
    case Some(i) =>
      ChargeSeqSound(db, i, t.find, t.open, now);
      LaterSound(Charge(db, i, t.find, t.open).db, t.open, later);
      LaterSound(db, now, later);
    case None =>
      LaterSound(db, now, later);
      if FREE in plans && plans[FREE].isActive {
        DbFacts(db, now);
        ActiveRowTrue(db.subs, user, Nothing);
        CommitOutcome(db, Nothing, user, plans[FREE], false, t.enroll);
        if Transact(db, Nothing, user, plans[FREE], false, t.enroll).Ok? {
          LaterSound(db, now, t.enroll);
          CommitSeqSound(db, Nothing, user, plans[FREE], false, t.enroll, t.enroll);
          var db1 := Transact(db, Nothing, user, plans[FREE], false, t.enroll).value;
          ChargeSeqSound(db1, |db.subs|, t.find, t.open, t.enroll);
          FreshCharge(db, plans[FREE], user, t);
          LaterSound(Charge(db1, |db.subs|, t.find, t.open).db, t.open, later);
        }
      }
  }

  /** A subscription enrolled within the same call has no used-up window, so its request counts. */
  lemma FreshCharge(db: Db, free: Plan, user: UserId, t: Readings)
    requires WindowsOk(db) && Transact(db, Nothing, user, free, false, t.enroll).Ok?
    ensures var db1 := Transact(db, Nothing, user, free, false, t.enroll).value;
            Charge(db1, |db.subs|, t.find, t.open).outcome.Ok? || Charge(db1, |db.subs|, t.find, t.open).outcome == Err(IntegrityError)
  {
    hide PerpetualEnd, PeriodEnd;
    var db1 := Transact(db, Nothing, user, free, false, t.enroll).value;
    forall q | 0 <= q < |db.quotas|
      ensures db1.quotas[q].sub != |db.subs|
    {
      assert db.quotas[q].sub < |db.subs|;
    }
  }

  /** The window is one of the subscription's and contains `now`. */
  predicate OpenAt(q: UsageQuota, sub: nat, now: Instant) {
    q.sub == sub && q.periodStart <= now < q.periodEnd
  }

  /** The window is current and its count stands at the plan's positive limit. */
  predicate Full(db: Db, q: nat, sub: nat, now: Instant)
    requires q < |db.quotas| && sub < |db.subs|
  {
    OpenAt(db.quotas[q], sub, now) && 0 < db.subs[sub].plan.requestQuota == db.quotas[q].requestsUsed
  }

  /**
   One request more on quota `q` and no other change: `q` is the window current at `find`, or, when the
   subscription has none, one new window that starts at `open` and lasts one period of the plan.
  */
  ghost predicate CountsOnce(db: Db, after: Db, sub: nat, q: nat, find: Instant, open: Instant)
    requires sub < |db.subs|
  {
    && after.subs == db.subs
    && if exists r :: 0 <= r < |db.quotas| && OpenAt(db.quotas[r], sub, find)
       then && q < |db.quotas| && OpenAt(db.quotas[q], sub, find)
            && after.quotas == db.quotas[q := db.quotas[q].(requestsUsed := db.quotas[q].requestsUsed + 1)]
       else
         var days := db.subs[sub].plan.durationDays;
         && q == |db.quotas|
         && after.quotas == db.quotas + [UsageQuota(sub, open, open + (if days > 0 then days else 30) * DAY, 1)]
  }

  /** A request by a user who has a subscription: refused, and nothing changes, or counted once. */
  ghost predicate ChargedExactly(db: Db, rec: Recorded, sub: nat, find: Instant, open: Instant)
    requires sub < |db.subs|
  {
    var limit := db.subs[sub].plan.requestQuota;
    if exists q :: 0 <= q < |db.quotas| && Full(db, q, sub, find)
    then rec == Recorded(db, Err(QuotaExceeded(limit, limit)))
    else rec.outcome.Ok? && CountsOnce(db, rec.db, sub, rec.outcome.value, find, open)
  }

  /**
   Between calls that do not overlap, a request is refused exactly when the current window of the
   user's subscription has reached a positive limit, or when a user without a subscription cannot be
   enrolled. A refusal changes nothing. An acceptance adds one to one window and, apart from the
   enrolment of a user without a subscription and a window opened for want of a current one, changes
   no other row of either table.
  */
  lemma RecordOutcome(db: Db, plans: Catalogue, user: UserId, t: Readings, now: Instant, later: Instant)
    requires SeqSound(db, now) && Timely(t, now, later)
    ensures var rec, active := RecordRequest(db, plans, user, t), ActiveRow(db.subs, user);
            if active.Some? then ChargedExactly(db, rec, active.value, t.find, t.open)
            else if !FreeOffered(plans) then rec == Recorded(db, Err(PlanMissing))
            else if IsLeapDay(t.enroll) then rec == Recorded(db, Err(InvalidDate))
            else
              var enrolled := Enroll(db, plans, user, t.enroll);
              && enrolled.Ok? && rec.outcome.Ok?
              && Opens(db, enrolled.value, user, plans["free"], false, t.enroll) && db.subs <= enrolled.value.subs
              && CountsOnce(enrolled.value, rec.db, |db.subs|, rec.outcome.value, t.find, t.open)
  {
    hide DbSound, Transact, IsLeapDay, Charge, ChargedExactly, Opens, CountsOnce;
    DbFacts(db, now);
    match ActiveRow(db.subs, user)
    case Some(i) => ChargeOutcome(db, i, t.find, t.open, now);
    case None =>
      ActiveRowTrue(db.subs, user, Nothing);
      EnrollOutcome(db, plans, user, t.enroll);
      if Enroll(db, plans, user, t.enroll).Ok? {
        EnrolledCharge(db, plans, user, t, now);
      }
  }

  lemma EnrolledCharge(db: Db, plans: Catalogue, user: UserId, t: Readings, now: Instant)
    requires SeqSound(db, now) && Timely(t, now, t.open) && Enroll(db, plans, user, t.enroll).Ok?
    ensures var db1 := Enroll(db, plans, user, t.enroll).value;
            && |db.subs| < |db1.subs|
            && Charge(db1, |db.subs|, t.find, t.open).outcome.Ok?
            && CountsOnce(db1, Charge(db1, |db.subs|, t.find, t.open).db, |db.subs|,
                          Charge(db1, |db.subs|, t.find, t.open).outcome.value, t.find, t.open)
  {
    hide DbSound, Transact, Charge, CountsOnce;
    DbFacts(db, now);
    LaterSound(db, now, t.enroll);
    CommitSeqSound(db, Nothing, user, plans[FREE], false, t.enroll, t.enroll);
    var db1 := Enroll(db, plans, user, t.enroll).value;
    FreshCharge(db, plans[FREE], user, t);
    ChargeSeqSound(db1, |db.subs|, t.find, t.open, t.enroll);
    ChargeOutcome(db1, |db.subs|, t.find, t.open, t.enroll);
  }

  lemma ChargeOutcome(db: Db, sub: nat, find: Instant, open: Instant, now: Instant)
    requires SeqSound(db, now) && sub < |db.subs| && now <= find <= open
    ensures ChargedExactly(db, Charge(db, sub, find, open), sub, find, open)
  {
    hide DbSound, PerpetualEnd, PeriodEnd;
    match CurrentQuota(db.quotas, sub, find)
    case Some(q) =>
      forall r | 0 <= r < |db.quotas| && Full(db, r, sub, find)
        ensures r == q
      {
        OneCurrent(db, now, q, r, sub, find);
      }
      if Count(db, q).outcome.Err? {
        assert Full(db, q, sub, find);
      }
    case None =>
      AllOver(db, now, sub, find);
      assert !SlotTaken(db.quotas, sub, open);
      CountedOnNew(db, sub, open);
  }

  lemma CountedOnNew(db: Db, sub: nat, open: Instant)
    requires sub < |db.subs| && InsertWindow(db, sub, open).Ok?
    ensures var days := db.subs[sub].plan.durationDays;
            var row := UsageQuota(sub, open, open + (if days > 0 then days else 30) * DAY, 1);
            Count(InsertWindow(db, sub, open).value, |db.quotas|)
            == Recorded(Db(db.subs, db.quotas + [row]), Ok(|db.quotas|))
  {
    var wider := InsertWindow(db, sub, open).value;
    var row := wider.quotas[|db.quotas|].(requestsUsed := 1);
    assert wider.quotas[|db.quotas| := row] == db.quotas + [row];
  }

  lemma OneCurrent(db: Db, now: Instant, q: nat, r: nat, sub: nat, t: Instant)
    requires SeqSound(db, now) && q < |db.quotas| && r < |db.quotas|
    requires Current(db.quotas[q], sub, t) && Current(db.quotas[r], sub, t)
    ensures q == r
  {
    hide DbSound;
  }

  // ---- Runs ----------------------------------------------------------------------------------

  datatype Op =
    | OpEnroll(user: UserId, start: Instant)
    | OpSubscribe(user: UserId, slug: string, at: Instant, start: Instant)
    | OpCancel(user: UserId, at: Instant, start: Instant)
    | OpSweep(now: Instant, readings: nat -> Instant)
    | OpRecord(user: UserId, t: Readings)

  function OrSame(db: Db, r: Result<Db, Error>): Db {
    if r.Ok? then r.value else db
  }

  function Do(plans: Catalogue, db: Db, op: Op): Db {
    match op
    case OpEnroll(user, start) => OrSame(db, Enroll(db, plans, user, start))
    case OpSubscribe(user, slug, at, start) => OrSame(db, Subscribe(db, plans, user, slug, at, start))
    case OpCancel(user, at, start) => OrSame(db, Cancel(db, plans, user, at, start))
    case OpSweep(now, at) => Sweep(db, plans, now, at).db
    case OpRecord(user, t) => RecordRequest(db, plans, user, t).db
  }

  /** The call's clock readings lie between the end of the previous call and its own end. */
  ghost predicate Within(op: Op, now: Instant, later: Instant) {
    now <= later &&
    match op
    case OpEnroll(_, start) => now <= start <= later
    case OpSubscribe(_, _, at, start) => now <= at <= start <= later
    case OpCancel(_, at, start) => now <= at <= start <= later
    case OpSweep(sweepNow, at) => now <= sweepNow <= later && forall i: nat :: sweepNow <= at(i) <= later
    case OpRecord(_, t) => Timely(t, now, later)
  }

  lemma {:induction false} SweepSeqSound(db: Db, plans: Catalogue, rows: seq<nat>, k: nat, at: nat -> Instant, later: Instant)
    requires SeqSound(db, later) && k <= |rows| && InTable(rows, db)
    requires forall j :: 0 <= j < |rows| ==> PastDueBy(db.subs[rows[j]], later)
    requires forall i: nat :: at(i) <= later
    ensures SeqSound(SweepRows(db, plans, rows, k, at).db, later)
    decreases |rows| - k
  {
    hide DbSound, Transact, Ordered, WithinLimits, Grows;
    if k < |rows| {
      var row := rows[k];
      if ExpireOne(db, plans, row, at(row)).Ok? {
        CommitSeqSound(db, Expire(row), db.subs[row].user, plans[FREE], false, at(row), later);
        var db1 := ExpireOne(db, plans, row, at(row)).value;
        StillDue(db, db1, later, rows);
        SweepSeqSound(db1, plans, rows, k + 1, at, later);
      } else {
        SweepSeqSound(db, plans, rows, k + 1, at, later);
      }
    }
  }

  lemma StillDue(db: Db, after: Db, later: Instant, rows: seq<nat>)
    requires Grows(db, after) && InTable(rows, db)
    requires forall j :: 0 <= j < |rows| ==> PastDueBy(db.subs[rows[j]], later)
    ensures InTable(rows, after) && forall j :: 0 <= j < |rows| ==> PastDueBy(after.subs[rows[j]], later)
  {
    forall j | 0 <= j < |rows|
      ensures rows[j] < |after.subs| && PastDueBy(after.subs[rows[j]], later)
    {
      assert SameContract(db.subs[rows[j]], after.subs[rows[j]]);
    }
  }

  /** Every call keeps the sequential invariant: ordered disjoint windows, limits kept, one ACTIVE row each. */
  lemma DoSeqSound(plans: Catalogue, db: Db, op: Op, now: Instant, later: Instant)
    requires SeqSound(db, now) && Within(op, now, later)
    ensures SeqSound(Do(plans, db, op), later)
  {
    hide DbSound, Transact, Ordered, WithinLimits, Grows;
    LaterSound(db, now, later);
    DbFacts(db, now);
    match op
    case OpEnroll(user, start) =>
      if Enroll(db, plans, user, start).Ok? {
        CommitSeqSound(db, Nothing, user, plans[FREE], false, start, later);
      }
    case OpSubscribe(user, slug, at, start) =>
      if Subscribe(db, plans, user, slug, at, start).Ok? {
        var r := match ActiveRow(db.subs, user) case None => Nothing case Some(i) => Replace(i, at);
        CommitSeqSound(db, r, user, plans[slug], plans[slug].durationDays > 0, start, later);
      }
    case OpCancel(user, at, start) =>
      if Cancel(db, plans, user, at, start).Ok? {
        CommitSeqSound(db, CancelByUser(ActiveRow(db.subs, user).value, at), user, plans[FREE], false, start, later);
      }
    case OpSweep(sweepNow, at) =>
      SweepSeqSound(db, plans, DueRows(db.subs, sweepNow), 0, at, later);
    case OpRecord(user, t) =>
      RecordSeqSound(db, plans, user, t, now, later);
  }

  function DoAll(plans: Catalogue, db: Db, ops: seq<Op>): Db {
    if ops == [] then db else Do(plans, DoAll(plans, db, ops[..|ops| - 1]), ops[|ops| - 1])
  }

  /** `clocks[k]` is the time between the k-th call and the next. */
  ghost predicate Chronological(ops: seq<Op>, clocks: seq<Instant>) {
    |clocks| == |ops| + 1 && forall k :: 0 <= k < |ops| ==> Within(ops[k], clocks[k], clocks[k + 1])
  }

  lemma EmptySeqSound(now: Instant)
    ensures SeqSound(Db([], []), now)
  {
  }

  /** Over any sequence of calls from empty tables, a subscription's windows are disjoint and in order. */
  lemma {:induction false} RunSeqSound(plans: Catalogue, ops: seq<Op>, clocks: seq<Instant>)
    requires Chronological(ops, clocks)
    ensures SeqSound(DoAll(plans, Db([], []), ops), clocks[|ops|])
  {
    hide Do, Within, SeqSound;
    if ops == [] {
      EmptySeqSound(clocks[0]);
    } else {
      var n := |ops| - 1;
      RunSeqSound(plans, ops[..n], clocks[..n + 1]);
      DoSeqSound(plans, DoAll(plans, Db([], []), ops[..n]), ops[n], clocks[n], clocks[n + 1]);
    }
  }
}
