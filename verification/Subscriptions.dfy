/**
 Plans, subscriptions and usage quotas as rows of a database value, the read-side queries, and each
 service operation as a function from the database before to the database after. Rows are never
 deleted, so a row's position stands for its primary key and is also its creation order.
*/
module Subscriptions {
  import opened Wrappers
  import opened Calendar

  type UserId = nat

  const FREE := "free"

  /** `requestQuota` 0 is unlimited; `durationDays` 0 is a plan that does not expire. */
  datatype Plan = Plan(slug: string, requestQuota: nat, maxApiKeys: nat, durationDays: nat, isActive: bool)

  type Catalogue = map<string, Plan>

  datatype Status = Active | Canceled | Expired | PastDue

  datatype Subscription = Subscription(
    user: UserId, plan: Plan, status: Status, startedAt: Instant,
    expiresAt: Option<Instant>, canceledAt: Option<Instant>, autoRenew: bool)
  {
    predicate IsActive(now: Instant) {
      status == Active && !(expiresAt.Some? && expiresAt.value <= now)
    }
  }

  datatype UsageQuota = UsageQuota(sub: nat, periodStart: Instant, periodEnd: Instant, requestsUsed: nat) {
    predicate Contains(t: Instant) {
      periodStart <= t < periodEnd
    }
  }

  datatype Db = Db(subs: seq<Subscription>, quotas: seq<UsageQuota>)

  /** IntegrityError is a unique constraint refusing a row; InvalidDate is the ValueError of `replace`. */
  datatype Error =
    | PlanMissing | PlanNotFound | AlreadySubscribed | NoActiveSubscription
    | QuotaExceeded(limit: nat, used: nat) | IntegrityError | InvalidDate

  // ---- Selectors -----------------------------------------------------------------------------

  function GetPlanBySlug(plans: Catalogue, slug: string): Option<Plan> {
    if slug in plans && plans[slug].isActive then Some(plans[slug]) else None
  }

  predicate ActiveFor(s: Subscription, user: UserId) {
    s.user == user && s.status == Active
  }

  predicate HasActive(subs: seq<Subscription>, user: UserId) {
    exists i :: 0 <= i < |subs| && ActiveFor(subs[i], user)
  }

  /** The newest ACTIVE row of the user, whether or not its `expires_at` has passed. */
  function ActiveRow(subs: seq<Subscription>, user: UserId): (r: Option<nat>)
    ensures r.Some? ==> r.value < |subs| && ActiveFor(subs[r.value], user)
    ensures r.Some? ==> forall i :: r.value < i < |subs| ==> !ActiveFor(subs[i], user)
    ensures r.None? ==> !HasActive(subs, user)
  {
    if subs == [] then None
    else
      var last := |subs| - 1;
      if ActiveFor(subs[last], user) then Some(last) else ActiveRow(subs[..last], user)
  }

  predicate Current(q: UsageQuota, sub: nat, now: Instant) {
    q.sub == sub && q.Contains(now)
  }

  /** Among the subscription's quota rows whose window contains `now`, one that starts last. */
  function CurrentQuota(quotas: seq<UsageQuota>, sub: nat, now: Instant): (r: Option<nat>)
    ensures r.Some? ==> r.value < |quotas| && Current(quotas[r.value], sub, now)
    ensures r.Some? ==> forall i :: 0 <= i < |quotas| && Current(quotas[i], sub, now) ==>
                          quotas[i].periodStart <= quotas[r.value].periodStart
    ensures r.None? ==> forall i :: 0 <= i < |quotas| ==> !Current(quotas[i], sub, now)
  {
    if quotas == [] then None
    else
      var last := |quotas| - 1;
      var best := CurrentQuota(quotas[..last], sub, now);
      if Current(quotas[last], sub, now)
         && (best.Some? ==> quotas[best.value].periodStart <= quotas[last].periodStart)
      then Some(last) else best
  }

  function PeriodEnd(plan: Plan, start: Instant): Instant {
    start + (if plan.durationDays == 0 then 30 else plan.durationDays) * DAY
  }

  /** ACTIVE rows whose `expires_at` has passed, newest first. */
  predicate Due(s: Subscription, now: Instant) {
    s.status == Active && s.expiresAt.Some? && s.expiresAt.value <= now
  }

  function DueRows(subs: seq<Subscription>, now: Instant): (rows: seq<nat>)
    ensures forall k :: 0 <= k < |rows| ==> rows[k] < |subs| && Due(subs[rows[k]], now)
    ensures forall i :: 0 <= i < |subs| && Due(subs[i], now) ==> i in rows
    ensures forall k, l :: 0 <= k < l < |rows| ==> rows[l] < rows[k]
  {
    if subs == [] then []
    else
      var last := |subs| - 1;
      (if Due(subs[last], now) then [last] else []) + DueRows(subs[..last], now)
  }

  // ---- Enrolment and changes -----------------------------------------------------------------

  /** What a transaction does to the row it read earlier, before it inserts the new one. */
  datatype Retirement =
    | Nothing
    | Replace(row: nat, at: Instant)
    | CancelByUser(row: nat, at: Instant)
    | Expire(row: nat)

  function Retire(subs: seq<Subscription>, r: Retirement): (after: seq<Subscription>)
    ensures |after| == |subs|
  {
    if r.Nothing? || r.row >= |subs| then subs
    else
      var s := subs[r.row];
      subs[r.row := match r
        case Replace(_, at) => s.(status := Canceled, canceledAt := Some(at))
        case CancelByUser(_, at) => s.(status := Canceled, canceledAt := Some(at), autoRenew := false)
        case Expire(_) => s.(status := Expired)]
  }

  predicate SlotTaken(quotas: seq<UsageQuota>, sub: nat, start: Instant) {
    exists q :: 0 <= q < |quotas| && quotas[q].sub == sub && quotas[q].periodStart == start
  }

  /** Insert the ACTIVE row, then its opening quota; the caller's transaction undoes a failure. */
  function CreateSubscription(db: Db, user: UserId, plan: Plan, expires: bool, start: Instant): Result<Db, Error> {
    var end := PeriodEnd(plan, start);
    var window := if expires then Some(end) else PerpetualEnd(start);
    if HasActive(db.subs, user) then Err(IntegrityError)
    else if window.None? then Err(InvalidDate)
    else
      var sub := Subscription(user, plan, Active, start, if expires then Some(end) else None, None, expires);
      Ok(Db(db.subs + [sub], db.quotas + [UsageQuota(|db.subs|, start, window.value, 0)]))
  }

  /** One commit: retire the row read earlier and create its successor, or leave everything alone. */
  function Transact(db: Db, r: Retirement, user: UserId, plan: Plan, expires: bool, start: Instant): Result<Db, Error> {
    CreateSubscription(db.(subs := Retire(db.subs, r)), user, plan, expires, start)
  }

  function Enroll(db: Db, plans: Catalogue, user: UserId, start: Instant): Result<Db, Error> {
    match GetPlanBySlug(plans, FREE)
    case None => Err(PlanMissing)
    case Some(free) => Transact(db, Nothing, user, free, false, start)
  }

  function Subscribe(db: Db, plans: Catalogue, user: UserId, slug: string, at: Instant, start: Instant): Result<Db, Error> {
    match GetPlanBySlug(plans, slug)
    case None => Err(PlanNotFound)
    case Some(plan) =>
      match ActiveRow(db.subs, user)
      case None => Transact(db, Nothing, user, plan, plan.durationDays > 0, start)
      case Some(i) =>
        if db.subs[i].plan.slug == plan.slug then Err(AlreadySubscribed)
        else Transact(db, Replace(i, at), user, plan, plan.durationDays > 0, start)
  }

  function Cancel(db: Db, plans: Catalogue, user: UserId, at: Instant, start: Instant): Result<Db, Error> {
    match ActiveRow(db.subs, user)
    case None => Err(NoActiveSubscription)
    case Some(i) =>
      match GetPlanBySlug(plans, FREE)
      case None => Err(PlanMissing)
      case Some(free) => Transact(db, CancelByUser(i, at), user, free, false, start)
  }

  // ---- Usage accounting ----------------------------------------------------------------------

  datatype Recorded = Recorded(db: Db, outcome: Result<nat, Error>)

  function InsertWindow(db: Db, sub: nat, start: Instant): Result<Db, Error>
    requires sub < |db.subs|
  {
    if SlotTaken(db.quotas, sub, start) then Err(IntegrityError)
    else Ok(db.(quotas := db.quotas + [UsageQuota(sub, start, PeriodEnd(db.subs[sub].plan, start), 0)]))
  }

  function Bump(db: Db, q: nat): Db
    requires q < |db.quotas|
  {
    db.(quotas := db.quotas[q := db.quotas[q].(requestsUsed := db.quotas[q].requestsUsed + 1)])
  }

  function Limit(db: Db, q: nat): nat
    requires q < |db.quotas|
  {
    var sub := db.quotas[q].sub;
    if sub < |db.subs| then db.subs[sub].plan.requestQuota else 0
  }

  function Count(db: Db, q: nat): Recorded
    requires q < |db.quotas|
  {
    var limit, used := Limit(db, q), db.quotas[q].requestsUsed;
    if limit != 0 && used >= limit then Recorded(db, Err(QuotaExceeded(limit, used)))
    else Recorded(Bump(db, q), Ok(q))
  }

  /** Find the current window with the reading `find`, or open one at the later reading `open`. */
  function Charge(db: Db, sub: nat, find: Instant, open: Instant): Recorded
    requires sub < |db.subs|
  {
    match CurrentQuota(db.quotas, sub, find)
    case Some(q) => Count(db, q)
    case None =>
      match InsertWindow(db, sub, open)
      case Err(e) => Recorded(db, Err(e))
      case Ok(db1) => Count(db1, |db.quotas|)
  }

  /** Clock readings of one `record_request`: enrolment, lookup, and opening a window. */
  datatype Readings = Readings(enroll: Instant, find: Instant, open: Instant)

  function RecordRequest(db: Db, plans: Catalogue, user: UserId, t: Readings): Recorded {
    match ActiveRow(db.subs, user)
    case Some(i) => Charge(db, i, t.find, t.open)
    case None =>
      match Enroll(db, plans, user, t.enroll)
      case Err(e) => Recorded(db, Err(e))
      case Ok(db1) => Charge(db1, |db.subs|, t.find, t.open)
  }

  // ---- Expiry sweep --------------------------------------------------------------------------

  datatype Swept = Swept(db: Db, affected: nat)

  function ExpireOne(db: Db, plans: Catalogue, row: nat, start: Instant): Result<Db, Error>
    requires row < |db.subs|
  {
    match GetPlanBySlug(plans, FREE)
    case None => Err(PlanMissing)
    case Some(free) => Transact(db, Expire(row), db.subs[row].user, free, false, start)
  }

  /**
   The loop over the fetched rows from the `k`-th on; `at(i)` is the clock reading taken while row
   `i` is processed.
  */
  function SweepRows(db: Db, plans: Catalogue, rows: seq<nat>, k: nat, at: nat -> Instant): (r: Swept)
    requires k <= |rows| && InTable(rows, db)
    ensures |db.subs| <= |r.db.subs|
    decreases |rows| - k
  {
    if k == |rows| then Swept(db, 0)
    else
      match ExpireOne(db, plans, rows[k], at(rows[k]))
      case Err(_) => SweepRows(db, plans, rows, k + 1, at)
      case Ok(db1) =>
        var rest := SweepRows(db1, plans, rows, k + 1, at);
        Swept(rest.db, rest.affected + 1)
  }

  predicate InTable(rows: seq<nat>, db: Db) {
    forall k :: 0 <= k < |rows| ==> rows[k] < |db.subs|
  }

  function Sweep(db: Db, plans: Catalogue, now: Instant, at: nat -> Instant): Swept {
    SweepRows(db, plans, DueRows(db.subs, now), 0, at)
  }
}
