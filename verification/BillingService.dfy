/** The service methods over stored tables. Transactions save the tables and restore them on an error. */
module BillingService {
  import opened Wrappers
  import opened Calendar
  import opened Subscriptions

  class Billing {
    const plans: Catalogue
    var subs: seq<Subscription>
    var quotas: seq<UsageQuota>

    function View(): Db
      reads this
    {
      Db(subs, quotas)
    }

    constructor (plans: Catalogue)
      ensures this.plans == plans && View() == Db([], [])
    {
      this.plans := plans;
      subs, quotas := [], [];
    }

    /** Runs inside the caller's transaction: a failure may leave the inserted row to be rolled back. */
    method CreateSubscription(user: UserId, plan: Plan, expires: bool, start: Instant) returns (r: Result<nat, Error>)
      modifies this
      ensures match Subscriptions.CreateSubscription(old(View()), user, plan, expires, start)
              case Ok(db) => View() == db && r == Ok(|old(subs)|)
              case Err(e) => r == Err(e)
    {
      var end := PeriodEnd(plan, start);
      if ActiveRow(subs, user).Some? {
        return Err(IntegrityError);
      }
      var id := |subs|;
      subs := subs + [Subscription(user, plan, Active, start, if expires then Some(end) else None, None, expires)];
      var window := if expires then Some(end) else PerpetualEnd(start);
      if window.None? {
        return Err(InvalidDate);
      }
      quotas := quotas + [UsageQuota(id, start, window.value, 0)];
      return Ok(id);
    }

    method EnrollInFreePlan(user: UserId, start: Instant) returns (r: Result<nat, Error>)
      modifies this
      ensures match Enroll(old(View()), plans, user, start)
              case Ok(db) => View() == db && r == Ok(|old(subs)|)
              case Err(e) => View() == old(View()) && r == Err(e)
    {
      var savedSubs, savedQuotas := subs, quotas;
      var plan := GetPlanBySlug(plans, FREE);
      if plan.None? {
        return Err(PlanMissing);
      }
      r := CreateSubscription(user, plan.value, false, start);
      if r.Err? {
        subs, quotas := savedSubs, savedQuotas;
      }
    }

    method Subscribe(user: UserId, slug: string, at: Instant, start: Instant) returns (r: Result<nat, Error>)
      modifies this
      ensures match Subscriptions.Subscribe(old(View()), plans, user, slug, at, start)
              case Ok(db) => View() == db && r == Ok(|old(subs)|)
              case Err(e) => View() == old(View()) && r == Err(e)
    {
      var savedSubs, savedQuotas := subs, quotas;
      var plan := GetPlanBySlug(plans, slug);
      if plan.None? {
        return Err(PlanNotFound);
      }
      var current := ActiveRow(subs, user);
      if current.Some? && subs[current.value].plan.slug == plan.value.slug {
        return Err(AlreadySubscribed);
      }
      if current.Some? {
        var row := subs[current.value];
        subs := subs[current.value := row.(status := Canceled, canceledAt := Some(at))];
      }
      r := CreateSubscription(user, plan.value, plan.value.durationDays > 0, start);
      if r.Err? {
        subs, quotas := savedSubs, savedQuotas;
      }
    }

    method Cancel(user: UserId, at: Instant, start: Instant) returns (r: Result<nat, Error>)
      modifies this
      ensures match Subscriptions.Cancel(old(View()), plans, user, at, start)
              case Ok(db) => View() == db && r == Ok(|old(subs)|)
              case Err(e) => View() == old(View()) && r == Err(e)
    {
      var savedSubs := subs;
      var current := ActiveRow(subs, user);
      if current.None? {
        return Err(NoActiveSubscription);
      }
      var row := subs[current.value];
      subs := subs[current.value := row.(status := Canceled, canceledAt := Some(at), autoRenew := false)];
      r := EnrollInFreePlan(user, start);
      if r.Err? {
        subs := savedSubs;
      }
    }

    method CurrentOrRotateQuota(sub: nat, find: Instant, open: Instant) returns (r: Result<nat, Error>)
      requires sub < |subs|
      modifies this`quotas
      ensures match CurrentQuota(old(quotas), sub, find)
              case Some(q) => r == Ok(q) && quotas == old(quotas)
              case None =>
                match InsertWindow(old(View()), sub, open)
                case Ok(db) => View() == db && r == Ok(|old(quotas)|)
                case Err(e) => View() == old(View()) && r == Err(e)
    {
      var quota := CurrentQuota(quotas, sub, find);
      if quota.Some? {
        return Ok(quota.value);
      }
      if SlotTaken(quotas, sub, open) {
        return Err(IntegrityError);
      }
      r := Ok(|quotas|);
      quotas := quotas + [UsageQuota(sub, open, PeriodEnd(subs[sub].plan, open), 0)];
    }

    /** Not a transaction: what was enrolled or opened before an error stays. */
    method RecordRequest(user: UserId, t: Readings) returns (r: Result<nat, Error>)
      modifies this
      ensures Recorded(View(), r) == Subscriptions.RecordRequest(old(View()), plans, user, t)
    {
      var sub := ActiveRow(subs, user);
      if sub.None? {
        var enrolled := EnrollInFreePlan(user, t.enroll);
        if enrolled.Err? {
          return Err(enrolled.error);
        }
        sub := Some(enrolled.value);
      }
      r := CurrentOrRotateQuota(sub.value, t.find, t.open);
      if r.Err? {
        return;
      }
      var quota := r.value;
      var limit, used := Limit(View(), quota), quotas[quota].requestsUsed;
      if limit != 0 && used >= limit {
        return Err(QuotaExceeded(limit, used));
      }
      quotas := quotas[quota := quotas[quota].(requestsUsed := used + 1)];
    }

    /** The body of the sweep's loop: one transaction for one fetched row. */
    method ExpireRow(row: nat, user: UserId, start: Instant) returns (ok: bool)
      requires row < |subs| && subs[row].user == user
      modifies this
      ensures match ExpireOne(old(View()), plans, row, start)
              case Ok(db) => View() == db && ok
              case Err(_) => View() == old(View()) && !ok
    {
      var savedSubs := subs;
      subs := subs[row := subs[row].(status := Expired)];
      var r := EnrollInFreePlan(user, start);
      ok := r.Ok?;
      if !ok {
        subs := savedSubs;
      }
    }

    method ExpireDueSubscriptions(now: Instant, at: nat -> Instant) returns (affected: nat)
      modifies this
      ensures Swept(View(), affected) == Sweep(old(View()), plans, now, at)
    {
      hide ExpireOne;
      var rows := DueRows(subs, now);
      affected := 0;
      var k := 0;
      while k < |rows|
        invariant 0 <= k <= |rows| && InTable(rows, View())
        invariant var rest := SweepRows(View(), plans, rows, k, at);
                  Sweep(old(View()), plans, now, at) == Swept(rest.db, affected + rest.affected)
      {
        OneKeepsRows(View(), plans, rows[k], at(rows[k]));
        var ok := ExpireRow(rows[k], subs[rows[k]].user, at(rows[k]));
        if ok {
          affected := affected + 1;
        }
        k := k + 1;
      }
    }
  }

  lemma OneKeepsRows(db: Db, plans: Catalogue, row: nat, start: Instant)
    requires row < |db.subs|
    ensures ExpireOne(db, plans, row, start).Ok? ==>
              |ExpireOne(db, plans, row, start).value.subs| == |db.subs| + 1
  {
  }
}
