/**
 Reachable states in which the services refuse what they are there to do: on 29 February nothing that
 needs a fifty-year window succeeds, and a lapsed subscription that awaits the sweep blocks its renewal.
 The outcome lemmas of `SequentialLaws` and `SweepLaws` say exactly when; here are the inputs.
*/
module Refusals {
  import opened Wrappers
  import opened Calendar
  import opened Subscriptions
  import opened SubscriptionLaws
  import opened SequentialLaws

  /** Some instant of 29 February in the leap year `y`. */
  function LeapDay(y: int, micros: nat): Instant {
    Ordinal(Date(y, 2, 29)) * DAY + micros
  }

  /** The tables after a first subscription to the offered plan `slug`, at `start`. */
  function FirstSubscription(plans: Catalogue, user: UserId, slug: string, start: Instant): Db
    requires slug in plans && plans[slug].isActive && plans[slug].durationDays > 0
  {
    var expires := Some(start + plans[slug].durationDays * DAY);
    Db([Subscription(user, plans[slug], Active, start, expires, None, true)],
       [UsageQuota(0, start, expires.value, 0)])
  }

  /** They are what `subscribe` makes of empty tables. */
  lemma FirstSubscribes(plans: Catalogue, user: UserId, slug: string, start: Instant)
    requires slug in plans && plans[slug].isActive && plans[slug].durationDays > 0
    ensures Subscribe(Db([], []), plans, user, slug, start, start) == Ok(FirstSubscription(plans, user, slug, start))
    ensures OneActive(FirstSubscription(plans, user, slug, start).subs)
    ensures Covered(FirstSubscription(plans, user, slug, start).subs)
    ensures ActiveFor(FirstSubscription(plans, user, slug, start).subs[0], user)
  {
    var db := FirstSubscription(plans, user, slug, start);
    assert Retire([], Nothing) == [];
    assert [] + db.subs == db.subs && [] + db.quotas == db.quotas;
    assert ActiveFor(db.subs[0], user);
  }

  /** Nobody can be enrolled on 29 February. */
  lemma EnrollRefusedOnLeapDay(plans: Catalogue, user: UserId, y: int, micros: nat)
    requires FREE in plans && plans[FREE].isActive && IsLeap(y) && micros < DAY
    ensures Enroll(Db([], []), plans, user, LeapDay(y, micros)) == Err(InvalidDate)
  {
    hide Ordinal, IsLeapDay;
    LeapDayOf(y, micros);
    EnrollOutcome(Db([], []), plans, user, LeapDay(y, micros));
  }

  /** A paying subscriber cannot cancel on 29 February, whenever the subscription began. */
  lemma CancelRefusedOnLeapDay(plans: Catalogue, user: UserId, slug: string, start: Instant, y: int, micros: nat)
    requires slug in plans && plans[slug].isActive && plans[slug].durationDays > 0
    requires FREE in plans && plans[FREE].isActive && IsLeap(y) && micros < DAY
    ensures var db, t := FirstSubscription(plans, user, slug, start), LeapDay(y, micros);
            Cancel(db, plans, user, t, t) == Err(InvalidDate)
  {
    hide Ordinal, IsLeapDay, Cancel, FirstSubscription;
    var t := LeapDay(y, micros);
    LeapDayOf(y, micros);
    FirstSubscribes(plans, user, slug, start);
    CancelOutcome(FirstSubscription(plans, user, slug, start), plans, user, t, t);
  }

  /** A sweep on 29 February expires nothing: a subscription that ran out that day is due before and after. */
  lemma SweepSkipsOnLeapDay(plans: Catalogue, user: UserId, slug: string, y: int, micros: nat)
    requires slug in plans && plans[slug].isActive && plans[slug].durationDays > 0
    requires FREE in plans && plans[FREE].isActive && IsLeap(y) && micros < DAY
    ensures var t := LeapDay(y, micros);
            var db := FirstSubscription(plans, user, slug, t - plans[slug].durationDays * DAY);
            && Due(db.subs[0], t)
            && Sweep(db, plans, t, _ => t) == Swept(db, 0)
  {
    hide Ordinal, IsLeapDay, Transact;
    var t := LeapDay(y, micros);
    var db := FirstSubscription(plans, user, slug, t - plans[slug].durationDays * DAY);
    LeapDayOf(y, micros);
    FirstSubscribes(plans, user, slug, t - plans[slug].durationDays * DAY);
    assert DueRows(db.subs, t) == [0] by {
      assert db.subs[..0] == [];
    }
    CommitOutcome(db, Expire(0), user, plans[FREE], false, t);
    var at: nat -> Instant := _ => t;
    assert ExpireOne(db, plans, 0, at(0)).Err?;
    assert SweepRows(db, plans, [0], 1, at) == Swept(db, 0);
  }

  /** From the moment it lapses until a sweep, a subscription is not live and cannot be taken out again. */
  lemma LapsedBlocksRenewal(plans: Catalogue, user: UserId, slug: string, start: Instant, now: Instant)
    requires slug in plans && plans[slug].isActive && plans[slug].durationDays > 0
    requires start + plans[slug].durationDays * DAY <= now
    ensures var db := FirstSubscription(plans, user, slug, start);
            && !db.subs[0].IsActive(now)
            && Subscribe(db, plans, user, slug, now, now) == Err(AlreadySubscribed)
  {
    hide Subscribe, IsLeapDay;
    FirstSubscribes(plans, user, slug, start);
    SubscribeOutcome(FirstSubscription(plans, user, slug, start), plans, user, slug, now, now);
  }
}
