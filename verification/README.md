# Subscriptions, quotas, API keys and usage analytics: a Dafny model

This project models the state-changing core of the SaaS backend and proves what it promises.

**Subscriptions and quotas** are modelled twice over one set of tables.

- `Subscriptions` gives each service call as a function from the database before to the database
  after, with the calendar, the unique constraints and the errors of the original. `BillingService`
  is the same services as a class that updates its tables in place and rolls back on an error; every
  method is proved equal to its function.
- `ConcurrentBilling` runs the services as N workers that interleave on one database and one
  non-decreasing clock. A `@transaction.atomic` body reads in one step and commits in another, from
  what it read; the commit applies everything or nothing. `record_request` is not a transaction, so
  each of its clock readings, queries and writes is a separate step. Database errors may end any call
  at any step.
- The two models agree. `SoloRuns` proves that every run in which one worker makes a call and only
  that worker and the clock move ends, once the call ends, in the database of the sequential function
  for clock readings taken during the call. `SoloChoices` proves the converse: whatever readings are
  chosen, some such run takes them and ends in that database. `StaleReads` says what a call does with
  what it has read when the others do act between its steps.

**Analytics** (`Analytics`, `AnalyticsLaws`, `AnalyticsRuns`) models the daily rollup and the charts on
a real Gregorian calendar (`Calendar`); `Accounting` models the middleware that logs and charges each
request. **API keys** (`ApiKeys`, `ApiKeyLaws`) reuse the subscription tables for the key limit.
**One-shot tokens** are in `PasswordReset`.

Rows are never deleted, so a row's position stands for its primary key and for its creation order.
Instants are UTC microseconds. Clock readings, generated tokens, the hash function and the outcome of
looking up an account are parameters, and every statement holds for all of their values.

## What the code does where its text says otherwise

- Opening a subscription that does not expire computes `start.replace(year=start.year + 50)`
  (`apps/subscriptions/services.py:102`). A leap year plus 50 is never a leap year, so on 29 February
  this raises and the surrounding transaction rolls back: free enrolment, `cancel`, and each row of the
  expiry sweep are refused that day. The outcome lemmas state this as an exact condition,
  `SweepComplete` shows the sweep does all its work if and only if every reading avoids that day and
  Free is offered, and `Refusals` gives reachable tables and instants on which each of the three fails.
- `get_active_subscription` ignores `expires_at`, so a lapsed subscription that awaits the sweep still
  counts as held: subscribing to the same plan again is refused until the sweep has run
  (`SubscribeOutcome`; a reachable case is `Refusals.LapsedBlocksRenewal`).
- `rotate_api_key` says the new key has the same name. It stores the old name again, which drops
  spaces that truncation to 120 characters left at its end (`RotatedName`, `NameCanShrink`). The API's
  serializer trims names and limits them to 120 characters (`apps/api_keys/serializers.py:29`), so only
  a direct call of the service can store such a name.
- A Free subscription's first window is fifty years, not a month; a later window of it is 30 days.

## Model

| member | source | states |
|---|---|---|
| Subscriptions.ActiveRow | apps/subscriptions/selectors.py:9-14 | the newest ACTIVE row of the user whatever its expiry, or none when there is no ACTIVE row |
| Subscriptions.CurrentQuota | apps/subscriptions/selectors.py:17-27 | a window that contains the instant and starts last among those that do, or none when none does |
| Subscriptions.DueRows | apps/subscriptions/services.py:156-163 | exactly the ACTIVE rows whose expiry has passed, each once, newest first |
| SubscriptionLaws.CommitOutcome | apps/subscriptions/services.py:41-104 | a commit from a stale read is refused by the unique constraint exactly when the row it read has left ACTIVE (or the user has gained a row), and otherwise refused only on 29 February for a plan that does not expire |
| SubscriptionLaws.Committed | apps/subscriptions/models.py:81-88 | an applied commit had read the truth, retires only the row it read, adds one ACTIVE row, and keeps one ACTIVE row per known user |
| SubscriptionLaws.CommitKeepsWindows | apps/subscriptions/services.py:88-104 | every subscription keeps exactly its opening window and later windows start after it |
| SubscriptionLaws.WindowOutcome | apps/subscriptions/models.py:144-148 | a window is inserted, empty and one period long (30 days for a plan without one), exactly when the unique constraint survives it |
| ConcurrentLaws.ApplySound | apps/subscriptions/services.py:41-172 | every step of every worker keeps the machine's invariant; contracts, windows and final statuses are never rewritten |
| StatusHistory.LeavesOnce | apps/subscriptions/services.py:41-104 | over every interleaved run a row leaves ACTIVE once if it is not ACTIVE at the end and never otherwise |
| StatusHistory.FinalRowsStay | apps/subscriptions/services.py:151-172 | a CANCELED or EXPIRED row is identical in every column at every later point of the run |
| StatusHistory.OneActiveAlways | apps/subscriptions/models.py:81-88 | in every reachable concurrent state each user with a row has exactly one ACTIVE row, and EXPIRED rows were due |
| StatusHistory.LiveExactly | apps/subscriptions/models.py:97-103 | in every reachable state a subscription is reported live exactly while it is ACTIVE and, if it expires, less than its plan's days old |
| StatusHistory.LiveHasOneQuota | apps/subscriptions/models.py:97-103 | a subscription reported live has one quota row, and that row current, exactly until its opening window ends: always when it expires, for fifty years (at least 18,261 days) when it does not |
| StatusHistory.RotationComesAfter | apps/subscriptions/services.py:137-145 | a subscription has a second window only once its opening one has ended |
| StatusHistory.SweepCountsSum | apps/subscriptions/services.py:151-172 | over concurrent sweeps the returned counts sum to the number of EXPIRED rows |
| QuotaTheorems.NoLostUpdates | apps/subscriptions/services.py:131-134 | under every interleaving a quota's count is the number of increment steps taken on it |
| RequestRates.EntryIsIncrement | apps/subscriptions/services.py:131-134 | each counted request is one step of its worker, at its instant, that adds one to its quota and changes no other row |
| QuotaTheorems.Overshoot | apps/subscriptions/services.py:115-134 | N workers bring a quota to at most its plan's limit plus N - 1; one worker never beyond the limit |
| OvershootReached.BoundIsReached | apps/subscriptions/services.py:115-134 | for every N, every positive limit and every starting instant some interleaving reaches limit + N - 1 |
| QuotaTheorems.OverlapAtMostWorkers | apps/subscriptions/services.py:137-145 | at most N windows of one subscription contain any one instant |
| QuotaTheorems.RateBound | apps/subscriptions/services.py:110-145 | in any interval of length L, N workers get at most (limit + N - 1) * N * (ceil(L / d) + 1) requests accepted on a subscription of period d, requests being dated by the clock reading that chose their window; for N = 1 that is limit * (ceil(L / d) + 1) |
| RequestRates.RateByIncrement | apps/subscriptions/services.py:131-145 | the same bound when requests are dated by the instant their increment is written, however long workers are held up between choosing a window and writing to it |
| SoloRuns.SoloEnroll | apps/subscriptions/services.py:32-38 | every enrolment run by one worker alone ends in the sequential function's database for a reading of the call |
| SoloRuns.SoloSubscribe | apps/subscriptions/services.py:41-62 | every subscribe run by one worker alone ends in the sequential function's database, changed or not, for a reading of the call |
| SoloRuns.SoloCancel | apps/subscriptions/services.py:74-85 | every cancel run by one worker alone ends in the sequential function's database, changed or not, for a reading of the call |
| SoloRuns.SoloRecord | apps/subscriptions/services.py:110-145 | every record_request run by one worker alone, with any waits between its steps, ends in the sequential function's database for three readings of the call in order |
| SoloRuns.SoloSweep | apps/subscriptions/services.py:151-172 | every sweep run by one worker alone ends in the sequential function's database for readings in the order of the rows, and appends exactly its count to what sweeps returned |
| SoloChoices.EnrollCanEnd | apps/subscriptions/services.py:32-38 | every reading from now on is that of some enrolment run alone |
| SoloChoices.SubscribeCanEnd | apps/subscriptions/services.py:41-62 | every reading from now on is that of some subscribe run alone |
| SoloChoices.CancelCanEnd | apps/subscriptions/services.py:74-85 | every reading from now on is that of some cancel run alone |
| SoloChoices.RecordCanEnd | apps/subscriptions/services.py:110-145 | every three readings in order are those of some record_request run alone |
| SoloChoices.SweepCanEnd | apps/subscriptions/services.py:151-172 | every choice of readings in the order of the due rows is that of some sweep run alone |
| StaleReads.StaleCancel | apps/subscriptions/services.py:74-85 | whatever others do between its steps, a cancel retires the row it read and opens Free exactly if that row is still ACTIVE at the commit (and the reading is not on 29 February), and otherwise changes nothing |
| StaleReads.StaleSubscribe | apps/subscriptions/services.py:41-62 | the same for subscribe replacing the row it read |
| StaleReads.StaleExpire | apps/subscriptions/services.py:163-171 | the same for a row of the sweep, which counts it exactly if it expires it |
| StaleReads.StaleCheck | apps/subscriptions/services.py:115-134 | record_request adds one to the quota it found exactly if the count it read then was below the limit or there is none, however far others have raised the count since |
| BillingService.Billing.CreateSubscription | apps/subscriptions/services.py:88-104 | inserts the ACTIVE row and its opening quota, or fails with the error of the first refusal |
| BillingService.Billing.EnrollInFreePlan | apps/subscriptions/services.py:32-38 | new tables equal the enrolment function's, and are untouched on an error |
| BillingService.Billing.Subscribe | apps/subscriptions/services.py:41-62 | new tables equal the subscribe function's, and are untouched on an error |
| BillingService.Billing.Cancel | apps/subscriptions/services.py:74-85 | new tables equal the cancel function's, and are untouched on an error, the cancellation included |
| BillingService.Billing.CurrentOrRotateQuota | apps/subscriptions/services.py:137-145 | returns the current window untouched, else one new window, else the constraint's refusal |
| BillingService.Billing.RecordRequest | apps/subscriptions/services.py:110-134 | tables and outcome equal the accounting function's, whatever was enrolled or opened before an error staying |
| BillingService.Billing.ExpireRow | apps/subscriptions/services.py:164-171 | one row's transaction: expire and enrol, or nothing |
| BillingService.Billing.ExpireDueSubscriptions | apps/subscriptions/services.py:151-172 | the loop's tables and count equal the sweep function's |
| SequentialLaws.EnrollOutcome | apps/subscriptions/services.py:32-38 | Free enrolment succeeds exactly for a user without any row, with Free offered, not on 29 February; then the row and the quota it adds, whose window ends on the same date fifty years on |
| SequentialLaws.SubscribeOutcome | apps/subscriptions/services.py:41-62 | which of the four outcomes occurs, for all inputs, and on success what is cancelled, opened and left alone |
| SequentialLaws.CancelOutcome | apps/subscriptions/services.py:74-85 | which of the four outcomes occurs, for all inputs; success leaves a live Free row and the old row cancelled without renewal |
| SequentialLaws.RecordOutcome | apps/subscriptions/services.py:110-145 | which of the outcomes occurs, for all inputs: a full current window or a refused enrolment changes nothing; otherwise one window's count rises by one (a new window starts from it), and no other row of either table changes apart from the user's first enrolment |
| SequentialLaws.DoSeqSound | apps/subscriptions/services.py:137-145 | every sequential call keeps windows disjoint and in order, counts within limits, and the unique constraints unviolated |
| SequentialLaws.RunSeqSound | apps/subscriptions/services.py:110-145 | the same over every sequence of calls from empty tables |
| SweepLaws.SweepOutcome | apps/subscriptions/services.py:151-172 | the due rows are the ACTIVE ones no longer live, newest first; each becomes EXPIRED exactly when Free can replace it at its reading; the count, every untouched row and quota, and the Free successors in order, each with its fifty-year window |
| SweepLaws.ExpiredUsersGetFree | apps/subscriptions/services.py:164-169 | the user of an expired row ends with one ACTIVE row, a new non-expiring Free one |
| SweepLaws.OtherUsersUntouched | apps/subscriptions/services.py:151-172 | a user without a due row keeps every row and gains none |
| SweepLaws.SweepComplete | apps/subscriptions/services.py:151-155 | the count is the number of due rows, and none is left, if and only if every due row can be replaced; a second sweep at the same instant then returns 0 and changes nothing |
| Refusals.EnrollRefusedOnLeapDay | apps/subscriptions/services.py:99-103 | at every instant of 29 February a new user cannot be enrolled |
| Refusals.CancelRefusedOnLeapDay | apps/subscriptions/services.py:74-85 | at every instant of 29 February a paying subscriber cannot cancel |
| Refusals.SweepSkipsOnLeapDay | apps/subscriptions/services.py:151-172 | a sweep on 29 February of tables with one due row returns 0 and leaves the row due |
| Refusals.LapsedBlocksRenewal | apps/subscriptions/services.py:41-62 | from its expiry until a sweep a subscription is not live and the same plan cannot be subscribed to |
| Accounting.RequestAnalytics.Record | apps/analytics/middleware.py:46-73 | one log row is appended and the quota is charged, a refusal being swallowed |
| Accounting.Conservation | apps/analytics/middleware.py:46-73 | over every run a user's log rows number the requests counted on all their quotas plus the refused ones |
| Accounting.EveryRequestLogged | apps/analytics/middleware.py:51-60 | over every run each served request is in the log as often as it was served, with its user, status, duration and instant |
| ApiKeys.StoredNameIs | apps/api_keys/services.py:38 | every name is stored as the first 120 characters of what remains without the spaces around it, or as "default" when nothing remains |
| ApiKeys.RotationKeepsName | apps/api_keys/services.py:55-65 | storing a stored name again drops exactly the spaces at its end |
| ApiKeyLaws.RotatedName | apps/api_keys/services.py:55-65 | in every run a rotated key has the old key's name less the spaces at its end, so the same name exactly when there are none |
| ApiKeys.NameCanShrink | apps/api_keys/services.py:38 | a family of names that lose a character on rotation |
| ApiKeys.KeyService.Create | apps/api_keys/services.py:22-42 | table and result equal the create function's; nothing changes on a refusal |
| ApiKeys.KeyService.Revoke | apps/api_keys/services.py:45-52 | table and result equal the revoke function's |
| ApiKeys.KeyService.Rotate | apps/api_keys/services.py:55-65 | table and result equal the rotate function's; the revocation is undone when the replacement is refused |
| ApiKeys.KeyService.Login | apps/api_keys/authentication.py:27-51 | the loop over the candidates returns the first hash match, and touches only that key's last use |
| ApiKeyLaws.LookupRefinesScan | apps/api_keys/authentication.py:32-51 | over every run, lookup by prefix then hash finds what scanning all unrevoked keys by hash finds |
| ApiKeyLaws.AcceptedExactly | apps/api_keys/authentication.py:27-51 | every answer of a login in any run: a plaintext issued for an unrevoked key is accepted as that key and as its owner unless the owner is disabled, any other is invalid, none means no credentials |
| ApiKeyLaws.LoginTouchesOnly | apps/api_keys/authentication.py:43-49 | a login writes the last use of the key it accepts and nothing else of any key |
| ApiKeyLaws.RevokedForGood | apps/api_keys/models.py:53-55 | a revoked key stays revoked through every later operation |
| ApiKeyLaws.CountWithinNewestLimit | apps/api_keys/services.py:22-42 | through any plan changes a user's live keys never exceed the `max_api_keys` of the plan in force, or 1, when the newest of them was issued |
| ApiKeyLaws.RunOneActive | apps/subscriptions/models.py:81-88 | in every run of key and service calls each user with a row has one ACTIVE row, so one limit is in force |
| ApiKeyLaws.CreateOutcome | apps/api_keys/services.py:22-42 | a key is refused for the limit exactly when the live keys number at least the `max_api_keys` of the user's ACTIVE row, or 1 without one; else, if its hash is new, the new row in full and the live keys of everybody |
| ApiKeyLaws.RevokeOutcome | apps/api_keys/services.py:45-52 | a key is revoked exactly when it is its caller's and live; it leaves the live keys and no other key changes |
| ApiKeyLaws.RotateOutcome | apps/api_keys/services.py:55-65 | which of the five outcomes occurs, for all inputs; rotation succeeds exactly when the live keys number at most the `max_api_keys` in force and the hash is new, keeps their number, and stores the old name |
| PasswordReset.TokenService.RequestPasswordReset | apps/authentication/services.py:102-114 | a one-hour token for an active account, nothing for any other |
| PasswordReset.TokenService.ConfirmPasswordReset | apps/authentication/services.py:117-137 | on success the password and the token table change together, on failure neither |
| PasswordReset.TokenService.IssueVerification | apps/authentication/services.py:53-66 | tables equal the send function's: a 24-hour token unless the hash is taken |
| PasswordReset.TokenService.VerifyEmail | apps/authentication/services.py:69-85 | tokens equal the verify function's and its user becomes verified, or nothing changes |
| PasswordReset.ConfirmOutcome | apps/authentication/services.py:117-137 | a confirm succeeds exactly for a known, unused, unexpired token, and then uses up all of its user's tokens and nobody else's |
| PasswordReset.RequestOutcome | apps/authentication/services.py:102-113 | an active account gets one token that expires an hour later, unless its hash is stored; any other request changes nothing |
| PasswordReset.ResetWorksForAnHour | apps/authentication/services.py:102-137 | after a request, and until its user's next success, the plaintext resets that user's password exactly when it is checked within the hour, whatever else happens |
| PasswordReset.EachTokenOnce | apps/authentication/models.py:81-86 | over every sequential run each reset token succeeds at most once and a user's successes never exceed their tokens |
| PasswordReset.VerifyOutcome | apps/authentication/services.py:69-85 | a verification succeeds exactly for a known, unused, unexpired token, and uses up that token only |
| PasswordReset.SendOutcome | apps/authentication/services.py:53-66 | one token that expires 24 hours later, unless its hash is stored |
| PasswordReset.VerificationWorksForADay | apps/authentication/services.py:53-85 | until it succeeds, the plaintext sent verifies its user exactly when it is checked within 24 hours, whatever else happens |
| PasswordReset.EachVerificationOnce | apps/authentication/services.py:69-85 | over every sequential run each verification token succeeds at most once, a user's successes never exceed their tokens, and the verified users are exactly those with a success |
| PasswordReset.VerifiedForGood | apps/authentication/services.py:80-84 | a verified user stays verified |
| PasswordReset.NoneValidAfterConfirm | apps/authentication/services.py:133-136 | after a confirm no token its user held is valid at any later point or instant |
| Calendar.PerpetualWindow | apps/subscriptions/services.py:102 | the fifty-year window exists on every day but 29 February, and ends on the same month, day and time of day fifty years on, 18,261 to 18,263 days later |
| Calendar.CivilDate | apps/analytics/selectors.py:55-62 | the date of an instant is the day of the Gregorian calendar, in closed form, whose 24 hours contain it |
| Calendar.LeapDayOf | apps/subscriptions/services.py:102 | every leap year has instants on which the window does not exist |
| Calendar.MonthlyWindow | apps/analytics/selectors.py:89-90 | for every day and 1..12 months the chart starts on the wanted month when every month stepped over has 31 days, exactly one month earlier otherwise |
| Analytics.AnalyticsStore.RollupDailyUsage | apps/analytics/selectors.py:118-145 | upserts exactly the summaries of the users with rows that day and returns how many |
| Analytics.AnalyticsStore.MonthlyChart | apps/analytics/selectors.py:84-98 | whatever order the rows come in, lists exactly the months with rows, with their sums, in ascending string order (`ChartByMonth` says which months the names are) |
| Analytics.SortBuckets | apps/analytics/selectors.py:98 | every bucket once, keys strictly ascending |
| Analytics.AnalyticsStore.DailyChart | apps/analytics/selectors.py:49-81 | one entry for each of `days` consecutive dates ending today, with that day's counts, zero where there are none |
| AnalyticsLaws.MonthNameOrder | apps/analytics/selectors.py:94-98 | for four-digit years the string order of month names is the order of the months, and names are distinct |
| AnalyticsLaws.MonthKeyReads | apps/analytics/selectors.py:94 | the name of a day's month is four digits, a hyphen and two digits that read as the year and the month of its date |
| AnalyticsLaws.ChartInCalendarOrder | apps/analytics/selectors.py:98 | a chart's entries are in strict calendar order |
| AnalyticsLaws.ChartTotals | apps/analytics/selectors.py:92-98 | the counts and errors of the listed months add up to those of the rollup rows the chart read, in whatever order they came |
| AnalyticsLaws.DayEntryIs | apps/analytics/selectors.py:56-80 | a point of the daily chart carries its day's date and the numbers of the log rows and failed rows dated that day |
| AnalyticsLaws.RollupIs | apps/analytics/selectors.py:118-145 | a rollup stores, for each user with rows that day, their number, how many failed, and the whole part of their mean duration; no other rollup row changes |
| AnalyticsLaws.RollupIdempotent | apps/analytics/selectors.py:118-145 | rolling a day up again on an unchanged log changes nothing, and no other day is touched |
| AnalyticsLaws.SummaryBounds | apps/analytics/selectors.py:127-142 | errors never exceed requests, and the stored average is the true mean rounded down |
| AnalyticsLaws.RemainderBound | apps/analytics/selectors.py:135-142 | over any set of rolled-up rows the truncated averages lose at least nothing and less than one millisecond a request |
| AnalyticsRuns.RunTablesSound | apps/analytics/models.py:10-15 | over every run of logging, rolling up and purging, each settled day's rollup rows are those of the complete history |
| AnalyticsRuns.ChartIsHistory | apps/analytics/selectors.py:84-98 | the monthly buckets equal grouping the complete history directly on settled days, for months, counts and errors, whatever was purged since |
| AnalyticsRuns.ChartIsFinishedDays | apps/analytics/selectors.py:84-98 | when every finished day of the window is settled, a month's count and errors are exactly those of its finished days |
| AnalyticsRuns.ChartByMonth | apps/analytics/selectors.py:84-98 | the chart returned, read as years and months, lists a month exactly when the complete history has rows dated in it on settled days, with their count and errors |
| AnalyticsRuns.ChartByFinishedMonth | apps/analytics/selectors.py:84-98 | the same for the finished days of each month when all of them are settled and none was rolled up early |
| AnalyticsRuns.DailyTotal | apps/analytics/selectors.py:49-81 | the daily counts and errors sum to those of the window's rows, and of all rows from its start when none is dated after today |
| AnalyticsRuns.SystemEntry | apps/analytics/selectors.py:19-26 | a day's system-wide count and errors exceed the sums over users by exactly the rows without a user |
| AnalyticsRuns.DailyIsRollup | apps/analytics/selectors.py:118-143 | on a settled, unpurged day a user's daily entry is that user's rollup row |

## Left out

- HTTP views, serializers, permissions, throttling, admin and e-mail delivery: they keep no state of their own.
- `usage_summary`, `recent_requests`, `has_feature`, `is_current` and `quota_remaining`: each is one query or one expression.
- Years after 9999, where Python's dates end, and years before 1000, whose month names `strftime` may not pad.
- In the concurrent machine `canceled_at` and the successor's `started_at` share one clock reading; the sequential model takes two.
- Plans do not change during a run, and no user, subscription or key row is deleted.
- SHA-256 is any injective function where acceptance is concerned; the comparison's timing is not modelled.
- Reading the key from the request headers: authentication starts from the extracted plaintext.
- Concurrent key issuing and concurrent token confirmation: those theorems are about calls that do not overlap.
- The average response time is the exact quotient; binary or decimal rounding inside the database is not modelled.
- `AnalyticsRuns` has a purge step because the log's retention is left to policy (`apps/analytics/models.py:13-14`); the repository has no purge job.
- A log write that fails ends `_record` before the charge, so it changes neither side of the accounting and is not modelled.
- JWT sessions, logout and blacklisting: the token library is not part of this model.
