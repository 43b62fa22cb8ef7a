# Verification of the URL shortener's stateful core

The repository is a URL shortener: a redirect service with a two-tier cache and a per-address rate
limiter, a worker that turns a Redis stream of clicks into PostgreSQL rows and a daily rollup, an API
with sessions, password and single-sign-on login, URL sharing, and a one-shot import from YOURLS. Most
of it is handlers and SQL; this project models the parts that keep state over unbounded runs and proves
what holds on every run.

Where the Go code changes an object step by step, the model is a class or a method with a loop, proved
against a specification function on values. The theorems about whole runs are lemmas about those
specification functions, composed by a state machine per component. Every store call that the worker,
the cache, the short-code service, the permission handlers and the import make, the counter write of a
login and the last write of a signup can fail before or after taking effect (`Basics.Fault`).

| file | models |
|---|---|
| `ClickEvents.dfy` | decoding of stream entries, the `click_events` table, the day rollup |
| `ClickRecorder.dfy` | `Recorder.RecordBatch` and `processBatch`, over a failing store |
| `ClickPipeline.dfy` | the consumer group: any number of workers, crashes, store errors, reclaims |
| `RecorderRefinesPipeline.dfy` | every outcome of `processBatch` is a run of that system |
| `StatsReader.dfy` | the statistics read back from those tables |
| `RateLimiter.dfy` | token buckets per address, the idle sweeper, runs of both |
| `SessionStore.dfy` | sessions and the per-user index, each expiring on its own |
| `SessionRaces.dfy` | the same store with its calls cut into reads and transactions |
| `IdentityLinking.dfy`, `LocalSignup.dfy` | the login resolver, link confirmation, signup on top of it |
| `LocalLogin.dfy` | password login and lockout |
| `LoginOverlap.dfy` | the same logins cut at their two store calls |
| `RedirectCache.dfy` | local tier, Redis, storage, purge and Pub/Sub, redirect requests cut into steps |
| `Permissions.dfy`, `ShortUrls.dfy`, `Ownership.dfy` | roles, short-code allocation, the grant and revoke handlers, ownership over runs |
| `Migration.dfy` | the YOURLS import |

## Findings

Where the code does not meet a property as stated, the project keeps the code's behaviour and proves
exactly when the property holds.

- A call that inserted rows and then died drops its deltas for good: redelivery sees the rows and skips
  them. `RollupDeficit` gives the exact gap, `QuietRollupExactIff` when there is none, and
  `CrashBetweenInsertAndUpsertLosesACount` a run that has one.
- `allow` reads the clock twice, once for `lastSeen` and once inside the bucket, so an idle period that
  merely refills a bucket is not enough to make eviction unobservable (`SkewCanMakeEvictionObservable`).
  For readings up to `skew` apart it is unobservable, and the rate bound holds, if and only if the burst is
  zero, or `idle * rps >= burst + min(1, skew * rps)` and `(idle - skew) * rps >= 1`
  (`EvictionIsUnobservableIff`, `RateBoundIff`). Production meets this up to a gap of 599.95 seconds
  (`ProductionEvictionIsUnobservableIff`).
- A cached code is written to Redis without a TTL, so it goes on being served after it has expired
  (`ExpiryIsOutlived`), against the comment at `internal/storage/redirect_store.go:30-32`. A code that
  storage no longer redirects is refused if and only if the local tier has no fresh entry and every fill of
  Redis has been purged or evicted since (`DeadCodeIsRefusedOverRunsIff`).
- Purging a code is final exactly when no fill that read storage earlier is still about to write Redis
  (`PurgeIsFinalIff`).
- The endpoint that grants editor or viewer access never asks `WouldOrphanOwnership`, so an owner who
  invites their own address takes the last owner away, and nothing ever brings one back
  (`LastOwnerLostIff`, `OwnersOverARun`, `SoleOwnerInvitesThemselves`).
- A row of the import leaves a URL without an owner exactly when its insert took effect but was reported as
  failed, or its grant took no effect (`ImportRow`). It is counted as failed then, nobody ever owns the URL,
  and a later import counts the row as skipped (`OwnerlessForever`, `ReimportWithoutOwner`).
- The import's user cache trims emails, the user lookup does not. The cache agrees with the store
  exactly when no two of the emails differ only by outer white space (`CacheAgreesIff`); the CSV reader
  trims owner emails, so only the system user's address can break it.
- A login reads the failure counter, compares the password and only then writes what it read plus one, and
  nothing orders two logins to one account. The lockout bound therefore holds on all runs if and only if at
  most one of them is in flight at a time (`LockoutBoundIff`). With two, six passwords are compared at one
  moment (`SixAtOnce`); with c, all c (`OverlappingAttemptsAllCompared`). A counter write that fails without
  effect gives one more comparison.
- A touch that read a session before it was deleted or revoked brings it back when it writes, without an
  entry in the index, and a login between the two halves of a revocation stays. A deletion is final if and
  only if no touch of the session waits to write (`DeletionIsFinalIff`), a revocation if and only if,
  besides, it listed every session then live (`RevocationIsFinalIff`).
- A known single-sign-on identity whose email changed is sent to confirmation, but every confirmation then
  fails on the identity that exists already, so the login stays held back for good
  (`ChangedEmailNeverConfirms`).
- If the pending record of a signup cannot be deleted after its link was followed, the caller sees an error
  although account and password are there, and the link goes on working (`LinkWorksOnceIff`).
- With two session lifetimes in use the index can expire before a session it lists, and revoking all
  sessions then misses it (`MixedTtlsLoseSessions`). Two lifetimes that alternate are safe if and only if they
  are equal (`AlwaysRevocableIff`), a switch from one to another if and only if it does not shorten it
  (`SwitchIsSafeIff`). The service passes a single one, but one that a deployment can change.
- Without email confirmation, a signup with the email of an account somebody can already log in to enters
  that account and replaces its password, if and only if the account has a local identity spelt as the
  email (`UnconfirmedSignupEntersIff`, `SecondSignupReplacesPassword`). The case at
  `internal/auth/local_signup_test.go:210`, an account with single sign-on only, is held back.
- The comments speak of the stream id as the idempotency key of `click_events`; the unique index is on
  (clicked_at, stream_id). `OneRowPerEntry` shows that no entry gets two rows all the same.
- PostgreSQL does not enforce a UNIQUE constraint over a NULL `provider_config_id`, so it would accept
  two local identities with one subject. The model follows the Store contract at
  `internal/auth/identity.go:109-115`.
- Imported click totals are in the rollup without rows behind them: they are the `base` of `ClickPipeline`.
  A daily series can therefore claim more clicks than the breakdowns (`ImportedTotalsExceedEvents`), and
  does so exactly when more were imported into the range than are missing from it
  (`PipelineStatsAreConsistent`).

## Model

| member | source | states |
|---|---|---|
| ClickEvents.ParseClickEvent | cmd/worker/consumer.go:159-191 | an entry is accepted exactly when both mandatory fields parse, each failure has its own error, and the event carries the entry's id and fields |
| ClickEvents.CountAfterInsert | internal/storage/click_events.sql.go:15-20 | inserting an event adds one to its own url and day if its key is new, and changes no other count |
| ClickEvents.KeysIff | internal/storage/click_events.sql.go:15-20 | two events share a row exactly when both their time and their entry agree, and a day count exactly when url and UTC day do |
| ClickRecorder.ClickStore.InsertClickEvent | internal/storage/click_events.sql.go:15-20 | reports `inserted` exactly when the key is new and the call succeeds; on an error the row is there exactly if the call took effect all the same |
| ClickRecorder.ClickStore.UpsertDailyCount | internal/storage/click_events.sql.go:51-55 | adds the delta to the stored count; on an error exactly if the call took effect all the same |
| ClickRecorder.Recorder.RecordBatch | internal/stats/click_recorder.go:70-95 | reports an error if and only if one of its calls failed; whatever fails and in whatever order deltas are written, the events go in from the first on, deltas are added only once all are in, each whole or not at all; when no call fails, every event has its row and each (url, day) count grows by exactly the rows gained |
| ClickRecorder.OutcomeNeverOvercounts | internal/stats/click_recorder.go:70-95 | however a call ends, every (url, day) count grows by at most the rows gained, by exactly that on success, and no row is lost |
| ClickRecorder.ProcessBatch | cmd/worker/consumer.go:125-155 | the batch is recorded as above; exactly when that fails, or the acknowledgement takes no effect, its ids stay pending, and otherwise all of them leave |
| ClickRecorder.RecordedBatchIsStored | cmd/worker/consumer.go:143-154 | a batch recorded without error has a row for each of its entries that parses, so acknowledging it loses nothing |
| RecorderRefinesPipeline.ProcessBatchIsARun | cmd/worker/consumer.go:125-155 | whatever a call of ProcessBatch does to tables, rollup and pending list is a run of that worker in the transition system, so the theorems below hold of the code |
| ClickPipeline.NoClickIsLost | cmd/worker/consumer.go:45-155 | on every run each stream entry is exactly one of undelivered, pending or acknowledged, and an acknowledged entry that parses has its row |
| ClickPipeline.OneRowPerEntry | internal/stats/click_recorder.go:77-87 | redelivery and reclaiming never give one entry two rows |
| ClickPipeline.RollupDeficit | internal/stats/click_recorder.go:70-95 | for every url and day of every run, rows minus rollup growth equals deltas held by running calls plus deltas dropped by calls cut off; the rollup never grows beyond the rows |
| ClickPipeline.QuietRollupExactIff | internal/stats/click_recorder.go:70-95 | with no call running, the rollup is exact for a url and day if and only if no call dropped a delta for it |
| ClickPipeline.StoreErrorEndsTheBatch | internal/stats/click_recorder.go:70-95 | a store call that reports an error ends its batch at once, taken or not, with everything still to be added lost; one that succeeds never does |
| ClickPipeline.CrashBetweenInsertAndUpsertLosesACount | internal/stats/click_recorder.go:82-84 | a run in which redelivery acknowledges a click that stays out of the rollup for good |
| ClickPipeline.BatchingIsInvisible | internal/stats/click_recorder.go:75-93 | once all is acknowledged the rows are those of one pass over the distinct entries, whatever the batches, order, workers and redeliveries; the rollup is the baseline plus that pass's if and only if no delta was dropped |
| ClickPipeline.AlwaysRecoverable | cmd/worker/consumer.go:95-155 | from every reachable state some continuation acknowledges every entry: failures only defer work |
| StatsReader.BucketTopBrowsers | internal/stats/reader.go:205-225 | the first ten lines are unchanged, the eleventh, there only if not empty, is the sum of all the others, and no kept line is smaller than a folded one |
| StatsReader.Service.GetStats | internal/stats/reader.go:151-203 | each of the three errors exactly for its cause; on success every breakdown is the one read, browsers folded to ten and the rest, and totals the events in range |
| StatsReader.LinesCountEvents | internal/storage/stats.sql.go:15-23 | distinct lines that cover all events and count their own total the number of events |
| StatsReader.GroupByConserves | internal/storage/stats.sql.go:137-145 | a GROUP BY breakdown totals the events it groups |
| StatsReader.BreakdownsCountTheirKeys | internal/storage/stats.sql.go:15-145 | for every event in range each breakdown has a line for its value, with the number of the url's events in range that share it |
| StatsReader.EventsOfDay | internal/storage/stats.sql.go:97-104 | over whole UTC days, one day's events in range are the rows the rollup counts for that day |
| StatsReader.DailyWithinEvents | internal/stats/reader.go:151-203 | if no day's rollup exceeds its rows, the daily series never totals more than the events in range |
| StatsReader.DailyEqualsEvents | internal/stats/reader.go:151-203 | if every day's rollup equals its rows, the daily series totals exactly the events in range |
| StatsReader.SeriesAgainstEvents | internal/stats/reader.go:151-203 | on every run and over every baseline, the daily series plus the clicks held or dropped equals the events in range plus the clicks imported into it |
| StatsReader.PipelineStatsAreConsistent | internal/stats/reader.go:151-203 | the series never exceeds the events if and only if no more clicks were imported into the range than are missing from it, and equals them if and only if as many |
| StatsReader.NativeStatsAreConsistent | internal/stats/reader.go:151-203 | without an import the series never exceeds the events, and equals them when no call was cut off and none is running |
| StatsReader.ImportedTotalsExceedEvents | internal/storage/migration.sql.go:47-51 | a state with imported clicks in which the series exceeds the events |
| RateLimiter.IpRateLimiter.Allow | cmd/redirect/ratelimit.go:34-45 | the decision is that of the address's bucket, new if absent; only that entry changes |
| RateLimiter.IpRateLimiter.Sweep | cmd/redirect/ratelimit.go:50-69 | exactly the entries idle beyond the timeout go, in whatever order the map yields them |
| RateLimiter.EvictionIsUnobservable | cmd/redirect/ratelimit.go:34-69 | if an idle period makes up for the clock gap, every decision of every run is that of a limiter that never evicts |
| RateLimiter.EvictionIsUnobservableIff | cmd/redirect/ratelimit.go:34-69 | for every bound on the clock gap, sweeping is unobservable on all runs if and only if the burst is zero, or idle * rps >= burst + min(1, gap * rps) and (idle - gap) * rps >= 1 |
| RateLimiter.ProductionEvictionIsUnobservableIff | cmd/redirect/main.go:68-69 | with 20 per second, bursts of 40 and ten minutes: if and only if the gap is at most 599.95 seconds |
| RateLimiter.SkewCanMakeEvictionObservable | cmd/redirect/ratelimit.go:34-45 | settings with idle * rps >= burst and a run on which the two limiters decide differently |
| RateLimiter.BurstOfRequests | cmd/redirect/ratelimit.go:34-45 | n requests at one moment are all admitted if and only if n tokens are there |
| RateLimiter.ForgettingIsUnobservableIff | cmd/redirect/ratelimit.go:50-69 | deleting one bucket goes unnoticed by all later requests if and only if it is full |
| RateLimiter.IdleRuleIsExact | cmd/redirect/ratelimit.go:50-69 | with one clock reading per call, sweeping is unobservable on all runs if and only if idle * rps >= burst |
| RateLimiter.RateBound | cmd/redirect/ratelimit.go:34-69 | over any window of any run, evictions included, an address gets at most burst + rps * length requests through |
| RateLimiter.RateBoundIff | cmd/redirect/ratelimit.go:34-69 | for every bound on the clock gap, that rate bound holds on all runs under exactly the same condition |
| RateLimiter.RateBoundIsExact | cmd/redirect/ratelimit.go:34-69 | with one clock reading per call, that bound holds on all runs if and only if idle * rps >= burst |
| RateLimiter.OtherTrafficIsIrrelevant | cmd/redirect/ratelimit.go:34-69 | dropping all other addresses' requests changes no answer an address gets |
| SessionStore.RedisSessionStore.Create | internal/auth/session.go:74-97 | the session, the index member and both deadlines, and nothing else |
| SessionStore.RedisSessionStore.Touch | internal/auth/session.go:107-127 | a live session and its index are extended, an expired one is not revived |
| SessionStore.RedisSessionStore.Delete | internal/auth/session.go:129-144 | the session and its index entry go |
| SessionStore.RedisSessionStore.DeleteAllForUser | internal/auth/session.go:146-165 | every listed session goes, with the index |
| SessionStore.LiveSessionIsListed | internal/auth/session.go:74-127 | on every run with one ttl, a live session is in its user's index, and the index outlives it |
| SessionStore.DeleteAllRevokesExactly | internal/auth/session.go:146-165 | after it no token of the user resolves at any later time, and other users' tokens resolve as before |
| SessionStore.FindIffKeptAlive | internal/auth/session.go:99-144 | a token resolves if and only if the history has its Create, a chain of touches each within ttl of the last, and nothing revoking it |
| SessionStore.FindTells | internal/auth/session.go:74-127 | what a token resolves to names the user and moment of its Create, was last seen at its last renewal, and expires one lifetime later |
| SessionStore.DeleteTakesOutOne | internal/auth/session.go:129-144 | deleting takes the token out of the store and out of its user's index, and changes no other session or index entry at any later time |
| SessionStore.MixedTtlsLoseSessions | internal/auth/session.go:74-97 | for any two lifetimes, a run in which the longer session is no longer listed and survives the revocation of all |
| SessionStore.AlwaysRevocableIff | internal/auth/session.go:74-165 | for two lifetimes that may alternate, every run keeps every live session listed and revocable if and only if they are equal |
| SessionStore.NeverShrinkingIsSafe | internal/auth/session.go:74-165 | lifetimes that never shrink along a run keep every live session listed and revocable |
| SessionStore.SwitchIsSafeIff | internal/auth/session.go:74-165 | changing the lifetime from a to b keeps every run safe if and only if a <= b |
| SessionRaces.UninterruptedCalls | internal/auth/session.go:107-165 | a read and its transaction with nothing in between do what the store's method does |
| SessionRaces.DeletionIsFinalIff | internal/auth/session.go:107-144 | once a session is gone, no continuation brings it back if and only if no touch of it waits to write |
| SessionRaces.RevocationIsFinalIff | internal/auth/session.go:146-165 | after a revocation the user stays logged out until the next login if and only if it listed every session then live and no touch of one waits to write |
| SessionRaces.StraddlingTouchRevives | internal/auth/session.go:107-127 | a run in which a touch revives a revoked session, unlisted, and a second revocation misses it |
| SessionRaces.LoginBetweenStays | internal/auth/session.go:146-165 | a run in which a login between the two halves of a revocation stays, unlisted |
| IdentityLinking.Resolver.RequestLink | internal/auth/identity.go:405-437 | the pending request, and the mail to the registered address, of the kind the two laws below give |
| IdentityLinking.Resolver.Login | internal/auth/identity.go:224-290 | the tables and the answer of each of the resolver's branches |
| IdentityLinking.Resolver.Confirm | internal/auth/identity.go:294-328 | unknown, expired and used tokens are refused, others bind the identity |
| IdentityLinking.Resolver.Approve | internal/auth/identity.go:343-378 | as Confirm, and only for the account the request names |
| IdentityLinking.LoginIsHeldBackIff | internal/auth/identity.go:224-290 | a login is answered with confirmation if and only if its known identity shows another email, or its email belongs to a claimed account and it is not trusted; any other enters the account it is about, or a new one |
| IdentityLinking.EnteringWrites | internal/auth/identity.go:227-282 | a login that enters writes nothing for a known identity, else itself, and an account only where its email has none; it asks for nothing and mails nothing |
| IdentityLinking.TrustedLoginEnters | internal/auth/identity.go:268-282 | the first trusted login for an email in use enters that account, claimed or not |
| IdentityLinking.HeldBackWrites | internal/auth/identity.go:405-437 | a held-back login writes one open request in the name of the account and sends one mail to its registered address: a notice without a token under reauthentication, else a link with the token |
| IdentityLinking.CompletionAnswers | internal/auth/identity.go:294-328 | a request completes if and only if it is open, in time and its identity free; each refusal exactly for its cause |
| IdentityLinking.CompletionWrites | internal/auth/identity.go:309-320 | completing binds the identity to the account the request names, with its registered email, and closes that request; a refusal writes nothing |
| IdentityLinking.ApprovalIsTheAccounts | internal/auth/identity.go:343-378 | approving is confirming, for the account the request names and nobody else |
| IdentityLinking.InviteWrites | cmd/api/handlers_permissions.go:98-101 | an invitation makes an account, its email unverified, exactly if there is none for it, and touches nothing else |
| IdentityLinking.InvRun | internal/auth/identity.go:224-390 | emails stay unique up to case, recorded emails current, requests and identities name users, local subjects are emails |
| IdentityLinking.LoginEntersOnlyItsOwnEmail | internal/auth/identity.go:224-290 | on every run a login only enters an account whose email is the one presented, up to case |
| IdentityLinking.LocalLoginIsNeverReassigned | internal/auth/local_signup.go:129-135 | the reassigned-email branch is out of reach of local attempts |
| IdentityLinking.BindingsAreStable | internal/storage/auth_identities.sql.go:28-32 | a bound (provider, config, subject) is never re-pointed, and accounts keep their email |
| IdentityLinking.NewLinkHasProvenance | internal/auth/identity.go:268-282 | who can already log in gains a method only by a trusted attempt or by an open, unexpired request naming them |
| IdentityLinking.RequestConsumedOnce | internal/auth/identity.go:294-378 | a request yields at most one identity, whatever happens in between |
| IdentityLinking.IdentitiesAreAccountedFor | internal/auth/identity.go:224-378 | over a run an account's identities number at most one, plus trusted links, plus its consumed requests |
| IdentityLinking.LinkedLoginIsQuiet | internal/auth/identity.go:227-245 | a known identity with its account's email logs in without a request or mail |
| IdentityLinking.LinkRoundTrip | internal/auth/identity.go:284-378 | a login held back for a claimed account succeeds, quietly and as that account, once its request is completed in time, through any unrelated steps and retries of that login |
| IdentityLinking.NoTokenIsMailedUnderReauth | internal/auth/identity.go:429-436 | on every run that asks for reauthentication no mail carries a token |
| IdentityLinking.TokensAlwaysReachTheirAccount | internal/auth/identity.go:405-437 | on every run each mailed token is that of a request for the account at whose address it arrived |
| IdentityLinking.MailedLinkEnters | internal/auth/identity.go:284-328 | a login held back for a claimed account adds exactly one mail, a link to the registered address, whose token, followed in time, enters that account through any unrelated steps |
| IdentityLinking.ChangedEmailNeverConfirms | internal/auth/identity.go:230-236 | a known identity with a changed email stays held back on every continuation, and every request for it is refused |
| LocalSignup.SignupDesk.Attach | internal/auth/local_signup.go:128-150 | the resolver's tables, and the password only where the attempt is logged in |
| LocalSignup.SignupDesk.Start | internal/auth/local_signup.go:88-101 | weak passwords are refused; with confirmation nothing but the pending signup is written |
| LocalSignup.SignupDesk.Verify | internal/auth/local_signup.go:107-126 | unknown and expired tokens are refused, a used one is deleted unless that fails, which is reported |
| LocalSignup.PendingSignupStores | internal/auth/local_signup.go:88-101 | a confirmed signup stores the email and the password chosen, good for one link lifetime, and mails that email the record's token; a short password stores nothing |
| LocalSignup.SignupRoundTrip | internal/auth/local_signup.go:88-170 | whatever happens in between, the mailed link followed in time signs in to the account of that email with exactly the password chosen, unless the email is claimed by then, and then it sets no password |
| LocalSignup.SiteRefinesResolver | internal/auth/local_signup.go:128-150 | seen through the identity tables, every run of signup and login is a run of the resolver |
| LocalSignup.NothingBeforeTheLink | internal/auth/local_signup.go:88-101 | on every continuation without its link, accounts, identities, passwords and mails are what they would be had the confirmed signup's record never been stored |
| LocalSignup.VerifiedPasswordGoesToTheMailedAddress | internal/auth/local_signup.go:107-126 | a password set through a link lands on the account of the mailed address and on no other, whether or not the record can then be deleted |
| LocalSignup.LinkWorksOnceIff | internal/auth/local_signup.go:107-126 | a link that got through is refused on every continuation if and only if deleting its record took effect |
| LocalSignup.UnconfirmedSignupEntersIff | internal/auth/local_signup.go:88-101 | on every reachable site an unconfirmed signup enters an account that has identities, and replaces its password, if and only if one of them is local and spelt as the email |
| LocalSignup.SecondSignupReplacesPassword | internal/auth/local_signup.go:128-150 | a run of two signups for one email that leaves the second one's password |
| LocalLogin.LocalAuthenticator.Authenticate | internal/auth/local.go:92-143 | from the credential: it enters only the email's account, unlocked and with its password, and always then if no write fails; it tells of a lock exactly within the deadline, whatever the password; and the counters of each branch and of each way its one write can fail |
| LocalLogin.LoginAnswers | internal/auth/local.go:92-143 | over any tables, each of the three answers exactly for its cause, stated on the credential |
| LocalLogin.LoginLeaves | internal/auth/local.go:112-141 | a success clears the counter and the deadline, a wrong password counts one more and from the fifth on locks for 15 minutes, and nobody else's credential changes |
| LocalLogin.WritesIff | internal/auth/local.go:112-141 | an attempt ends in a write exactly if its password is wrong, or it enters with something to clear |
| LocalLogin.LocalAuthenticator.ChangePassword | internal/auth/local.go:159-168 | the new hash, with the counters cleared |
| LocalLogin.NewPasswordWorks | internal/auth/local.go:159-168 | the new password works at once, even on a locked account, and no other does |
| LocalLogin.LockedIffAtThresholdAlways | internal/storage/local_credentials.sql.go:33-66 | on every run the deadline is set exactly when the counter is at five or above |
| LocalLogin.LockoutBound | internal/auth/local.go:92-143 | with logins one after another: after any history, a span without a success or reset sees at most 5 + span / 15 min real comparisons |
| LocalLogin.LockoutBoundIsReached | internal/auth/local.go:13-18 | for every number of lockout periods some run reaches that bound |
| LoginOverlap.UninterruptedAttempt | internal/auth/local.go:92-143 | an attempt's two halves with nothing in between do what Authenticate does, failing writes included |
| LoginOverlap.LockoutBoundHolds | internal/auth/local.go:92-143 | after any history, with at most one attempt on the account in flight at a time, that bound holds, plus one comparison for each failure whose write was lost |
| LoginOverlap.LockoutBoundIff | internal/auth/local.go:101-131 | with at most c attempts on one account in flight, it holds on all runs if and only if c <= 1 |
| LoginOverlap.SixAtOnce | internal/auth/local.go:101-131 | a run with two in flight and six comparisons at one moment |
| LoginOverlap.OverlappingAttemptsAllCompared | internal/auth/local.go:101-131 | for every c, a run in which c attempts overlap and all c passwords are compared at one moment |
| RedirectCache.Cache.Get | internal/cache/cache.go:51-64 | the local tier answers first, then Redis, whose hit fills the local tier |
| RedirectCache.Cache.Set | internal/cache/cache.go:69-75 | the local tier is only written once Redis has accepted the value |
| RedirectCache.Cache.Invalidate | internal/cache/cache.go:81-87 | on success the key is gone from Redis and the message is published |
| RedirectCache.Cache.HandleRedirect | cmd/redirect/server.go:57-94 | which target is served, from which tier, and what the caches hold afterwards, cache failures included |
| RedirectCache.TargetIff | internal/storage/short_urls.sql.go:15-22 | a code has a target if and only if its row is there, active and not past its expiry |
| RedirectCache.LocalEntryLastsThirtySeconds | internal/cache/cache.go:16-75 | a local entry answers for 30 seconds and not longer, unless deleted, and other codes do not notice |
| RedirectCache.CacheFailuresAreHarmless | cmd/redirect/server.go:68-94 | while storage has a target, no failure of Redis turns a request into a refusal |
| RedirectCache.DeliverChanges | internal/cache/cache.go:93-109 | a message reaches one instance once, takes one code out of its local tier and changes nothing else |
| RedirectCache.UninterruptedRequest | cmd/redirect/server.go:57-94 | the request cut into single steps answers, when nothing intervenes, as the whole handler does |
| RedirectCache.HistoricallySound | cmd/redirect/server.go:64-93 | under every interleaving, loss and eviction, any target cached, in flight or served was at some earlier moment active in storage |
| RedirectCache.ExpiredCodeIsStillServed | internal/storage/redirect_store.go:30-42 | a code in Redis is served after its expiry though storage has no target for it |
| RedirectCache.ExpiryIsOutlived | cmd/redirect/server.go:64-93 | a run that gets there: one visit while the code is active, and it is served at every later moment past its expiry and the local tier's 30 seconds |
| RedirectCache.DeadCodeIsRefusedIff | cmd/redirect/server.go:64-93 | a code without an active target is refused if and only if neither tier has it |
| RedirectCache.InRedisIffFilledAndKept | internal/cache/cache.go:69-87 | over every run a code is in Redis if and only if some effective fill has no later effective purge or eviction |
| RedirectCache.DeadCodeIsRefusedOverRunsIff | internal/storage/redirect_store.go:30-42 | the two combined, on every reachable state |
| RedirectCache.PurgeTakesHold | internal/cache/cache.go:81-87 | DEL on any reachable state without older fills in flight starts the bounds below |
| RedirectCache.RedisIsFreshAfterPurge | cmd/api/handlers_shorturl.go:302-314 | from then on Redis only yields targets active since the purge |
| RedirectCache.LocalTierCatchesUp | internal/cache/cache.go:16-75 | 30 seconds after the purge so does every instance, even if the message is lost |
| RedirectCache.DeliveryEndsStaleness | internal/cache/cache.go:93-109 | an instance that got the message does so at once |
| RedirectCache.PurgeIsFinalIff | cmd/redirect/server.go:64-93 | after the key is gone, no continuation brings an older target back to Redis if and only if no fill carries one |
| RedirectCache.DisabledCodeIsRefused | cmd/api/handlers_shorturl.go:297-314 | after a disabling edit, a purge that took effect and with no older fill in flight, every request is refused for as long as the code stays disabled: at once where the local tier lacks it, everywhere after 30 seconds |
| Permissions.Resolve | internal/permission/shorturl.go:46-80 | exactly which grants give which right; an administrator without a grant only sees |
| Permissions.WouldOrphanIsExact | internal/permission/shorturl.go:59-67 | on an owned URL the guard is raised exactly when removing or lowering the grant leaves no owner |
| ShortUrls.ReservedInAnyLetterCase | internal/shorturl/shorturl.go:347-362 | a code is reserved exactly when it is "api" or "app" in some letter case |
| ShortUrls.AliasIff | internal/shorturl/shorturl.go:345-373 | input is accepted as an alias if and only if it is that alias within white space, of 1 to 64 letters, digits, dashes, underscores and dots, and not reserved |
| ShortUrls.FindUserIff | internal/auth/identity.go:109-115 | a user is found exactly by a spelling of their email in any mix of cases |
| ShortUrls.NormalizeAliasIdempotent | internal/shorturl/shorturl.go:345-373 | an accepted alias matches the pattern, is not reserved, and is its own normal form |
| ShortUrls.RandomCode | internal/shorturl/shorturl.go:378-392 | the drawn characters, in order; bad settings and a failing random source are reported |
| ShortUrls.Store.CreateShortURL | internal/storage/shorturl_store.go:45-90 | row and owner grant appear together or not at all; a used code is a collision |
| ShortUrls.Store.FindOrCreateUser | cmd/migrate-yourls/migration.go:141-150 | fails if and only if one of its calls does; on success the email's user is returned and exists, and nothing else was made |
| ShortUrls.CreatedRow | internal/shorturl/shorturl.go:234-286 | the row a creation makes carries the code, the trimmed target, the title, creator and date asked for, and its creator owns it |
| ShortUrls.Service.Create | internal/shorturl/shorturl.go:234-286 | at most five inserts and one row, never without its owner; a generated code is the first draw neither reserved nor in use; a store error exactly when a call failed or the creator is nobody, and every other error exactly for its cause |
| Ownership.PermissionHandlers.GrantPermission | cmd/api/handlers_permissions.go:64-114 | an internal error if and only if a call failed; else accepted exactly from an owner who offers a lesser role to a valid address, and then it sets that user's role and no other |
| Ownership.PermissionHandlers.RevokePermission | cmd/api/handlers_permissions.go:119-164 | an internal error if and only if a call failed; else accepted exactly from an owner for a holder of a role who is not the sole owner, and then the target has no role and every other role is as before; an owned URL stays owned |
| Ownership.InviteChanges | cmd/api/handlers_permissions.go:64-114 | an invitation changes nothing unless an owner offers less than ownership; then it sets that one role, of the user with the email, made if nobody has it |
| Ownership.RevokeChanges | cmd/api/handlers_permissions.go:119-164 | a revocation changes nothing unless an owner takes it from a holder who is not the one owner; then it takes that one role |
| Ownership.CreateChanges | internal/storage/shorturl_store.go:45-90 | a creation adds nothing, or one row with a free code owned by its creator alone |
| Ownership.ImportChanges | internal/storage/migration_store.go:49-87 | an imported row is added with a free code only, owned by the given user alone, and sets one total of its own |
| Ownership.NoGrantUntilInvited | cmd/api/handlers_permissions.go:64-164 | whoever holds no grant, after a revocation for instance, has none and no right to edit, delete or manage on any continuation until an accepted invitation reaches them |
| Ownership.LastOwnerLostIff | cmd/api/handlers_permissions.go:86-108 | in any state a step leaves an owned URL without an owner exactly when it is an invitation for which the unasked guard would have been raised |
| Ownership.SoleOwnerInvitesThemselves | cmd/api/handlers_permissions.go:86-108 | every sole owner can lose ownership by inviting their own address |
| Ownership.InvRun | internal/storage/shorturl_store.go:45-90 | on every run codes are unique per domain, none is reserved in any letter case, no URL has two owners, a native URL is owned by nobody but its creator |
| Ownership.OwnersOverARun | cmd/api/handlers_permissions.go:64-164 | a URL's owners never change, or are all lost at the first unguarded downgrade and never come back |
| Ownership.NativeUrlIsItsCreatorsIff | internal/storage/shorturl_store.go:71-79 | from empty tables, a native URL is owned by exactly its creator if no invitation demoted them, and by nobody otherwise |
| Migration.NormalizeRespectsFold | cmd/migrate-yourls/migration.go:152-154 | emails the store takes for equal are equal to the cache |
| Migration.SameKeyIff | cmd/migrate-yourls/migration.go:152-154 | two emails share a cache key if and only if, their outer white space set apart, they differ by letter case at most |
| Migration.OwnerEmailIff | cmd/migrate-yourls/migration.go:72-75 | a row belongs to the non-empty email mapped to its keyword, and to the system user without one |
| Migration.ImportLooksUpCached | cmd/migrate-yourls/migration.go:66-88 | the users and the cache the loop leaves are those of the cached lookups |
| Migration.CachedRowOwner | cmd/migrate-yourls/migration.go:71-88 | the URL a row makes goes to the user its cached lookup returned |
| Migration.CacheDoesNotShow | cmd/migrate-yourls/migration.go:66-132 | if no two emails differ by outer white space, the import equals the one without a cache |
| Migration.CacheAgreesIff | cmd/migrate-yourls/migration.go:66-88 | cached and uncached find-or-create give the same users exactly when no two emails differ by outer white space |
| Migration.SpacingShows | cmd/migrate-yourls/migration.go:66-88 | on every list with one email both bare and with white space around it, the cached and the uncached lookups differ |
| Migration.ImportRow | cmd/migrate-yourls/migration.go:90-132 | for every way its three calls can end: how the row is counted, what it leaves behind, and exactly when that is a URL without an owner |
| Migration.OwnerlessForever | cmd/migrate-yourls/migration.go:117-121 | such a URL has no owner on any continuation, and its row has nothing left to insert |
| Migration.ReimportWithoutOwner | cmd/migrate-yourls/migration.go:102-121 | such a row, any run of the services, and another import: still no owner, and the row is counted as skipped |
| Migration.RunMigration | cmd/migrate-yourls/migration.go:52-135 | every row counted once and every migrated one with an owned URL; every new URL is some row's, granted to nobody but its mapped owner; without failed rows each is that of the first row asking for its free code, all are owned and no row is left to do; on settled codes nothing but users changes, whatever fails; no more rows fail than calls did, and if none did it is the import with the cached lookups |
| Migration.TakenAfterRows | cmd/migrate-yourls/migration.go:95-117 | the codes in use afterwards are those in use before and the unreserved keywords |
| Migration.FirstEligibleRowWins | cmd/migrate-yourls/migration.go:71-132 | a free code goes to the first row asking for it, with that row's target, owner and clicks |
| Migration.MigrateRowsUntouched | internal/storage/migration_store.go:49-87 | no URL, grant or count that existed is changed |
| Migration.CodesSettledForever | internal/storage/migration_store.go:16-22 | once every keyword is in use or reserved it stays so over any run of the services |
| Migration.ImportTwice | cmd/migrate-yourls/migration.go:43-135 | an import without failed rows, whatever else failed, any run of the services, and a second import with any settings for the domain: no URL, grant or count changes, and without a failure every row is counted as skipped |
| Migration.RerunIsSafe | cmd/migrate-yourls/migration.go:43-51 | fault-free and with the same owners, on whatever day, the second import changes nothing at all, users included |

## Left out

- The loops of `run` and `reclaimStaleEntries`, the minimum idle time and consumer names: reads and reclaims of any pending entries, at any time, stand for them.
- ClickPipeline.AlwaysRecoverable: says that draining remains possible, not that a scheduler gets there.
- SessionStore.RedisSessionStore.Touch: one atomic step, as are Delete and DeleteAllForUser; SessionRaces cuts all three, and DeleteAllRevokesExactly and FindIffKeptAlive speak of calls that do not overlap.
- LocalLogin.LocalAuthenticator.Authenticate: one atomic step, which LoginOverlap cuts in two; reads that fail change nothing and are not modelled, and neither is the overflow of the 32-bit counter.
- LoginOverlap.LockoutBoundIff: how many comparisons c attempts in flight allow at most is not stated.
- IdentityLinking.Resolver.Login: one atomic step as the Store contract asks; store errors, mail failures and audit records are not modelled.
- LocalSignup.SignupDesk.Verify: errors of the credential write and of reads are not modelled.
- RateLimiter.IpRateLimiter.Allow: tokens are real numbers, so floating-point rounding inside the limiter library is not modelled.
- Ownership.PermissionHandlers.RevokePermission: its check and delete are one step; as no URL ever has two owners, two revocations racing cannot orphan one.
- StatsReader.Service.GetStats: the six queries are taken from one snapshot of the tables, and the ordering of the lines other than the browsers' is not stated.
- ShortUrls.Service.Create: the URL parser's verdict and the random source are parameters; the expiry date, the description and the status of a URL are left out.
- Migration.RunMigration: nothing else writes between two store calls of one run.
- SessionStore.RedisSessionStore.Create: lifetimes are positive; Redis takes zero as no expiry at all.
- ClickPipeline.RollupDeficit: imports happen before the first click of the URLs they make; a total written over a day that already has clicks is not modelled.
- Case folding and trimming cover ASCII only; characters stand for bytes.
- Clicks keep nanosecond instants; PostgreSQL's rounding to microseconds is not modelled.
- Password hashing, token hashing and random tokens: injective hashes and fresh tokens.
- HTTP, cookies, audit logs, mail, CSV reading, partitions, GeoIP and user-agent classification, listing and sorting, the web interface: no state of their own that the properties need.
- SAML, OIDC and WebAuthn: what is left after their libraries' checks is a key consumed once, an easy member.
