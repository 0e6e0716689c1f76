# A verified model of the task service's protocols

The service keeps its state in PostgreSQL and Redis and lets any number of workers, dispatchers and
request handlers act on it at once. This project models the protocols that keep that state
consistent and proves what they promise over every run. Each SQL statement or transaction and each
Redis command is one atomic step; one clock never runs backwards; ids are fresh when they are made.

Every component is written twice. A class holds the rows or keys, with one method per statement,
each specified by its whole effect. A transition system over the same row functions lets any number
of participants interleave, crash, stall and report late; the main results are about all its runs.

| file | component |
|---|---|
| `JobStore`, `JobRuns`, `JobLease`, `JobTimely`, `JobMaximum`, `JobWitness`, `JobBackoff`, `JobQueue`, `JobBacklog` | background jobs: rows, leases, retries, the Redis list, clearing a backlog |
| `OutboxStore`, `OutboxRuns`, `OutboxTimely` | webhook deliveries and notifications: claims under SKIP LOCKED, outcomes, redelivery |
| `VersionedCache`, `KeyBuilders` | the tenant-versioned cache and the text of its keys |
| `Keyset`, `Export` | keyset pagination and the export loop, with writers running |
| `RateLimit` | the token-bucket script and key expiry |
| `Idempotency` | idempotency keys of the create handlers |
| `RefreshTokens`, `TokenOwners` | refresh-token rotation, revocation and purge, and whose sessions the tokens are |
| `BulkUpdate` | bulk status change in request order |
| `Reminders` | reminder deduplication against notification retention |
| `Csv`, `ArtifactKeys`, `Backoff`, `Selection`, `Prelude` | CSV printing, artifact paths, retry delays, ORDER BY with LIMIT, shared vocabulary |

Check everything with `dafny verify dfyconfig.toml`.

## What the proofs found

- **Late workers.** `complete_job` and `fail_job` have no status guard, so a worker whose lease was
  reaped can still report. A job may then be claimed `2 * max_attempts - 1` times, never more, and
  that many claims do happen (`ClaimBound`, `ClaimBoundIsReached`). What takes a job past its maximum
  is exactly one kind of report: a failure of an attempt that was not the last, on a job that has
  since used its last (`NeverOverrunExactly`, `StaleFailureLeadsPast`). A finished job can even be
  put back in the queue: `TerminalIsLeftExactlyBy` says by which reports. When workers report only
  while their claim is current, none of this happens (`TimelyLifecycle`, `TimelyClaimBound`).
- **Crashing dispatchers.** An outbox row only dies by a recorded failure, so a row whose dispatcher
  keeps crashing is claimed again every minute, past any maximum (`CrashesExceedAnyMaximum`). It
  passes its maximum exactly when it is claimed while pending with every attempt used, and only the
  claim for the last attempt or a stale failure leaves it so (`MaximumIsPassedExactly`,
  `UsedUpExactly`).
- **Clocks.** The limiter is stamped by its callers, its keys expire on Redis's clock. Expiry goes
  unnoticed exactly as long as the callers' clock falls behind by no more than the second the time
  to live leaves, 999 or 1000 ms (`ExpiryIsInvisibleExactly`). Within that, stamps keep the bound of
  capacity plus refill for every limit and cost if and only if all their forward steps together stay
  within the interval (`BoundIsKeptExactly`); a clock that steps back and forth breaks it
  (`BackwardClockBreaksTheBound`).
- **Bulk update.** The version bump comes after the commit and its failure is returned as an error.
  A failed request has changed nothing if and only if the failure is not the bump's; otherwise the
  tasks are changed and audited with nothing bumped or emitted (`FailuresExactly`,
  `FailedBumpKeepsTheUpdate`).
- **Cache.** Freshness starts at the bump, and a failed bump puts it off to the next one or to expiry. Between a write's commit and its bump readers can still
  get the old answer (`StaleUntilTheBump`).
- **Idempotency.** A key protects for one lifetime: k expiries allow k + 1 creates
  (`AtMostOneCreatePerLifetime`, `ExpiryAllowsAnotherCreate`).
- **Reminders.** One reminder per bucket needs more than a dedupe window inside the retention
  window: a sweep reads its clock before it inserts. With a stall of at most S microseconds, window W
  and retention N, it holds in every run if and only if `W + S <= N + 1` (`OncePerBucketExactly`).

## Model

| member | source | states |
|---|---|---|
| JobStore.Store.CreateJob | src/db/jobs.rs:13-46 | adds a queued job with no attempts and changes no other |
| JobStore.Store.ListReadyJobIds | src/db/jobs.rs:63-77 | returns distinct due jobs, earliest first; one that is left out means the limit was reached by jobs at least as overdue |
| JobStore.Store.RequeueStaleJobs | src/db/jobs.rs:82-108 | exactly the running jobs started at or before now less the lease are requeued, or dead-lettered if their attempts are used up, and reported; no other row changes |
| JobStore.Store.MarkJobRunning | src/db/jobs.rs:110-129 | claims if and only if the job is queued and due; counts the attempt; otherwise changes nothing |
| JobStore.Store.CompleteJob | src/db/jobs.rs:131-145 | completes the row whatever its status, with this result and finish time, unless it is gone |
| JobStore.Store.FailJob | src/db/jobs.rs:147-179 | requeues with backoff or dead-letters, decided from the worker's own copy of the job, whatever the row's status |
| JobStore.Store.PurgeTerminalJobs | src/db/retention.rs:24-37 | deletes exactly the completed and dead-lettered jobs whose finish, or schedule if there is none, is past retention, and counts them |
| JobRuns.RunSound | src/db/jobs.rs:82-179 | in every run, attempt numbers only grow, a worker's copy never exceeds the row's, and two workers on one job hold different attempts |
| JobRuns.OneHolder | src/db/jobs.rs:110-129 | in every run, late workers included, at most one worker holds a job's current claim |
| JobLease.LeaseProtectsClaim | src/db/jobs.rs:82-129 | in every run a claim stands until its lease is over: as long as nobody reports on the job it keeps running under that attempt, whatever reapers, purges and other workers do |
| JobLease.ReaperEndsLeaseExactly | src/db/jobs.rs:82-108 | however much later, a reaper takes the job from a claim that is still current if and only if the lease is over, to the queue with attempts left and to the dead letters without |
| JobLease.CompletedJobHasItsResult | src/db/jobs.rs:131-145 | in every run a completed job carries the payload of the last completion reported on it |
| JobLease.ResultIsKept | src/services/jobs.rs:159-182 | with current reports only it carries it for as long as its row exists |
| JobRuns.StepSpends | src/db/jobs.rs:82-179 | no step creates claim credit and every claim spends one: the measure behind the bound |
| JobRuns.ClaimBound | src/db/jobs.rs:82-179 | in every run no job is claimed more than 2 * max_attempts - 1 times |
| JobWitness.ClaimBoundIsReached | src/db/jobs.rs:82-179 | for every max_attempts some run claims a job exactly that often |
| JobTimely.TimelyLifecycle | src/services/jobs.rs:159-182 | with current reports only: queued means attempts remain, attempts never exceed the maximum, dead-letter means all were used, and a finished job never changes again |
| JobMaximum.OverrunExactly | src/db/jobs.rs:147-179 | one step queues a job with every attempt used if and only if it is a failure reported by a worker on it whose own attempt was below the maximum |
| JobMaximum.NeverOverrunExactly | src/db/jobs.rs:82-179 | in any run that happens at some point if and only if such a report is among the steps |
| JobMaximum.ClaimsWithinMaximum | src/db/jobs.rs:82-179 | without one no job is claimed more than max_attempts times, all other late reports included |
| JobMaximum.StaleFailureLeadsPast | src/db/jobs.rs:110-179 | after one the job can be claimed past its maximum |
| JobMaximum.TimelyClaimBound | src/services/jobs.rs:159-182 | with current reports only, at most max_attempts claims |
| JobTimely.AttemptsCountClaims | src/db/jobs.rs:110-129 | the stored attempt number counts the claims of the run |
| JobTimely.TerminalIsLeftExactlyBy | src/db/jobs.rs:131-179 | a finished status changes if and only if a worker still on that job reports: a completion of a dead-lettered job, or a failure that either finds it completed or has attempts left |
| JobTimely.LateFailureReopensACompletedJob | src/db/jobs.rs:147-179 | a run in which a completed job is queued again |
| JobBackoff.ClaimWaitsOutEveryBackoff | src/db/jobs.rs:154-159 | claim m of a job the reaper never takes back follows its first failure by at least 2^m - 2 seconds, or 510 + 256 (m - 9) past the ninth, whatever happens to other jobs |
| Backoff.TotalDelayClosedForm | src/db/jobs.rs:154-159 | the doubling, capped delays add up to that closed form |
| JobQueue.ListIsOnlyAHint | src/services/jobs.rs:134-141 | whatever the list loses, repeats or keeps too long, the store goes through a run of the protocol without the list |
| JobQueue.QueuedClaimBound | src/services/jobs.rs:134-182 | so the claim bound holds with the list as well |
| JobQueue.RequeueBetweenClaims | src/db/jobs.rs:82-129 | between two claims of a job some step requeued it |
| JobQueue.Queue.EnqueueJob | src/cache.rs:152-160 | appends to the list |
| JobQueue.Queue.DequeueJob | src/cache.rs:170-182 | takes the oldest id, or none from an empty list |
| JobQueue.DispatchReadyJobs | src/services/jobs.rs:134-141 | appends a ready listing to the list |
| JobQueue.Drain | src/services/jobs.rs:159-182 | by itself empties the list, claiming each id in turn at its own time if it can be claimed then |
| JobQueue.ProcessJob | src/services/jobs.rs:159-182 | claim, work, then complete or fail; no claim, no change |
| JobBacklog.DrainIsARun | src/services/jobs.rs:159-182 | draining by itself is a run of the protocol in which every id is tried |
| JobBacklog.EmptyingTheListIsARound | src/services/jobs.rs:134-182 | a dispatch and any run of the list without losses, until it is empty, try every listed id, whatever interleaves |
| JobBacklog.ListRoundsClearBacklog | src/services/jobs.rs:134-182 | with the list in between: ceil(n / limit) rounds, each a dispatch and whatever happens until the list is empty, leave none of the n jobs due at t0 waiting |
| JobBacklog.RoundShrinksBacklog | src/services/jobs.rs:134-141 | over any interleaved run in which every listed id is tried, the jobs due at t0 lose all those listed and drop by the limit, or to none |
| JobBacklog.RunsBringNoEarlierWork | src/db/jobs.rs:13-179 | once the clock has passed t0 no run makes another job due by t0 |
| JobBacklog.BacklogIsCleared | src/services/jobs.rs:134-141 | from any reachable state past t0, ceil(n / limit) consecutive rounds of one interleaved run leave none of the n jobs due at t0 waiting; each left by a claim or by the report of a worker that no longer held it, and there is no such report when reports are current |
| OutboxStore.Outbox.EnqueueWebhookDeliveries | src/db/webhooks.rs:147-168 | each of the tenant's active webhooks that listen to the event gets exactly one new pending row, due at once and owned by it; nothing else changes |
| OutboxStore.Outbox.ClaimPending | src/db/webhooks.rs:172-196 | takes the earliest due rows nobody has locked, as many as there are up to the limit; counts an attempt on each and hides it for the window; returns exactly the new rows |
| OutboxStore.ChooseRows | src/db/webhooks.rs:178-186 | the choice itself: due, unlocked, none left out that is due earlier, short of the limit only if nothing is left |
| OutboxStore.Outbox.MarkDelivered | src/db/webhooks.rs:198-210 | marks the row delivered, whatever its status |
| OutboxStore.Outbox.Fail | src/db/webhooks.rs:212-244 | reschedules with backoff or dead-letters, decided from the claimed copy |
| OutboxStore.Outbox.Redeliver | src/db/webhooks.rs:248-289 | another webhook's, missing and pending rows are refused unchanged; a finished one starts over |
| OutboxStore.Outbox.RecordOutcomes | src/jobs/webhook_dispatcher.rs:42-75 | the dispatch loop's effect on the table, row by row, up to the first database error, which it returns |
| OutboxStore.OneOutcomeEach | src/jobs/notifier.rs:34-67 | the loop records exactly one outcome for each claimed row and touches no other |
| OutboxRuns.RunSound | src/db/webhooks.rs:172-196 | in every run locked rows are due, unchanged since the lock, and locked once |
| OutboxRuns.OutcomesAreRecorded | src/db/webhooks.rs:198-244 | an unlocked claim is ended by recording what came of its send, in the row and by the claimed copy; a dropped one leaves the row |
| OutboxRuns.BatchesAreDisjoint | src/db/webhooks.rs:172-196 | concurrent claim statements lock disjoint batches within their limits |
| OutboxRuns.ClaimsKeepTheirDistance | src/db/notifications.rs:50-74 | two claims of one row with no outcome or redelivery between start at least 60 seconds apart |
| OutboxRuns.FinalStatesAreEarned | src/db/webhooks.rs:198-244 | dead-letter means at least max_attempts claims ever, delivered at least one successful send |
| OutboxTimely.PunctualIsTimely | src/db/webhooks.rs:172-196 | if every outcome lands before the 60-second window of its claim closes, no row is claimed while an earlier claim awaits its outcome |
| OutboxTimely.TimelyAttempts | src/db/webhooks.rs:212-244 | then attempts never exceed the maximum and dead-letter means all were used |
| OutboxTimely.ClaimWaitsOutEveryBackoff | src/db/notifications.rs:101-106 | and claim m follows the first failure by the same backoff sums as for jobs, for deliveries and notifications alike |
| OutboxTimely.CrashesExceedAnyMaximum | src/db/webhooks.rs:172-196 | any number of attempts on a pending row is reached when dispatchers crash |
| OutboxTimely.UsedUpExactly | src/db/webhooks.rs:172-244 | in any run a step leaves a row pending with every attempt used if and only if it claims the row for its last attempt or records the failure of an earlier attempt after the last was used |
| OutboxTimely.MaximumIsPassedExactly | src/db/webhooks.rs:172-244 | a row passes its maximum if and only if it is claimed in that state |
| VersionedCache.TaskCache.BumpTenantCacheVersion | src/cache.rs:146-150 | raises one tenant's version by one |
| VersionedCache.TaskCache.ReadCached | src/services/tasks.rs:24-87 | a read alone returns the query's answer on the database and caches it under the version it read |
| VersionedCache.TaskCache.CommitAndBump | src/services/tasks.rs:125-206 | a bumped write makes every reachable entry correct for the new database, whatever earlier bumps failed; after a failed bump the write stands and only that tenant's answers may be stale |
| VersionedCache.TaskCache.Expire | src/cache.rs:122-137 | expiry of a tenant's entries ends the staleness a failed bump left |
| VersionedCache.EntriesAreAsFreshAsTheirVersion | src/services/tasks.rs:24-87 | in every run an entry under version v was computed on a state containing every write bumped by the time the version became v |
| VersionedCache.ReadsSeeBumpedWrites | src/services/tasks.rs:24-206 | in every run a read that looks up its version after a write's bump answers from a state containing that write |
| VersionedCache.StaleUntilTheBump | src/services/tasks.rs:138-155 | a run in which a read between commit and bump returns the old answer |
| KeyBuilders.CacheKeysDoNotCollide | src/cache.rs:271-301 | cache keys agree only on the same kind, tenant, version and payload |
| KeyBuilders.IdempotencyKeysDoNotCollide | src/cache.rs:284-287 | idempotency keys agree only on the same tenant, route and client key |
| KeyBuilders.DedupeKeysDoNotCollide | src/services/jobs.rs:374-377 | dedupe keys agree only on the same kind, task, assignee and bucket |
| Keyset.FallingIsUnique | src/db/tasks.rs:129-164 | a set of rows has only one newest-first order |
| Keyset.Resume | src/db/tasks.rs:683-691 | the rows below the cursor after k rows are exactly the rest of the listing |
| Keyset.ListTasks | src/db/tasks.rs:129-164 | returns matches past the cursor newest first, and a next cursor, the last of them, exactly when more remain; without one no match is left out |
| Keyset.AnswersNewestFirst | src/db/tasks.rs:129-164 | an answer is newest first, the greater id first among equals, holds only matches past the cursor and leaves out only older ones, when the limit is reached |
| Keyset.FollowingCursorsListsEverything | src/db/tasks.rs:129-164 | on a table at rest following next_cursor gives every match once, newest first, in max(1, ceil(n / limit)) pages |
| Export.WritersEvolve | src/db/tasks.rs:335-383 | any mix of later-stamped updates of one or many rows, deletions and relabellings is an evolution the loop allows |
| Export.WritersMakeHistory | src/db/tasks.rs:335-383 | whatever writers run between the queries, the queries see such a history |
| Export.ExportTasks | src/db/tasks.rs:481-505 | a chunk is the newest matching rows below the cursor, short only if none remain |
| Export.RemainingShrinks | src/services/jobs.rs:196-216 | each full chunk leaves strictly fewer rows below the cursor, whatever writers do |
| Export.EmittedOnce | src/services/jobs.rs:196-216 | no task is emitted twice, even under two stamps |
| Export.ExportAll | src/services/jobs.rs:196-216 | with writers running the loop ends, emits in order without repeats, includes every task that matched unchanged throughout and none that never matched |
| Export.ExportUnderWriters | src/services/jobs.rs:196-216 | over a first table and any writes between its queries: newest first, no task twice, every task that matched under one stamp in all queries, none that matched in none, in floor(n / 500) + 1 queries |
| Export.ExportAtRest | src/services/jobs.rs:196-216 | on a table at rest the export equals the paged listing, in floor(n / chunk) + 1 queries |
| RateLimit.RateLimiter.Limit | src/cache.rs:184-213 | one call on one key, stamped by the host and expiring on Redis's clock: allowed exactly when the refilled bucket covers the cost, with the least sufficient wait otherwise |
| RateLimit.ExpiredIsFull | src/cache.rs:25-47 | a bucket whose deadline has passed would be full, unless the host clock fell behind Redis's by more than the slack |
| RateLimit.ExpiryIsInvisible | src/cache.rs:15-52 | within the slack replies, spending and final bucket are the same with keys that never expire, host clocks stepping back included |
| RateLimit.ExpiryIsInvisibleExactly | src/cache.rs:191-195 | for any positive capacity and refill that is so if and only if the host clock falls behind by at most the slack |
| RateLimit.SlackIsASecond | src/cache.rs:195 | the slack is 999 or 1000 ms |
| RateLimit.UnsteadyWindowBound | src/cache.rs:15-52 | within the slack, in a window of T ms the allowed cost is at most capacity + refill * (T + all backward steps), across denials and expiries |
| RateLimit.WindowBound | src/cache.rs:15-52 | with a host clock that never steps back it is at most capacity + refill * T |
| RateLimit.BoundIsKeptExactly | src/cache.rs:27-47 | given stamps keep that bound for all capacities, refills and costs if and only if their forward steps add up to at most T |
| RateLimit.BackwardClockBreaksTheBound | src/cache.rs:27-36 | four calls stamped 0, 1000, 0, 1000 spend 4000 where the bound for their second is 3000, just what the backward step allows |
| RateLimit.CappedRefillComposes | src/cache.rs:27-36 | refilling in two stretches equals refilling once, cap included |
| RateLimit.DeniedProbesAreInvisible | src/cache.rs:34-44 | with a forward host clock, dropping any denied calls from a history changes no other reply, both histories being within the slack |
| RateLimit.RetryAfterIsExact | src/cache.rs:34-44 | the advertised wait is exactly the least that succeeds, if and only if the cost fits the capacity |
| Idempotency.IdempotencyStore.Claim | src/cache.rs:231-238 | claims a key exactly when it is absent or its deadline has passed; the claimed key reads pending until its time to live is over and absent from then on |
| Idempotency.IdempotencyStore.StoreResponse | src/cache.rs:240-247 | the key reads as this response until a full time to live is over and as absent from then on |
| Idempotency.IdempotencyStore.DeleteKey | src/cache.rs:249-253 | the key reads as absent at every time, every other key as before |
| Idempotency.IdempotencyStore.Replay | src/http/helpers.rs:117-130 | the stored response, or none while absent, expired or pending |
| Idempotency.IdempotencyStore.ClaimTwice | src/cache.rs:231-238 | a second claim fails while the first one's time to live lasts and wins from then on |
| Idempotency.IdempotencyStore.StoreThenReplay | src/cache.rs:215-247 | a stored response is replayed exactly until its time to live is over, when the key can be claimed again |
| Idempotency.IdempotencyStore.Create | src/http/handlers.rs:656-692 | runs the service exactly when the key was absent, keeps its answer, status included, or frees the key; no other key changes |
| Idempotency.AloneAnswers | src/http/handlers.rs:656-692 | what one request does by itself is a run of the interleaved protocol |
| Idempotency.AtMostOneCreatePerLifetime | src/http/handlers.rs:656-692 | however requests interleave, crash or return early, k expiries allow at most k + 1 creates |
| Idempotency.ExpiryAllowsAnotherCreate | src/cache.rs:231-238 | and for every k some run makes that many |
| Idempotency.EveryoneGetsTheSameAnswer | src/http/helpers.rs:117-130 | inside one lifetime all successes and replays carry the one create's status and body |
| Idempotency.AbandonedKeyStaysPending | src/http/handlers.rs:656-692 | a handler that returns early or crashes after its claim leaves the key pending, so those who lost the claim get a conflict |
| Idempotency.FailedKeyIsReusable | src/http/handlers.rs:686-690 | once all are answered the key is free exactly when nothing was created: the next request works, otherwise it gets the replay |
| RefreshTokens.TokenStore.CreateRefreshToken | src/db/refresh_tokens.rs:9-30 | adds an active token of that user and tenant with that expiry |
| RefreshTokens.TokenStore.RotateRefreshToken | src/db/refresh_tokens.rs:46-92 | rotates exactly an active token, linking it to a successor of the given user and tenant; otherwise changes nothing |
| RefreshTokens.TokenStore.RevokeRefreshToken | src/db/refresh_tokens.rs:94-107 | revokes one token, keeping an earlier revocation time |
| RefreshTokens.TokenStore.RevokeUserTenantRefreshTokens | src/db/refresh_tokens.rs:109-127 | revokes the user's tokens in one tenant |
| RefreshTokens.TokenStore.RevokeAllUserRefreshTokens | src/db/refresh_tokens.rs:129-142 | revokes all the user's tokens |
| RefreshTokens.TokenStore.ListActiveRefreshTokens | src/db/refresh_tokens.rs:146-162 | exactly the user's active tokens, once each, newest first |
| RefreshTokens.TokenStore.RevokeUserRefreshToken | src/db/refresh_tokens.rs:166-184 | revokes the user's own active token, or reports that there is none |
| RefreshTokens.TokenStore.PurgeStaleRefreshTokens | src/db/retention.rs:7-20 | deletes exactly the tokens expired or revoked before the cutoff and counts them |
| RefreshTokens.RotationsFormDisjointChains | src/db/refresh_tokens.rs:46-92 | in every run chains from different roots share no token, and all but a chain's last token are revoked and linked to the next |
| RefreshTokens.EveryTokenHasARoot | src/db/refresh_tokens.rs:46-92 | every issued token lies on the chain of some root |
| RefreshTokens.RotatedAtMostOnce | src/services/auth.rs:115-150 | however many refreshes passed the read check, a token is rotated at most once |
| RefreshTokens.RevokeAllStopsCheckedRefreshes | src/services/auth.rs:115-150 | a refresh that passed its read check before a revoke-all fails at rotation |
| TokenOwners.TokensAreAsMinted | src/db/refresh_tokens.rs:9-92 | in every run a token has the user, tenant and expiry of the login that made it, or the user of the token it replaced, for as long as its row exists |
| TokenOwners.RevokeAllEndsTheChain | src/db/refresh_tokens.rs:129-142 | revoking all tokens of the user a token was made for leaves none of its successors active |
| TokenOwners.NothingListedAfterRevokeAll | src/db/refresh_tokens.rs:129-162 | and lists no session for that user |
| TokenOwners.RefreshDecidesExactly | src/services/auth.rs:115-150 | the read check and the rotation each succeed exactly on an unrevoked, unexpired token; a refused rotation changes no token |
| RefreshTokens.PurgingIsInvisible | src/db/retention.rs:7-20 | every refresh, list and revoke in a run gives the same result with all purges left out |
| BulkUpdate.NormalizeBulkTaskIds | src/domain/tasks.rs:114-134 | keeps each id where first seen; fails exactly on no ids or more than 100 distinct ones |
| BulkUpdate.FirstSeenIsTheOnlyOrder | src/domain/tasks.rs:112-122 | a list is in first-seen order if and only if it is the deduplicated one |
| BulkUpdate.LengthCheckIsExact | src/db/tasks.rs:359-363 | comparing lengths decides that all ids were found exactly when they are distinct |
| BulkUpdate.TaskTable.UpdateStatus | src/db/tasks.rs:335-383 | updates and audits all the ids or, if any is missing, nothing |
| BulkUpdate.SortRestoresRequestOrder | src/services/tasks.rs:170-177 | sorting by position gives request order from any order the database returns |
| BulkUpdate.TaskTable.BulkUpdateTaskStatus | src/services/tasks.rs:157-182 | succeeds if and only if the ids are valid, all found and the bump goes through; answers in first-seen order whatever order the database returns; its effect is the request's specification, bump failure included |
| BulkUpdate.AnswersInRequestOrder | src/services/tasks.rs:170-181 | a successful request answers with its ids in first-seen order without repeats and their new rows, and emits them in that order |
| BulkUpdate.FailuresExactly | src/services/tasks.rs:164-169 | a failure leaves rows and audit as they were if and only if it is not the bump's; on a bump failure exactly the requested rows are changed and audited once each, nothing bumped or emitted |
| BulkUpdate.FailedBumpKeepsTheUpdate | src/services/tasks.rs:165-169 | one such request |
| BulkUpdate.CommitIsExact | src/db/tasks.rs:335-383 | a committed update changes exactly the requested rows and audits each once |
| Reminders.NotificationTable.EnqueueNotification | src/db/notifications.rs:19-46 | inserts unless the dedupe key is taken, and says which |
| Reminders.NotificationTable.EnqueueDueReminderNotifications | src/services/jobs.rs:362-403 | after a sweep every candidate has its reminder, overdue exactly if it was due by then, in the bucket of the sweep; earlier rows are untouched, and the count is of new ones |
| Reminders.NotificationTable.PurgeTerminalNotifications | src/db/retention.rs:41-54 | deletes exactly the finished notifications past retention and counts them |
| Reminders.BucketInSeconds | src/services/jobs.rs:362-364 | counting whole seconds gives the bucket counting microseconds does |
| Reminders.OncePerBucketExactly | src/services/jobs.rs:362-399 | in every run one reminder per subject and bucket, if and only if window + stall <= retention + 1 microsecond |
| Reminders.ReminderRate | src/services/jobs.rs:362-399 | then at most ceil((L + S - 1) / W) + 1 reminders per subject in any L microseconds |
| Reminders.EveryReminderIsCounted | src/services/jobs.rs:362-399 | that bound counts every reminder of the subject in the interval |
| Csv.FieldRoundTrip | src/services/jobs.rs:286-292 | an escaped field reads back as itself, whatever it contains |
| Csv.QuotesExactly | src/services/jobs.rs:286-292 | a field is quoted if and only if it holds a quote, comma, CR or LF |
| Csv.RecordRoundTrip | src/services/jobs.rs:260-283 | a printed record reads back as its fields |
| Csv.HeaderIsARow | src/services/jobs.rs:252-258 | the header line is the printed row of column names |
| Csv.RenderTasksCsv | src/services/jobs.rs:252-284 | an RFC 4180 section 2 reader recovers the twelve column names and, under each, that attribute of every task, empty if it is absent |
| ArtifactKeys.AcceptedKeysGoDown | src/storage.rs:102-119 | a key is accepted exactly when its characters are allowed and it leads straight down from the root |
| ArtifactKeys.ArtifactsStayApart | src/storage.rs:28-31 | accepted artifacts stay below the root and no two share a file |

## Left out

- JobQueue.ProcessJob: the work itself is a given outcome; a database error while reporting is a worker that crashes in `JobRuns`.
- JobRuns.ClaimBound: attempt numbers are unbounded integers, not 32-bit ones.
- JobBacklog.BacklogIsCleared: a round ends when every listed id has been tried by a free worker; an id the list loses is tried in the first later round that lists it.
- JobQueue.Drain: nothing else acts while it drains; the rounds of `JobBacklog` allow everything else.
- OutboxStore.Outbox.EnqueueWebhookDeliveries: the new ids come from a given supply, as the database's random ones.
- RateLimit.WindowBound: integers are exact where the script computes in doubles and the caller multiplies and casts 64-bit words.
- Idempotency.IdempotencyStore.Claim: SET NX and EXPIRE are one step; a claimer that crashes between them leaves a key that never expires, which is a run without expiry.
- Idempotency.IdempotencyStore.Create: the whole handler runs at one instant, with a positive time to live; Redis rejects SETEX with a zero one.
- Idempotency.AtMostOneCreatePerLifetime: a failed service call has no effect.
- Idempotency.FailedKeyIsReusable: holds for the handlers shaped like `create_project`; those that return an error after claiming leave the key pending, which the at-most-once result covers.
- Export.ExportAll: every new stamp is later than the queries before it; a writer that commits late under an earlier stamp is not modelled.
- Keyset.ListTasks: the filter is an arbitrary predicate on a row's content; full-text search, joins and query building are not modelled.
- VersionedCache.ReadsSeeBumpedWrites: a read that misses is evaluated on one committed state; Redis errors and eviction of entries are expiry, but the version counter, which has no time to live, is assumed never to be evicted: starting again at 0 it could reach entries of an earlier count.
- Reminders.OncePerBucketExactly: which tasks are candidates is any list; notifications without a dedupe key take no part in the runs.
- BulkUpdate.TaskTable.BulkUpdateTaskStatus: a bump that Redis applied while its reply was lost counts as neither outcome.
- BulkUpdate.SortByKey: an insertion sort stands for the library's stable sort.
- RefreshTokens.RevokeAllStopsCheckedRefreshes: token text, signatures, users and memberships are not modelled.
- PostgreSQL anomalies below statement granularity; row locks are explicit only where SKIP LOCKED needs them.
- The last-owner rule and the one-sweep-at-a-time check: each counts and then acts in separate statements, so only a serial version holds.
- The access-token denylist, JWT, password hashing, webhook signatures, mail, OAuth, HTTP and gRPC routing, metrics and configuration parsing.
- Role checks, field validation, patch semantics, dashboard counts, comments, labels, attachments and projects beyond what the filters need.
- File reads and writes of the artifact store; only where a key leads is modelled.
