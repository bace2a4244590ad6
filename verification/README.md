# Relay's delivery pipeline, verified

Relay accepts events over HTTP, fans them out to webhook endpoints and delivers them with retries, per-endpoint
ordering, circuit breaking, rate limits and concurrency caps. This project models that pipeline and proves what it
promises, for every input, every run and every interleaving:

| module | models |
|---|---|
| `Retry` | the retry policy: delays, budgets, Retry-After |
| `TokenBucket`, `Slots` | the two Lua scripts of the rate limiter, and what their key expiry hides |
| `Breaker`, `BreakerRecount`, `BreakerRuns`, `BreakerTriggers` | the circuit breaker: its scripts, the incremental window against a recount, properties of whole runs, and what becomes of the diagnosis trigger on the channel |
| `Ordering` | the per-endpoint lock and FIFO list |
| `RetryQueue` | the retry queue, its member encoding, the due-mover and the drain loop of the scheduler |
| `Protocol` | worker, streams, retry queue, ordering, ingest and replay as one labelled transition system |
| `AtLeastOnce`, `RowCoverage`, `LostRow` | nothing owed is lost, in every run; and the reading off the rows, with exactly the steps at which it fails and holds again |
| `SingleCopy` | conservation: one copy of each unsettled delivery, in runs where live work is not stolen |
| `RetryBudget` | the accounting of attempts in one cycle of a delivery |
| `Provenance` | where the waits on the retry queue, the exceptions and the effects of pops and replays come from |
| `OrderedLock`, `OrderedFifo` | mutual exclusion and first-in first-out delivery on ordered endpoints |
| `Environment`, `Worker` | the worker's method bodies, each proved to be a run of the protocol, taking its steps in a stated order, whatever else happens between its statements |
| `Ingest` | idempotent ingestion as a transition system of concurrent requests |

Conventions. A Lua script, a single Redis command, a database read and a commit are each one atomic step. Time is
`real`; a clock may move backwards unless a property says otherwise. Identifiers (UUIDs, stream ids, lock tokens) are
fresh natural numbers; strings appear only where the member encoding matters. The random jitter is any factor in
[0.8, 1.2]. A send is any response. Between two steps of a handler any other step may happen, and any handler may raise
or crash. A run is the sequence `ss` of its states with the `steps` between them.
The database is Postgres at read committed: a unique key that another open transaction has inserted makes an INSERT
wait. The sessions are SQLAlchemy's with its defaults but for `expire_on_commit` (relay/db/engine.py:20): a select
flushes what was added before it, and a rollback expires every object, which then cannot be read without a query.

## What the code does that its documentation does not say

- The status column is not enough for at-least-once. A handler that stalls between reading a row and its first commit
  writes 'delivering' over a row another handler has meanwhile settled and acknowledged; if it then crashes, the row
  stays unsettled and nothing will bring it back (`LostRow.StalledHandlerStrandsARow`). The guarantee holds for what was
  settled in the current cycle (`AtLeastOnce.NothingOwedIsLost`). Read off the rows, a delivery that is XADDed,
  unsettled and not dropped has a copy throughout a run if and only if no step of the run is such a commit, of
  'delivering' or of the 'failed' that follows it, over a settled row whose delivery has no copy left
  (`RowCoverage.RowsAreCoveredExactlyWhenNothingStrands`). At a single point it has none exactly if one was and none of
  the restoring steps has happened since (`RowCoverage.UncoveredExactlySinceStranding`); `RowCoverage.RestoresExactly`
  says which those are.
- The duplicate check of `process_delivery` (relay/delivery/worker.py:79) can never be true: the second select returns
  the row object that the first one loaded, and that one was unsettled (`AtLeastOnce.RunKeepsInv`).
- A request that loses the race for an idempotency key is not answered with the winner's event (the comment at
  relay/api/routes/events.py:82) but with a 500. Its INSERT is flushed by the select of the endpoints (line 65), outside
  the `try` of line 79, so nothing catches the IntegrityError (`Ingest.LoserFails`).
- The handler of line 81 is therefore only reached when an endpoint selected for the fan-out is deleted before the
  commit, and it answers nobody: without a key the assert of line 85 raises, and with one the expired `tenant` of
  line 86 does (`Ingest.LoneRequestFails`). A request fails exactly in these two cases (`Ingest.FailsExactlyWhen`).
- The early diagnosis trigger at five failures does not always come "well before delivery is fully suspended"
  (relay/delivery/circuit_breaker.py:175). It is a PUBLISH after the script, and a worker that stalls or dies between
  the two announces after the opening or not at all (`BreakerTriggers.StalledTriggerIsLateOrLost`). It comes before
  exactly if its worker got there before the tenth failure (`BreakerTriggers.AnnouncedBeforeOpeningExactlyWhen`).
- An endpoint that is "continuously open for 72 hours" (the repository's README, line 199) is not what triggers the
  automatic disable: each failed probe restarts `opened_at`. A breaker that opens and whose every probe fails is never
  closed and yet, 72 hours later, not due (`BreakerRuns.FailedProbesPostponeTheDisable`). It takes 72 hours without a
  close, a reset or a failed probe (`BreakerRuns.AutoDisablesExactlyWhen`), and with the denial at the same instant it
  can only happen in half_open (`BreakerRuns.DeniedAndDisabledOnlyInHalfOpen`).
- The per-endpoint lock is not always released by the handler that took it: an exception between acquire_lock and the
  `try` (relay/delivery/worker.py:244-260) leaves it until it expires. That and a crash are the only ways
  (`OrderedLock.OrphanedExactlySince`).
- Dead-lettering does not take "~8h" (the repository's README, line 335): with 7 attempts and no Retry-After the waits
  add up to at most 11706 seconds, and the last entry of the schedule is never used (`Retry.CycleWaitBounds`).

## Model

| member | source | states |
|---|---|---|
| Retry.CycleDies | relay/delivery/retry.py:68-93 | a failing cycle is granted fewer than max(1, configured_max) waits, and at most 7 unless a Retry-After was honoured |
| Retry.RetryableFailuresUseWholeBudget | relay/delivery/retry.py:34-44 | the budget is not cut short: failures that are neither terminal nor carry Retry-After use exactly min(configured_max - 1, 7) waits |
| Retry.NextDelayByValue | relay/delivery/retry.py:10-93 | the answer by value: a failure below the limit is retried after 5, 30, 120, 600, 1800, 7200 or 18000 s, by attempt, within 20 %; a 4xx that is neither 408 nor 429 only up to attempt min(3, configured_max) - 1; a 429 with Retry-After after that many seconds, at most 3600 |
| Retry.CycleByValue | relay/delivery/retry.py:68-93 | the waits of a whole cycle by value, up to exactly the first failure that is not retried |
| Retry.WaitsAddUpToAtMost | relay/delivery/retry.py:9-31 | for every configured maximum and from every attempt on, the waits of any cycle add up to at most the longest wait of each attempt it may make: the schedule with the largest jitter, or the capped Retry-After where one is honoured |
| Retry.CycleWaitBounds | relay/delivery/retry.py:68-93 | with 7 attempts one cycle waits at most 26640 s, and at most 11706 s without an honoured Retry-After |
| Retry.CycleWaitBoundsAreTight | relay/delivery/retry.py:9-29 | both bounds are reached by concrete cycles |
| TokenBucket.GrantedExactlyWhenFits | relay/delivery/rate_limit.py:29-36 | a call is granted if and only if, counted from every earlier call, the grants plus this one stay within rate + rate times the forward movement of the clock; clocks may go backwards |
| TokenBucket.FitsDeterminesTheAnswers | relay/delivery/rate_limit.py:14-42 | that specification has only one solution: any answers that meet it are the bucket's |
| TokenBucket.IntervalBound | relay/delivery/rate_limit.py:19-30 | under a nondecreasing clock any interval [s, t] sees at most rate * (1 + t - s) grants |
| TokenBucket.ExpiryIsUnobservable | relay/delivery/rate_limit.py:38-41 | with a nondecreasing clock the bucket whose key expires gives the same answers as one that never forgets |
| TokenBucket.TokenBucketKey.Script | relay/delivery/rate_limit.py:14-42 | the Lua script, field by field, takes a token exactly as the specification function says |
| TokenBucket.TokenBucketKey.TakeToken | relay/delivery/rate_limit.py:76-80 | the object's state and answers are those of the run of all calls so far |
| Slots.AtMostCapInFlight | relay/delivery/rate_limit.py:47-65 | over every run in which holders release within 60 s of their own clock reading, at most cap attempts of a tenant are in flight, even when that reading is stale; acquires that are refused may be as stale as they like |
| Slots.CrashedSlotsAreReusable | relay/delivery/rate_limit.py:54-55 | a slot never released stops counting at its score: it makes no difference to any later acquire, which is granted if and only if the live holders and the crashed ones still before their score are fewer than the cap |
| Slots.LeakedAreCrashed | relay/delivery/rate_limit.py:93-94 | only a crash leaks a slot: one that is taken without a live holder was held by a handler that crashed |
| Slots.ExpiryIsUnobservable | relay/delivery/rate_limit.py:59 | the expiring key answers every sequence of acquires, releases, sweeps and counts like one that is kept, under a nondecreasing clock, if each count comes less than 60 s after a sweep |
| Slots.SlotKey.AcquireSlot | relay/delivery/rate_limit.py:83-90 | sweeps expired slots, refuses at the cap, and otherwise adds the token with its expiry; the set never exceeds the cap |
| Slots.SlotKey.ReleaseSlot | relay/delivery/rate_limit.py:93-94 | frees the caller's own slot and nobody else's |
| Slots.SlotKey.InflightCount | relay/delivery/rate_limit.py:97-100 | a sweep and then a count, with anything of other clients in between: the count is at most the cap and has only slots unexpired at now or acquired since; with nothing in between it is exactly the slots whose expiry is after now |
| BreakerRecount.KeysMatchRecount | relay/delivery/circuit_breaker.py:55-74 | under nondecreasing clocks the two sorted sets are the outcomes and failures since the last clear within the window, and `consecutive` is the trailing failure run |
| BreakerRecount.OpensExactlyWhenTripped | relay/delivery/circuit_breaker.py:86-101 | a failure opens a closed breaker if and only if that run is 10 or more, or the recounted window has at least 20 attempts with more than half failing |
| BreakerRecount.ExpiryIsUnobservable | relay/delivery/circuit_breaker.py:59-66 | the expiry of the window sets never changes the breaker |
| BreakerRuns.ClosedIsClean | relay/delivery/circuit_breaker.py:97-106 | a closed breaker has no timestamps and fewer than 10 consecutive failures |
| BreakerRuns.SuccessCloses | relay/delivery/circuit_breaker.py:77-106 | a success or a reset closes the breaker whatever its state; if it was not closed, no timestamp and no window is left |
| BreakerRuns.ClosedExactlyWhen | relay/delivery/circuit_breaker.py:77-106 | at every point of every run the breaker is closed if and only if every opening so far was followed by a success or a reset |
| BreakerRuns.HalfOpenExactlyWhen | relay/delivery/circuit_breaker.py:82-144 | and half open if and only if a probe was let through and no outcome or reset has come since |
| BreakerRuns.FailureKeepsOut | relay/delivery/circuit_breaker.py:82-101 | a failed probe opens it again from that moment; a failure that finds it open leaves the opening time |
| BreakerRuns.AdmittedExactlyWhen | relay/delivery/circuit_breaker.py:122-144 | a request is admitted if and only if the breaker is closed, or is open and opened at least 600 s ago |
| BreakerRuns.TimestampsNameTheOpening | relay/delivery/circuit_breaker.py:97-106 | a breaker that is not closed carries the time of its latest opening, and in half_open a probe time at least 600 s later |
| BreakerRuns.ProbesAreSeparatedByAnOpening | relay/delivery/circuit_breaker.py:132-144 | between any two probes of a run there is an opening, and the later probe is at least 600 s after it |
| BreakerRuns.ProbesAreApart | relay/delivery/circuit_breaker.py:132-144 | under nondecreasing clocks any two probes are at least 600 s apart, across closes and resets |
| BreakerRuns.OneAdmissionPerCooldown | relay/delivery/circuit_breaker.py:127-144 | between two consecutive openings with no close or reset exactly one request is admitted, a probe |
| BreakerRuns.AutoDisablesExactlyWhen | relay/delivery/circuit_breaker.py:222-227 | the automatic disable is due exactly when the current opening is at least 72 hours old and nothing has closed, reset or reopened the breaker since |
| BreakerRuns.FailedProbesPostponeTheDisable | relay/delivery/circuit_breaker.py:82-101 | concrete runs, one for every number of failed probes, in which a breaker once opened is never closed and its auto-disable is still not due, 72 hours after the opening if there are 432 probes |
| BreakerRuns.DeniedAndDisabledOnlyInHalfOpen | relay/delivery/worker.py:191-199 | a denial and a due disable at one instant happen only in half_open |
| BreakerTriggers.ThresholdOpeningWasAskedFor | relay/delivery/circuit_breaker.py:171-181 | an opening by the streak threshold happens at exactly 10 failures, and exactly one earlier answer of the script in that streak, at 5, asks for the trigger |
| BreakerTriggers.AsksExactlyAtTheFifth | relay/delivery/circuit_breaker.py:177-181 | the answer asks for the trigger if and only if it is the fifth failure since the last success or reset and leaves the breaker closed |
| BreakerTriggers.TriggersAreAccounted | relay/delivery/circuit_breaker.py:171-192 | each answer that asks is still to be published, or lost with its worker, or on the channel exactly once; no other trigger is |
| BreakerTriggers.OneTriggerPerStreak | relay/delivery/circuit_breaker.py:174-176 | any two triggers on the channel, however late, are of different failure streaks |
| BreakerTriggers.AnnouncedBeforeOpeningExactlyWhen | relay/delivery/circuit_breaker.py:171-192 | subscribers see the trigger of a streak before the opening it leads to if and only if the worker of the fifth failure had published by the tenth |
| BreakerTriggers.StalledTriggerIsLateOrLost | relay/delivery/circuit_breaker.py:182-192 | a concrete run in which the trigger follows the opening, and one in which it never comes |
| Breaker.CircuitBreaker.RecordScript | relay/delivery/circuit_breaker.py:43-117 | the Lua script, key by key, leaves exactly the keys of the specification and reports the transition: a success closes the breaker and clears it, a failed probe opens it again |
| Breaker.CircuitBreaker.RecordOutcome | relay/delivery/circuit_breaker.py:148-193 | up to the script's answer: one more outcome of the history, with the same effect on the state; a transition on the channel exactly if there is one, and a trigger to be published exactly at five consecutive failures of a closed breaker |
| Breaker.CircuitBreaker.PublishTrigger | relay/delivery/circuit_breaker.py:182-192 | the trigger of one such answer goes on the channel, once, whatever was called in between |
| Breaker.CircuitBreaker.AllowScript | relay/delivery/circuit_breaker.py:122-145 | the Lua script decides and promotes as specified: closed admits, open admits a probe from 600 s after the last one or the opening, half_open denies |
| Breaker.CircuitBreaker.AllowRequest | relay/delivery/circuit_breaker.py:196-202 | one more question of the object's history, answered as specified |
| Breaker.CircuitBreaker.ForceClosed | relay/delivery/circuit_breaker.py:215-219 | a reset leaves no key |
| Breaker.CircuitBreaker.ShouldDisable | relay/delivery/circuit_breaker.py:222-227 | true exactly for a breaker that is not closed and whose opening time is at least 72 hours ago |
| Ordering.AtMostOneWithinLease | relay/delivery/ordering.py:44-53 | under arbitrary acquires, expiries, crashes and late releases, at most one holder is inside its lease |
| Ordering.LateReleaseIsHarmless | relay/delivery/ordering.py:21-29 | a release by anyone else, however late, leaves the current holder's lock |
| Ordering.ReleaseFrees | relay/delivery/ordering.py:21-29 | a release within the lease leaves no lock |
| Ordering.EntersExactlyWhenFree | relay/delivery/ordering.py:44-48 | nobody is kept out for good: an acquire succeeds if and only if there is no key or it has lapsed, in particular once every earlier success is 30 s ago |
| Ordering.LockKey.AcquireLock | relay/delivery/ordering.py:44-48 | SET NX PX: succeeds exactly if there is no key or it expired by now, and then holds it for 30 s |
| Ordering.LockKey.ReleaseLock | relay/delivery/ordering.py:51-53 | deletes the key if and only if it is unexpired and holds the caller's token |
| Ordering.OrderedQueue.EnqueueOrdered | relay/delivery/ordering.py:40-41 | appends |
| Ordering.OrderedQueue.PeekHead | relay/delivery/ordering.py:56-59 | the head, or none, without removing it |
| Ordering.OrderedQueue.PopHead | relay/delivery/ordering.py:62-65 | removes the first occurrence only, and says whether there was one; otherwise the list stays |
| RetryQueue.SplitUndoesEncode | relay/delivery/retry_queue.py:26-34 | splitting an encoded member gives back the delivery, event and endpoint and the shard, for all nonempty ids without the separator |
| RetryQueue.EncodeIsInjective | relay/delivery/retry_queue.py:43-50 | different deliveries never share a member |
| RetryQueue.DecimalIsNumeral | relay/delivery/enqueue.py:32-33 | reading the digits of a shard's stream name gives the shard back, so different shards have different streams |
| RetryQueue.HomeIsUnique | relay/delivery/enqueue.py:26-33 | an endpoint has exactly one home stream, and its shard is below the number of shards |
| RetryQueue.MoverAgreesWithEnqueue | relay/delivery/enqueue.py:26-47 | the mover rebuilds the entry, for the stream enqueue_delivery uses, which is the endpoint's home |
| RetryQueue.EachStreamGetsItsShare | relay/delivery/retry_queue.py:30-35 | moving appends to each stream exactly the moved members destined for it, in order |
| RetryQueue.EveryAddIsMovedOnce | relay/delivery/retry_queue.py:22-38 | over any interleaving of schedulers, an added member is moved or removed once per addition, or still waits |
| RetryQueue.RetryQueue.ScheduleRetry | relay/delivery/retry_queue.py:53-63 | the member waits once, with the score now + delay, and every other member keeps its score |
| RetryQueue.RetryQueue.RemoveFromRetryQueue | relay/delivery/retry_queue.py:80-87 | drops exactly that delivery's member and says whether it was there; every other member keeps its score |
| RetryQueue.RetryQueue.EnqueueDelivery | relay/delivery/enqueue.py:36-47 | the endpoint's home stream, the one of the remainder of its crc32 by the number of shards, grows by one entry at its end; every other stream stays as it is |
| RetryQueue.RetryQueue.MoveDue | relay/delivery/retry_queue.py:18-40 | moves the first members in (score, member) order, at most `limit` and only due ones, to their streams, and leaves the rest; fewer than `limit` only if no due member is left |
| RetryQueue.RetryQueue.DrainDue | relay/delivery/retry_scheduler.py:102-111 | repeating the move until fewer than `limit` moved ends with no due member left and with the same streams for every limit |
| AtLeastOnce.RunKeepsInv | relay/delivery/worker.py:213-336 | in every reachable state: nothing owed is lost, working handlers hold unsettled snapshots, and settled rows agree with the history |
| AtLeastOnce.NothingOwedIsLost | relay/delivery/worker.py:312-336 | at-least-once: for any crashes, exceptions, reclaims, duplicates and stale snapshots, a delivery that was XADDed and is neither settled nor dropped is in a stream, on the retry queue, pending with no handler cleared to acknowledge it, or in a replay |
| AtLeastOnce.RowsUnsettleExactlyByStaleCommits | relay/delivery/worker.py:93-139 | a settled row turns unsettled if and only if a handler with a stale snapshot commits over it, or a replay resets it |
| RowCoverage.RowsAreCoveredExactlyWhenNothingStrands | relay/delivery/worker.py:93-139 | read off the rows: a delivery that is XADDed, unsettled in its row and not dropped has a copy at every point of a run if and only if no step of the run is a stale commit over it at a moment when it has no copy |
| RowCoverage.UncoversExactly | relay/delivery/worker.py:93-139 | the step at which an unsettled row comes to be without a copy is exactly such a commit |
| RowCoverage.RestoresExactly | relay/delivery/worker.py:170-336 | the step at which it is no longer so is exactly one of these: its handler schedules a retry, settles or drops it; the one handler cleared to acknowledge a pending entry of it dies or raises; a replay resets it; its endpoint is deleted |
| RowCoverage.UncoveredExactlySinceStranding | relay/delivery/worker.py:72-139 | so at a point of a run a row is without a copy if and only if a stale commit stranded it and no restoring step has followed |
| LostRow.StalledHandlerStrandsARow | relay/delivery/worker.py:72-96 | a concrete run that leaves an unsettled row with no copy of its delivery anywhere |
| SingleCopy.ExactlyOneCopy | relay/delivery/retry_queue.py:24-37 | when live work is not reclaimed and cleared handlers finish, a delivery has a copy exactly while it is XADDed, unsettled and not dropped, and then exactly one |
| SingleCopy.OneHandlerPerDelivery | relay/delivery/worker.py:334-336 | so no two handlers work on one delivery, let alone send it at once |
| SingleCopy.DeliveredIsFinal | relay/delivery/worker.py:226-227 | a delivered row never changes again, its delivery is never sent again, and its remaining handlers only clean up |
| RetryBudget.AttemptsAddUp | relay/delivery/worker.py:93-139 | per cycle, attempt_count is the attempts recorded plus those lost with a handler plus the one in flight; numbers strictly increase and drift by no more than the lost ones |
| RetryBudget.NumbersAreConsecutive | relay/delivery/worker.py:107-116 | with nothing lost the recorded attempts are numbered 1..n |
| RetryBudget.BudgetHolds | relay/delivery/worker.py:123-139 | a cycle records at most max(1, configured_max) attempts, however many were lost |
| RetryBudget.DeadExactlyWhenExhausted | relay/delivery/worker.py:123-132 | a row turns dead if and only if a failed attempt is recorded for which the policy, asked about the row's own count, grants no other |
| Provenance.DueAsDecided | relay/delivery/worker.py:173-182 | every entry of the retry queue is due at the time of its last schedule plus the wait its handler decided on, by value: 0.25 s for the lock or the head, 0.5 s for rate or concurrency, 30 s for the breaker, and the policy's delay after a failed attempt |
| Provenance.NothingIsRetriedEarly | relay/delivery/retry_queue.py:18-40 | nothing goes back to its stream before that time; then it leaves the retry queue for one new entry |
| Provenance.ExceptionsHaveACause | relay/delivery/worker.py:320-331 | a handler leaves by an exception only if an operation of it raised, or met a deleted row or endpoint |
| Provenance.ReplayRestarts | relay/api/routes/dlq.py:64-93 | by its XADD a replay has, in this order, found the row dead, reset it to pending with no attempts, dropped any retry, and pushed the delivery at the end of its queue exactly if the endpoint is ordered |
| RetryBudget.DeferralsCostNothing | relay/delivery/worker.py:173-182 | no gate rejection, and nothing else outside process_delivery, touches a row or the attempt records |
| RetryBudget.TameRunsAreExclusive | relay/delivery/worker.py:339-368 | the assumption of the accounting, that no two handlers hold one delivery, holds wherever live work is not reclaimed |
| OrderedFifo.EarlierOnesAreDone | relay/delivery/worker.py:250-257 | a handler past the head check with the k-th delivery pushed finds every earlier one popped, settled and gone from the queue |
| OrderedFifo.PoppedHeadIsSettled | relay/delivery/worker.py:300-303 | every pop takes exactly the head, and that delivery is settled, in its row too |
| Provenance.SettledHeadIsPopped | relay/delivery/worker.py:300-303 | conversely, in any run: the pop of a delivered or dead delivery of an ordered endpoint takes its first occurrence, and so the head if it is there; any other pop leaves the queue |
| OrderedFifo.SettledHeadLeaves | relay/delivery/worker.py:297-303 | in every FIFO run, after the pop a delivered or dead delivery is not in its queue, and it was at the head or gone already |
| OrderedLock.OrphansExactly | relay/delivery/worker.py:244-309 | while no lock expires under a live holder, a step leaves a lock without a holder if and only if the holder crashes, or raises between taking the lock and the try block |
| OrderedLock.OrphanedExactlySince | relay/delivery/worker.py:305-309 | so at any point a lock is without a holder if and only if such a step left it and it has not expired since |
| OrderedLock.AttemptsNeverOverlap | relay/delivery/worker.py:242-257 | while no lock expires under a live holder, at most one attempt of an ordered endpoint is on the wire: on the empty-queue path too, and replays included |
| OrderedFifo.FirstAttemptsFollowTheQueue | relay/delivery/ordering.py:40-65 | what was sent, repeats left out, is a prefix of what was pushed: all that was popped and at most the head |
| Worker.Relay.ProcessDelivery | relay/delivery/worker.py:64-170 | a run of the protocol whatever happens between its statements; if it returns, its own steps were, in this order, the counting commit, the request, the response and the recording commit, and after them at most one schedule_retry |
| Worker.Relay.CommitDelivering | relay/delivery/worker.py:93-96 | the first commit numbers the attempt one above the snapshot and writes that number and 'delivering' to the row, or finds the row gone, or the snapshot delivered |
| Worker.Relay.CommitOutcome | relay/delivery/worker.py:107-139 | the second commit records the attempt under its number; the row is delivered exactly on success, failed exactly when the policy, by value, grants the delay returned, and dead when it grants none |
| Worker.Relay.SelectDelivery | relay/delivery/worker.py:223-227 | reads the row as it is, and goes on only with an unsettled one |
| Worker.Relay.AcquireLock | relay/delivery/worker.py:244-249 | succeeds exactly if the lock was free, and then it is this handler's; otherwise the delivery is to wait 0.25 s |
| Worker.Relay.PeekHead | relay/delivery/worker.py:250-257 | goes on exactly if the queue is empty or this delivery is its head |
| Worker.Relay.ScheduleRetry | relay/delivery/worker.py:173-182 | whether after a failed attempt or without one, the delivery is then on the retry queue, due after the handler's delay, and no other entry changed |
| Worker.Relay.TakeTurn | relay/delivery/worker.py:243-257 | the lock and the head check: with a turn, it holds the lock and the queue is empty or has this delivery at its head; without one, the delivery is on the retry queue; in each case after exactly the steps stated |
| Worker.Relay.TryDeliver | relay/delivery/worker.py:260-304 | the try block: if it returns, either a gate deferred it and it is on the retry queue, or there was an attempt, then the refresh and then the pop, which took a delivered or dead head off its queue |
| Worker.Relay.DeliverWithGates | relay/delivery/worker.py:213-309 | answers that the entry may be acknowledged, after one of the stated orders of steps: it stopped at the row or the endpoint, was deferred, or made its attempt, popped and released its lock; or it leaves by an exception. Every pop takes a delivered or dead delivery off its queue and leaves any other |
| Worker.Relay.HandleMessage | relay/delivery/worker.py:312-336 | ends with the handler gone: either it went through deliver_with_gates in one of those orders and acknowledged, and the message is no longer pending, or its last step left by an exception, and an operation of it had raised or met a deleted row or endpoint; nothing owed is lost |
| Worker.Relay.ConsumeOne | relay/delivery/worker.py:392-398 | an entry read from the stream is pending from that step on; it is acknowledged, or its handler left by an exception |
| Worker.Relay.Autoclaim | relay/delivery/worker.py:354-361 | takes over exactly those of a batch that are still pending, in order |
| Worker.Relay.ReclaimStale | relay/delivery/worker.py:339-368 | takes over batch by batch exactly the pending entries, stops at an empty batch, handles every entry taken over to its end, and returns their number |
| Ingest.OneEventPerKey | relay/db/models.py:66-71 | one event at most per tenant and idempotency key |
| Ingest.SameKeySameAnswer | relay/api/routes/events.py:45-48 | all accepted requests with one tenant and key, whenever answered, get one event id, of an event that exists |
| Ingest.KeylessIsNeverDeduplicated | relay/db/models.py:67-69 | a request without a key is answered with the event it made itself |
| Ingest.OnlyTheMakerEnqueues | relay/api/routes/events.py:91-101 | nothing is written for an event before its commit, nothing by any request but its maker, and an accepted maker has written one XADD per delivery with an RPUSH just before it on ordered endpoints |
| Ingest.DeliveriesAreTheTasks | relay/api/routes/events.py:75-77 | one row per delivery of the event whose endpoint still exists, distinct endpoints, and no other rows |
| Ingest.DeliveriesMatchTheSelection | relay/api/routes/events.py:61-77 | the deliveries are for exactly the endpoints that matched when the winning request selected them |
| Ingest.DeliveriesAreForTheSubscribed | relay/api/routes/events.py:63-77 | field by field: when the request looked, each delivery's endpoint was the tenant's, active, and subscribed to all types or this one; and each such endpoint has exactly one delivery |
| Ingest.RequestsSayWhatWasSent | relay/api/routes/events.py:52-58 | tenant, type and key of a request, and so of its event, are those it was received with |
| Ingest.OperationsAreInPlace | relay/api/routes/events.py:94-101 | operation by operation: each XADD is for a delivery of the event and directly follows that delivery's RPUSH if its endpoint is ordered, nothing is written twice, and once accepted every delivery has its XADD |
| Ingest.FailsExactlyWhen | relay/api/routes/events.py:45-89 | a request is answered 500 if and only if another request committed its key between its look for it and its INSERT, or its commit met a deleted endpoint |
| Ingest.TakenExactlyWhenOvertaken | relay/db/models.py:70 | an INSERT that does not have to wait meets a taken key if and only if another request committed it after the check |
| Ingest.LatecomersFindTheEvent | relay/api/routes/events.py:45-48 | a request that arrives once its key has an event inserts nothing and never fails, and is answered, if at all, with that event |
| Ingest.BlockedWaitsForOneThatRuns | relay/db/models.py:70 | a request that waits for a key waits for exactly one other, which is past its own INSERT and can take its next step |
| Ingest.LoserFails | relay/api/routes/events.py:59-74 | a concrete run of two requests with one key, no endpoint deleted: one is accepted and the other fails |
| Ingest.LoneRequestFails | relay/api/routes/events.py:87-88 | a concrete run in which a request that is alone fails, with a key and without: its endpoint is deleted before its commit |

## Left out

- HTTP sending, exception classification, request signing, SQL text, the Redis client, metrics, logging, signals and process supervision: I/O. A send is any response, an operation may raise at any point.
- The diagnosis agent, including the replay that approving one of its actions triggers; that one neither removes the retry-queue member nor pushes on the ordered queue.
- The text of a Retry-After header: its number, finite, is the input (section 10.2.3 of RFC 9110, delay-seconds form).
- Loss of Redis data, and a request that dies between the ingest commit and the XADD: the sweep that events.py mentions is not part of the repository's files. A replay request that dies between its commit and its XADD is the same: its delivery counts as waiting in that replay for good.
- Errors of the database other than constraint violations: a request they end is one that is gone without an answer. Deleted tenants: there is no route for it.
- Slots.ExpiryIsUnobservable: assumes that inflight_count does not stall 60 s between its two commands; if it does, it can see the expiry (`Slots.StalledCountSeesExpiry`).
- That ordered queues always advance, that half_open is always left, that anything eventually happens: no liveness is claimed. A crash between the outcome commit and the pop leaves a settled head.
- Inside `Protocol` the gates are any of their outcomes: breaker, bucket and slots are modelled on their own, and so is record_outcome. The breaker read and the disable in check_gates are one step there.
- The idle time of XAUTOCLAIM is not modelled: a pending entry may be reclaimed at any moment, which is what the at-least-once property allows for and what the single-copy property excludes.
- next_attempt_at is never read by the delivery code and is not modelled.
- The replay route and ingestion are transition systems on values and not classes, because what is proved about them is how requests interleave: the model does not show their loops in place. A replay of several deliveries is one replay per delivery; their common commit is the case in which nothing happens between the single ones.
- crc32 is any function into the shards.
- The automatic retry of XREADGROUP after a connection error, and the reconnect delays of the loops.
- SingleCopy.ExactlyOneCopy: excludes handlers that die or raise after they are cleared to acknowledge, because a second handler then finds the row as it is; those runs are covered by the at-least-once property.
- RetryBudget.AttemptsAddUp: assumes that no two handlers hold one delivery between reading its row and recording an outcome, since both would count from one snapshot, and that no two replays have selected one delivery at once, since both would start a cycle.
- OrderedFifo.FirstAttemptsFollowTheQueue: excludes replays, which push a delivery a second time, and locks that expire under a live holder.
- OrderedLock.AttemptsNeverOverlap: excludes locks that expire under a live holder, since the next handler then takes the lock while the first is still sending.
