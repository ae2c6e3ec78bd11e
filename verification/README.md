# Form delivery service: a verified model

The service accepts form submissions over HTTP and delivers them by mail. An
accepted submission becomes a row of a job table; any number of worker processes
claim rows, send the message and record the outcome. A rate limiter counts
requests in fixed windows, a periodic cleanup deletes old rows, and hosts and web
origins are brought into one canonical form on which the rest relies.

`dafny verify dfyconfig.toml` checks the whole project.

| file | content |
|---|---|
| `Common.dfy`, `Text.dfy` | shared types, ASCII text |
| `HostNames.dfy`, `HostSpelling.dfy`, `Snapshots.dfy` | canonical hosts; exactly which texts are accepted as hosts; the delivery snapshot and its stored form |
| `JobRows.dfy` | one job row, what each operation does to it, the back-off |
| `Protocol.dfy` | the queue and its workers as a transition system with a ghost history of claims, sends and requeues |
| `ProtocolInvariant.dfy`, `ProtocolFrames.dfy` | the inductive invariant; what one action can do to one job |
| `DeliveryGuarantees.dfy`, `Attempts.dfy`, `DeliveryLogs.dfy`, `QueueOrder.dfy`, `LockTiming.dfy` | the properties of all runs: lifecycle, sends, fencing, conservation, termination; attempts beyond the maximum; the log; order; time |
| `Passes.dfy` | short undisturbed runs, from which the counterexamples are built |
| `RowLocks.dfy` | transactions with row locks and SKIP LOCKED refine the one-step actions |
| `Database.dfy`, `DeliveryQueue.dfy`, `Worker.dfy` | the tables, the queue operations and the worker program in imperative form, each tied to the transition system |
| `PassShape.dfy` | what a worker performs in a pass and in its loop, event by event, and what each event says about the run |
| `RateLimit.dfy`, `Limiter.dfy` | windows, counting over runs; the check as a transaction |
| `Retention.dfy`, `SharedSystem.dfy`, `CleanupTransparency.dfy`, `LoginSessions.dfy` | the cleanup; queue, limiter and sessions on one clock; cleanup goes unnoticed; who is logged in |
| `Origins.dfy`, `OriginSpelling.dfy`, `OriginLists.dfy` | parsing and printing origins; exactly which texts are accepted; allow-lists and their storage |

## How the queue is modelled

`Protocol.Action` has one case per transaction or local step: drawing an id,
enqueue, claim, decode, heartbeat, heartbeat that raises, return of the send, end of
the heartbeat, completion or failure, log write, crash, cleanup and the passing of
time. An action whose guard does not hold changes nothing, so every sequence of
actions is a run and a statement about all sequences covers all interleavings.

Every transaction that stores or compares a time carries the clock reading its
process made before it (`now`), while the clock of the state is the time at which it
commits; the reading may be older by any amount. A submission draws its id before it
commits too, so ids need not follow the order of commits, and a submission that is
rolled back leaves its id unused. A worker's readings are in order: each is at least
the one it wrote as the time of its lock. A claim also carries the set of rows it
skipped because they were locked. The claim number a worker holds is ghost
information: no guard looks at it, and that the guard on status and owner is enough
anyway is what `DeliveryGuarantees.Fencing` proves. A crashed worker stays crashed,
because a restarted process draws a new id.

`Worker.Deployment` is the worker program itself, with its loops and local
variables, on the mutable tables. Between any two of its transactions, and between
a clock reading and the statement that uses it, other processes do anything
(`OthersRun`, of which callers know the contract only). Its contracts say that the
tables are at all times those of a run of the protocol, and which events of the
worker the run contains, in program order: an event is an action, the phase in which
the worker took it, and whether it found its row. A script says how each heartbeat
turn goes, whether the payload can be read and what the send returns; a pass must
perform exactly what its script and the events so far call for
(`PassShape.IsTurn`), so a missing final transaction is always explained by a turn
that raised or by a row that somebody else had claimed
(`PassShape.EventsExplained`, `PassShape.CalmPassEnds`). `ValidIsReachable` hands the
tables over to the theorems about runs.

## What the proofs found

- Host normalisation is not idempotent on every input. A bracketed address whose
  scope ends in a closing bracket, `[fe80::1%]]`, is accepted as `fe80::1%]`, which
  is then rejected. An endpoint can be saved with such a host, and from then on no
  submission to it can be queued. `HostNames.NormalizeHostnameIdempotent` and
  `Snapshots.CreationSucceedsExactly` give the exact condition: the input starts
  with `[` and ends with `]]`.
- A job's log can end up wrong for good. When the log write of a requeue is held
  up until after the retry has been delivered and logged, the log of the delivered
  job shows `queued`. `DeliveryLogs.LogMatchesUnlessRequeueLast` says that this is
  the only way, `DeliveryLogs.PromptLogsMatch` that it cannot happen when each requeue is
  logged before the job is due again, `DeliveryLogs.LateRequeueWrite` that it can
  happen otherwise.
- The service's own README.md says (line 186) that SKIP LOCKED prevents duplicate
  concurrent processing and that a live heartbeat prevents reclaim. Row locks last
  only for the claim transaction; what excludes a second worker afterwards is time.
  `LockTiming.TimedExclusion` and `LockTiming.TakeOverExactlyWhenStale` give the
  exact condition, and `DeliveryGuarantees.SendMultiplicity` what remains true when
  it fails.
- `attempts` may exceed `max_attempts`, by any number: a take-over of a stale lock
  does not look at it (`Attempts.AttemptsUnbounded`). A claim takes a job past the
  maximum exactly when it takes over a stale lock of a job that has used all its
  attempts (`Attempts.ClaimExceedsExactly`), and a job's attempts exceed the maximum
  exactly when one of its claims beyond it was a take-over
  (`Attempts.AttemptsExceedExactly`).
- A due job can be overtaken. A submission reads the time and draws the id that order
  its job before it commits, so one that commits slowly can appear ahead of jobs that
  are due and waiting (`QueueOrder.LateAcceptOvertakes`). It gets ahead exactly when
  its reading and id, in this order, come before the due time and id of the other, and
  nothing else ever does (`QueueOrder.GetsAheadExactly`). A requeue enters the queue
  ahead of a due job only if its commit lags its reading by its back-off, at least 15
  seconds (`QueueOrder.LateArrivalLags`); at exactly 15 seconds it happens
  (`QueueOrder.LateRequeueOvertakes`).
- With `RATE_LIMIT_RETENTION_HOURS` at its default of 0, cleanup is invisible to
  the limiter only if no check reaches its bucket more than one microsecond after
  it read the clock; in general the delay may be the retention time plus one
  microsecond, exactly (`CleanupTransparency.TransparentExactly`).
- A client that waits for `Retry-After` lands in the very next window, except
  that with one-second windows a request at the exact start of a window is sent to
  the one after (`RateLimit.RetryAfterSound`).
- The service's README.md also says (line 144) that queries and fragments are rejected; an empty
  query or fragment (`https://a.example?#`) is accepted and dropped. An origin
  followed by a path, query or fragment is accepted if and only if the path is
  missing and the other two are empty (`OriginSpelling.TailExactly`).

## Model

| member | source | states |
|---|---|---|
| `DeliveryGuarantees.LifecycleHolds` | app/services/delivery_queue.py:127-257 | In every reachable state the payload is present exactly while the job is queued or processing and decodes to the accepted snapshot; lock fields exactly in processing, terminal time exactly in delivered and failed |
| `DeliveryGuarantees.FinalStatesAbsorb` | app/services/delivery_queue.py:160-257 | No run changes a delivered or failed row; purging only moves it |
| `DeliveryGuarantees.SendsUseAcceptedSnapshot` | app/services/worker.py:82-115 | Every send started by any worker carries the snapshot accepted with the job |
| `DeliveryGuarantees.SendMultiplicity` | app/services/worker.py:77-135 | Sends that return normally number at most 1 + stale take-overs; a delivered job was sent under the claim that completed it |
| `DeliveryGuarantees.SendsInRun` | app/services/worker.py:77-135 | Counted over the actions of any run: the sends of a job that return normally number at most 1 + the claims that find it processing |
| `DeliveryGuarantees.AtMostOneSendWithoutReclaim` | app/services/worker.py:77-135 | Without a stale take-over a job is sent successfully at most once |
| `DeliveryGuarantees.Fencing` | app/services/delivery_queue.py:195-243 | From its claim on, through any interleaving, the guard on status and owner passes for a worker exactly as long as nobody has claimed the job since |
| `DeliveryGuarantees.GuardMeansCurrentClaim` | app/services/delivery_queue.py:196-217 | The same for every worker in a pass: the guard holds if and only if its claim is the latest |
| `DeliveryGuarantees.FinalisationIsOwnClaim` | app/services/worker.py:123-133 | A completion or failure that goes through ends the worker's own latest claim, and a completion follows a send that returned under it |
| `DeliveryGuarantees.AttemptsBounded` | app/services/delivery_queue.py:173-179 | Attempts equal the claims and are at most max(1, max_attempts) plus take-overs; requeues at most max_attempts - 1 |
| `Attempts.ClaimExceedsExactly` | app/services/delivery_queue.py:158-177 | A claim takes a job past its maximum if and only if it takes over a stale lock of a job that has used all its attempts |
| `Attempts.AttemptsExceedExactly` | app/services/delivery_queue.py:173-179 | In every reachable state attempts exceed the maximum if and only if some claim beyond it was a take-over |
| `Attempts.AttemptsUnbounded` | app/services/delivery_queue.py:161-177 | For every n some run attempts a job n times, whatever the maximum and the lock timeout |
| `DeliveryGuarantees.EveryMoveUsesWork` | app/services/delivery_queue.py:248-254 | Every claim and every end of a claim uses up a measure |
| `DeliveryGuarantees.JobsTerminate` | app/services/delivery_queue.py:248-254 | With finitely many take-overs a job is claimed and finalised a bounded number of times in any run |
| `DeliveryGuarantees.EveryAcceptedJobIsKept` | app/services/delivery_queue.py:127-139 | There are as many jobs, each under its own id, as submissions were accepted, and none is ever forgotten; how many ids were drawn does not matter |
| `ProtocolFrames.KeysStep` | app/services/delivery_queue.py:137-139 | A step adds a job only if it is an accepted submission, under an id no job has had before |
| `DeliveryGuarantees.Conservation` | app/services/retention.py:34-39 | After any run the accepted jobs are the disjoint union of queued, processing, delivered, failed and purged; a purged job was final, payload-free and past its retention age |
| `ProtocolInvariant.StepInv` | app/services/delivery_queue.py:127-257 | Every action of every process keeps the invariant that ties rows, claims, sends, worker phases and logs together |
| `ProtocolInvariant.ReachableInv` | app/services/delivery_queue.py:127-257 | The invariant holds after every run from an empty table |
| `ProtocolFrames.StepFrame` | app/services/delivery_queue.py:155-257 | One action changes one job only by a claim that fires, an owner's refresh or an owner's final transaction; history only grows |
| `ProtocolFrames.OthersKeepPhase` | app/services/worker.py:138-142 | No action changes the program position of a worker other than the one acting |
| `ProtocolFrames.FinalRowFixed` | app/services/delivery_queue.py:196-243 | No single action changes a final row |
| `ProtocolFrames.StatusSteps` | app/services/delivery_queue.py:173-257 | Status and attempts move only by one more claim or by ending the current one |
| `ProtocolFrames.FinalTime` | app/services/delivery_queue.py:218-221 | A job becomes final only by the transaction that ends its claim; its terminal time, and its delivery time if it was delivered, are the reading of that transaction |
| `ProtocolFrames.EndsExactly` | app/services/worker.py:121-133 | The transaction that ends a claim makes of the row, column by column, what the outcome demands: delivered; or queued again with its due time and error while attempts are left; or failed with its error |
| `DeliveryLogs.LogSoundness` | app/services/worker.py:60-65 | In every interleaving a log that shows delivered or failed shows the status of its job, also after the job was purged |
| `DeliveryLogs.LogMatchesExactly` | app/services/worker.py:123-133 | With no final log write owed, the log of a finished job matches it if and only if no requeue's write landed after the final one |
| `DeliveryLogs.OverwrittenExactly` | app/services/worker.py:60-65 | The history's flag for an overwritten log is set by a run if and only if the log write of a requeue lands after that of the final status |
| `DeliveryLogs.LogMatchesUnlessRequeueLast` | app/services/worker.py:123-133 | After any run with no final log write owed, the log of a finished job is wrong if and only if the run contains such a late write |
| `DeliveryLogs.PromptRunInOrder` | app/services/worker.py:129-133 | If requeue writes land before the job is due again, a job with such a write pending is still waiting and no log is ever overwritten |
| `DeliveryLogs.PromptLogsMatch` | app/services/worker.py:129-133 | Under that condition every finished job with no final write owed has a matching log |
| `DeliveryLogs.LateRequeueWrite` | app/services/worker.py:129-133 | Without it, a run exists that leaves a delivered job logged as queued with all workers idle |
| `Passes.UndisturbedPass` | app/services/worker.py:68-135 | A pass nobody disturbs ends the job as the outcome of the send says |
| `QueueOrder.GetsAheadExactly` | app/services/delivery_queue.py:129-139 | In one step an unfinished job gets ahead of a due one, in the order of the claim, if and only if it is a submission whose reading and id come before the due time and id of the other |
| `QueueOrder.GetsQueuedAheadExactly` | app/services/delivery_queue.py:244-256 | It gets queued ahead of it if and only if it is such a submission, or a requeue whose reading plus back-off, with its id, comes before the other's due time and id |
| `QueueOrder.LateArrivalLags` | app/services/delivery_queue.py:244-250 | Such a submission commits after its reading, or at the same instant with a lower id; such a requeue commits at least its back-off, and so 15 seconds, after its reading |
| `QueueOrder.LateAcceptOvertakes` | app/services/delivery_queue.py:135-138 | Runs in which a submission that commits late overtakes a due job, by an earlier reading or by the same reading and a lower id |
| `QueueOrder.LateRequeueOvertakes` | app/services/delivery_queue.py:244-256 | A run in which a failure that commits 15 seconds after its reading puts its job into the queue ahead of a due one |
| `QueueOrder.ClaimTakesFromAhead` | app/services/delivery_queue.py:158-177 | A claim that passes a due job over without finding it locked takes one ahead of it, however old the claim's reading |
| `QueueOrder.BoundedBypass` | app/services/delivery_queue.py:158-180 | The claims that go past a due job number at most the jobs queued ahead of it, plus take-overs, plus claims that found its row locked, plus late arrivals; only late submissions join the unfinished jobs ahead |
| `QueueOrder.NobodyOvertakes` | app/services/delivery_queue.py:227-250 | When submissions read their clock after the job was due, or at that instant with a higher id, and failures commit within 15 seconds of their reading, there are no late arrivals |
| `LockTiming.TimedExclusion` | app/services/worker.py:33-49 | As long as each write of an owner, up to its final transaction, commits at most the lock timeout after the reading it wrote before, each goes through and nobody else claims its job |
| `LockTiming.TakeOverExactlyWhenStale` | app/services/delivery_queue.py:157-166 | A job can be taken over by a claim with this reading if and only if the reading is more than the lock timeout after the one its owner wrote last |
| `LockTiming.DiligentKeepsLock` | app/services/worker.py:33-49 | An owner whose writes are on time up to its final transaction never lets its lock become stale |
| `LockTiming.KeptLocksMeanOneSend` | app/services/delivery_queue.py:157-180 | If every owner of a job keeps its lock to its final transaction, no claim of any run takes the job over and at most one send of it returns normally |
| `QueueOrder.ClaimsFollowSchedule` | app/services/delivery_queue.py:227-250 | The claim after the k-th requeue comes no earlier than 15(2^k - 1) seconds after acceptance for k up to 8, then 3600 s more each |
| `QueueOrder.DueTimeStep` | app/services/delivery_queue.py:244-256 | The due time of a job changes only when it is requeued, to the reading plus the back-off |
| `QueueOrder.DueTimeExactly` | app/services/delivery_queue.py:135-256 | Over any run the due time of a job is the reading of its submission, or of its last requeue plus the back-off |
| `JobRows.BackoffIsBoundedExponential` | app/services/delivery_queue.py:227-228 | The clamp on the exponent never shows: the back-off is min(3600, 15 * 2^max(0, attempts-1)), between 15 and 3600 |
| `JobRows.BackoffMonotone` | app/services/delivery_queue.py:227-228 | The back-off never shrinks with more attempts |
| `JobRows.BackoffValues` | app/services/delivery_queue.py:227-228 | The back-off in seconds is 15, 30, 60, 120, 240, 480, 960, 1920 and from the ninth attempt on 3600 |
| `JobRows.Truncated` | app/services/delivery_queue.py:245 | The stored error is the longest prefix of at most 2000 characters |
| `RowLocks.TxStepRefines` | app/services/delivery_queue.py:158-257 | Every step of a transaction with row locks does to the table what its one-step actions do, and no row is held twice |
| `RowLocks.RowLocksRefineProtocol` | app/services/delivery_queue.py:158-257 | The table after any run of select, lock, write and commit steps is the table after a run of the one-step protocol |
| `RowLocks.CommittedClaimWasOldest` | app/services/delivery_queue.py:158-180 | A claim that commits takes the oldest row that was eligible and unlocked at its selection, unchanged since |
| `RowLocks.CommitClaimRefines` | app/services/delivery_queue.py:172-180 | The values a claim writes from the row it loaded are those of the one-step claim at commit |
| `RowLocks.CommitFailRefines` | app/services/delivery_queue.py:231-257 | The same for a failure, which reads its clock after it has locked the row and before it commits |
| `DeliveryQueue.EnqueueDelivery` | app/services/delivery_queue.py:127-139 | Draws the next id and makes the queued row, with the encoded snapshot, no attempts and the reading as its due time, which nobody else sees yet |
| `DeliveryQueue.SelectOldest` | app/services/delivery_queue.py:158-172 | Finds the least eligible unlocked row by due time and id, or that there is none |
| `DeliveryQueue.EligibleExactly` | app/services/delivery_queue.py:160-167 | A row can be claimed exactly when its due time has come and it is queued, or processing with no lock or one older than the timeout |
| `DeliveryQueue.ClaimJob` | app/services/delivery_queue.py:155-180 | Claims the first row, by due time and then id, that is due and not locked, and changes only its status, lock and attempts; leaves the table alone when there is none |
| `DeliveryQueue.RefreshJobHeartbeat` | app/services/delivery_queue.py:183-206 | Sets the lock time, and nothing else, and says so exactly when the row is processed by the worker |
| `DeliveryQueue.CompleteJob` | app/services/delivery_queue.py:209-224 | Exactly when the row is processed by the worker: delivered, with both times set to the reading, payload, lock and error cleared, the rest unchanged |
| `DeliveryQueue.FailJob` | app/services/delivery_queue.py:231-257 | Exactly when the row is processed by the worker: requeued after the back-off if the error is retryable and attempts are left, else failed without its payload; either way with the first 2000 characters of the error; otherwise nothing |
| `DeliveryQueue.CommitSubmission` | app/api/forms.py:146-151 | The job and its log row become visible together |
| `Worker.SubmissionTables` | app/api/forms.py:146-151 | On the tables, drawing the id and committing the submission are the draw and enqueue actions of the protocol |
| `DeliveryQueue.UpdateDeliveryLog` | app/services/worker.py:60-65 | Sets the outcome of the log row of the job, if it still exists |
| `Worker.Deployment.ValidIsReachable` | app/services/worker.py:138-142 | The tables a worker runs on are those of a reachable state of the protocol |
| `Worker.Deployment.TablesKeepSnapshots` | app/services/worker.py:77-82 | So the rows of the job table keep their accepted snapshot as long as they can be sent, and their attempts stay within the bound |
| `Worker.Deployment.Beat` | app/services/worker.py:34-45 | One turn reads the clock and then performs the heartbeat action of the script; it loses ownership exactly when it raises or does not find the job owned |
| `Worker.Deployment.HeartbeatJob` | app/services/worker.py:24-49 | The loop performs the heartbeat of each turn, in order, up to the first that loses ownership, and reports a loss exactly when there was one |
| `Worker.Deployment.StopHeartbeat` | app/services/worker.py:52-57 | Ends the heartbeat: the pass goes on only if ownership was not lost |
| `Worker.Deployment.Join` | app/services/worker.py:118-122 | A heartbeat is performed after the send if and only if one was under way and ownership was not lost before, and then that one; the pass goes on exactly when ownership was not lost |
| `Worker.Deployment.EndClaim` | app/services/worker.py:121-133 | The transaction that ends a claim after a send settles the row of the table as the outcome says, column by column |
| `Worker.Deployment.Settle` | app/services/worker.py:121-133 | The outcome of the send decides the status of the job, and the log, if it exists, shows that status; the log is written exactly when the final transaction found the job owned |
| `Worker.Deployment.Deliver` | app/services/worker.py:89-133 | From the start of the send on the worker performs exactly the heartbeats of the script up to a loss, the return of the send, the heartbeat under way, and the end of the heartbeat; the final transaction follows exactly when ownership was not lost, and the log write exactly when it went through |
| `Worker.Deployment.ProcessOne` | app/services/worker.py:68-135 | Whatever other processes do, a pass either finds no unlocked row eligible for the reading it began with, or claims one job and performs the events of its script, ending idle; if the payload can be read, no heartbeat turn raises and nobody else claims the job, it ends the claim with the status the outcome calls for, and logs it |
| `Worker.Deployment.RunWorker` | app/services/worker.py:138-142 | The loop makes one turn for each script, each a pass or a pause, and reports as many jobs as there were passes |
| `PassShape.EventsExplained` | app/services/worker.py:24-135 | In every run, a worker that does not find its row at one of its transactions lost it to a later claim, and the payload a worker claims decodes |
| `PassShape.CalmPassEnds` | app/services/worker.py:68-135 | In every run, a readable pass in which no turn raises and after which its claim is still the latest has ended its claim and logged the status |
| `RateLimit.WindowContains` | app/services/rate_limit.py:23-26 | For times after the epoch the window contains the time it was computed for |
| `RateLimit.WindowExactly` | app/services/rate_limit.py:23-26 | For every time the window is the one, of those that start at a multiple of its length, that contains the whole second of that time |
| `RateLimit.RetryAfterLeast` | app/services/rate_limit.py:64 | The wait is the least number of whole seconds, at least 1, after which the window is over |
| `RateLimit.RetryAfterSound` | app/services/rate_limit.py:64-65 | The wait is between 1 and window + 1 seconds and ends past the window; in the next window exactly when windows last 2 s or more or the request was not at a whole second |
| `RateLimit.LimiterExact` | app/services/rate_limit.py:38-45 | In any interleaving of checks the bucket of a window counts exactly its checks, and as many pass as the limit leaves room for |
| `RateLimit.FreshWindowExact` | app/services/rate_limit.py:38-65 | Of n checks in a fresh window exactly min(n, limit) pass |
| `RateLimit.RemainingIsExact` | app/services/rate_limit.py:65 | The number reported as remaining is exactly how many of the following checks in the window will pass |
| `RateLimit.IntervalBound` | app/services/rate_limit.py:23-65 | Any stretch of time as long as k windows lets at most (k+1) * limit requests of one subject pass |
| `Limiter.CheckRateLimit` | app/services/rate_limit.py:33-65 | One call adds one to the count of its window, or starts it at 1, and touches no other row; it passes exactly when the count is within the limit, reports what remains, and the least wait that ends past the window |
| `Retention.DeleteExpired` | app/services/retention.py:29-38 | One policy deletes exactly its rows older than its retention and counts them |
| `Retention.CleanupExpiredData` | app/services/retention.py:26-40 | For each of the five tables a row is there afterwards if and only if it was there and was not older than the retention of its table (a job: or never ended), unchanged; the report counts what was deleted from each |
| `Retention.CleanupIsProtocolAction` | app/services/retention.py:30-34 | On jobs and logs this is the cleanup action of the protocol, which keeps exactly the rows not older than their retention and the jobs that have not ended |
| `CleanupTransparency.QueueStepTrimmed` | app/services/delivery_queue.py:155-257 | Every queue action does the same to a table that lost finished rows as to one that kept them |
| `CleanupTransparency.SameCount` | app/services/rate_limit.py:38-45 | A bucket a check still counts on has not been deleted |
| `CleanupTransparency.LookupTrimmed` | app/auth/sessions.py:45-50 | A session a lookup would find has not been deleted |
| `CleanupTransparency.ErasingCleanup` | app/services/retention.py:29-39 | Taking every cleanup statement out of a run changes no worker's phase, no rate-limit decision and no session lookup |
| `CleanupTransparency.TransparentExactly` | app/services/retention.py:32-33 | Cleanup is invisible in all runs if and only if no request is later than the bucket and the session retention plus one microsecond |
| `CleanupTransparency.LateCheck` | app/services/retention.py:33 | In every scope and for every client, a later check can pass twice with a limit of 1 |
| `CleanupTransparency.LateLookup` | app/auth/sessions.py:48 | A later lookup can miss its session |
| `CleanupTransparency.GrantedByChecks` | app/services/rate_limit.py:33-65 | Whatever else happens, a run of the whole system grants what its checks alone would be granted |
| `CleanupTransparency.RunIntervalBound` | app/services/rate_limit.py:33-65 | The interval bound holds in every run of the whole system, cleanups included |
| `LoginSessions.SessionsExactly` | app/auth/sessions.py:14-87 | After any run of the system the table holds exactly the sessions that a login opened and that were neither logged out, revoked nor purged since |
| `LoginSessions.LookupExactly` | app/auth/sessions.py:36-50 | In any timely run, cleanups included, a lookup finds a user if and only if the user logged in with the token, its lifetime has not run out at the reading, and it was neither logged out nor revoked |
| `HostNames.NameIsCanonical` | app/core/network_validation.py:39-55 | An accepted name meets the label and alphabet rules of section 2.3.4 of RFC 1035, is the input in lower case, and is a fixed point |
| `HostNames.CandidateResult` | app/core/network_validation.py:30-55 | Across the name, IPv4, IPv6 and scoped branches the result is a fixed point that ends in a bracket only if the input does |
| `HostNames.NormalizeHostnameIdempotent` | app/core/network_validation.py:19-55 | Normalising the result changes nothing if and only if the input is not a bracketed text that closes twice |
| `HostNames.NormalizeHostnameNotIdempotent` | app/core/network_validation.py:24-37 | Such inputs exist for every address whose scope ends in a closing bracket |
| `HostSpelling.NameAcceptedExactly` | app/core/network_validation.py:39-55 | A name is accepted if and only if in lower case it has 1 to 253 characters, all letters, digits, hyphens and dots, with a letter or digit at both ends and next to each dot, and a dot among any 64 characters in a row |
| `HostSpelling.IPv4Exactly` | app/core/network_validation.py:33-37 | IPv4 text is accepted if and only if it is four numbers up to 255 in decimal digits without leading zeros, and is its own normal form |
| `HostSpelling.HostAcceptedExactly` | app/core/network_validation.py:19-55 | A text is accepted with a given normal form if and only if it is a dotted quad, a host name in any letter case that is not all digits and dots, or an IPv6 address with or without a scope, bare or in square brackets |
| `Snapshots.CreatedExactly` | app/services/delivery_queue.py:91-124 | What creation returns is its input with the host, and only the host, replaced by its normal form |
| `Snapshots.CreationSucceedsExactly` | app/services/delivery_queue.py:91-124 | A snapshot is created if and only if there are recipients, all different and valid, sender and Reply-To are valid, port, security mode, subject and field names are within their bounds, the host normalises, and it does not close twice |
| `Snapshots.StoredHostStaysUsable` | app/services/delivery_queue.py:64-73 | A host stored in normal form passes the canonical check of later snapshots exactly when it was not entered that way |
| `Snapshots.CanonicalHostKept` | app/services/delivery_queue.py:66-73 | With a canonical host, and only then, creation returns its input |
| `Snapshots.ReadExactly` | app/services/delivery_queue.py:142-152 | A worker reads a snapshot if and only if the payload decrypts and decodes to one that creation would return unchanged; a missing payload has its own error |
| `Snapshots.SnapshotRoundTrip` | app/services/delivery_queue.py:142-152 | A worker reads back exactly the snapshot that was accepted |
| `Snapshots.JobCodecReversible` | app/services/delivery_queue.py:127-152 | So the snapshot code is a codec as the protocol requires it |
| `Origins.ParsedIsValid` | app/core/origins.py:24-38 | Whatever is accepted has scheme http or https, a canonical host and a port from 1 to 65535 |
| `Origins.FutureAddressExactly` | app/core/origins.py:20 | Of the bracketed hosts that are not IPv6 addresses, the URL library lets through v, hexadecimal digits, a dot and something after it |
| `OriginSpelling.SpellingParses` | app/core/origins.py:13-38 | Every acceptable spelling is understood: any letter case of scheme and host; the port named, with or without leading zeros; without one, or with an empty one, 80 for http and 443 for https; an empty query or fragment |
| `OriginSpelling.AcceptedIsSpelled` | app/core/origins.py:13-38 | Every accepted text is such a spelling |
| `OriginSpelling.AcceptedExactly` | app/core/origins.py:13-38 | So a text is accepted as an origin if and only if it is an acceptable spelling of it |
| `OriginSpelling.TailExactly` | app/core/origins.py:29-30 | An origin followed by a path, query or fragment is accepted, as the same origin, if and only if these are empty |
| `OriginSpelling.SerializedPort` | app/core/origins.py:37-38 | The port is left out of the normal form if and only if it is 80 for http or 443 for https, and is printed without leading zeros otherwise |
| `OriginSpelling.ParseSerialized` | app/core/origins.py:13-38 | Parsing the serialization of section 6.2 of RFC 6454 gives back scheme, host and port |
| `OriginSpelling.NormalizeOriginIdempotent` | app/core/origins.py:13-38 | Normalising twice is normalising once |
| `OriginSpelling.SameTextSameOrigin` | app/core/origins.py:37-38 | Two texts have the same normal form if and only if they name the same scheme, host and port |
| `OriginLists.NormalizeOrigins` | app/core/origins.py:41-49 | The loop over result and seen computes the specified list |
| `OriginLists.NormalizedList` | app/core/origins.py:41-49 | It succeeds exactly when each value is an origin; the list has no repetitions and holds exactly the normal forms of the values |
| `OriginLists.FirstAppearanceOrder` | app/core/origins.py:44-48 | The normal forms stand in the order in which they first appear among the values |
| `OriginLists.FirstErrorWins` | app/core/origins.py:45 | Otherwise the first value that is not an origin decides the error |
| `OriginLists.NormalizedTwice` | app/core/origins.py:41-49 | A normalised list is left as it is, order included |
| `OriginLists.StoredExactly` | app/core/origins.py:71-73 | What is stored is the JSON text of the normalised list, and nothing for an empty one |
| `OriginLists.LoadedExactly` | app/core/origins.py:56-68 | What is loaded is the normalised list of the stored items, and nothing when the column is empty, malformed or holds an item that is not an origin |
| `OriginLists.StorageRoundTrip` | app/core/origins.py:56-73 | Storing fails exactly when a value is not an origin; otherwise loading gives the normalised list |
| `OriginLists.StoredAgain` | app/core/origins.py:56-73 | Whatever is in the column, storing what was loaded and loading it again changes nothing |
| `OriginLists.AllowedExactly` | app/core/origins.py:76-84 | On the reloaded list a header passes exactly when the list is empty or the header names the same scheme, host and port as one of the values |

## Left out

- SMTP (app/services/email.py): a send is a step that returns success, a temporary or a permanent failure. A send that a crashed process had started counts as started; whether its bytes still go out is not modelled.
- Encryption, JSON and the mail-address test are function parameters; the first two are assumed to be inverse pairs (`Snapshots.Faithful`, `OriginLists.InversePair`). Submitted field values are texts, not nested JSON.
- `subject_key` is a digest: `Limiter.CheckRateLimit` takes the hash as a parameter, and the counting lemmas speak of the digest, not of the client behind it.
- IPv6 text compression is a parameter with the contract `HostNames.PrintsCanonically`. Hosts and origins are ASCII: the IDNA mapping is not modelled, and a text with other characters counts as unsafe text here.
- The URL library follows the bracket checks of Python 3.13, whose number conversion takes at most 4300 digits; earlier releases accept more authorities.
- The SQLite branch of the limiter (app/services/rate_limit.py:46-63) is not modelled. Window length is at least 1, and `timestamp()` is taken as exact.
- PostgreSQL is assumed to provide row locks, SKIP LOCKED with a recheck of the predicate, and an atomic upsert.
- `Protocol.ApplyClaim`: the read-back of the row after the claim commits (app/services/delivery_queue.py:179) is part of the claim.
- `ProtocolInvariant.Reachable`: worker ids never repeat; the program draws eight random hexadecimal digits (app/services/worker.py:139).
- `Protocol.FinalRow`: a job whose payload is missing altogether gets its own error text in the program; no reachable claim finds one, so the model has the other text only.
- DeliveryQueue.UpdateDeliveryLog: the error text of a log row is not modelled; neither are the logs of rejected submissions, which have no job.
- DeliveryQueue.EnqueueDelivery: the endpoint reference of a job, which no worker reads, is not modelled.
- DeliveryQueue.CommitSubmission: the creation time of the log row is the reading of the submission; the program lets the database stamp it with the start of the transaction. Only the retention of logs depends on it.
- `CleanupTransparency.TransparentExactly`: delivery logs and audit logs are what cleanup is meant to remove, so reading them is not an observation; each limiter scope keeps its window length, and session tokens never repeat.
- Worker.Deployment.OthersRun: its body does nothing; its contract, which is all that callers use, allows any actions of other processes.
- Worker.Deployment.RunWorker: makes as many passes as it is given scripts, where the program loops for ever.
- `origins_from_text` and the splitting of a text area into lines.
- Web pages, user administration, CSRF, CORS header assembly, CAP calls, migrations, client addresses, body limits and form validation.
