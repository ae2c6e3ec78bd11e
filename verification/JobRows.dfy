/** One row of the delivery job table, and what each queue operation does to it. */
module JobRows {
  import opened Common

  type JobId = nat

  type WorkerId = string

  datatype Status = Queued | Processing | Delivered | Failed

  datatype Job = Job(
    payload: Option<string>,
    status: Status,
    attempts: nat,
    maxAttempts: int,
    availableAt: Time,
    lockedAt: Option<Time>,
    lockedBy: Option<WorkerId>,
    deliveredAt: Option<Time>,
    terminalAt: Option<Time>,
    lastError: Option<string>)

  // The delivery log row written with an accepted job.
  datatype LogRow = LogRow(success: bool, status: Status, createdAt: Time)

  predicate Terminal(status: Status) {
    status.Delivered? || status.Failed?
  }

  function NewJob(payload: string, maxAttempts: int, now: Time): Job {
    Job(Some(payload), Queued, 0, maxAttempts, now, None, None, None, None, None)
  }

  // The WHERE clause of the claim: due, and either queued or held under a stale lock.
  predicate Eligible(job: Job, now: Time, lockTimeout: int) {
    && job.availableAt <= now
    && (|| job.status.Queued?
        || (job.status.Processing? && (job.lockedAt.None? || job.lockedAt.value < now - lockTimeout)))
  }

  // The ORDER BY of the claim.
  predicate Before(a: Time, i: JobId, b: Time, j: JobId) {
    a < b || (a == b && i < j)
  }

  // id is the row a claim reading the clock at now must take, when the rows in
  // locked are held by other open transactions and therefore skipped.
  ghost predicate IsChoice(jobs: map<JobId, Job>, now: Time, lockTimeout: int, locked: set<JobId>, id: JobId) {
    && id in jobs && id !in locked && Eligible(jobs[id], now, lockTimeout)
    && forall k :: k in jobs && k !in locked && k != id && Eligible(jobs[k], now, lockTimeout) ==>
         Before(jobs[id].availableAt, id, jobs[k].availableAt, k)
  }

  function ClaimedBy(job: Job, worker: WorkerId, now: Time): Job {
    job.(status := Processing, lockedAt := Some(now), lockedBy := Some(worker), attempts := job.attempts + 1)
  }

  // The guard shared by heartbeat, completion and failure.
  predicate OwnedBy(job: Job, worker: WorkerId) {
    job.status.Processing? && job.lockedBy == Some(worker)
  }

  function Refreshed(job: Job, now: Time): Job {
    job.(lockedAt := Some(now))
  }

  function Completed(job: Job, now: Time): Job {
    job.(status := Delivered, deliveredAt := Some(now), terminalAt := Some(now), payload := None,
         lockedAt := None, lockedBy := None, lastError := None)
  }

  const MAX_ERROR_LENGTH: nat := 2000

  function Truncated(error: string): (kept: string)
    ensures kept <= error && |kept| == Min(|error|, MAX_ERROR_LENGTH)
  {
    if |error| <= MAX_ERROR_LENGTH then error else error[..MAX_ERROR_LENGTH]
  }

  function Pow2(n: nat): nat {
    if n == 0 then 1 else 2 * Pow2(n - 1)
  }

  function Backoff(attempts: int): int {
    Min(3600, 15 * Pow2(Max(0, Min(attempts - 1, 20))))
  }

  function FailedJob(job: Job, error: string, retryable: bool, now: Time): Job {
    var released := job.(lastError := Some(Truncated(error)), lockedAt := None, lockedBy := None);
    if retryable && job.attempts < job.maxAttempts then
      released.(status := Queued, availableAt := now + Backoff(job.attempts) * SECOND)
    else
      released.(status := Failed, terminalAt := Some(now), payload := None)
  }

  // What a completion makes of a row.
  predicate IsDelivered(before: Job, after: Job, now: Time) {
    && after.status.Delivered? && after.deliveredAt == Some(now) && after.terminalAt == Some(now)
    && after.payload.None? && after.lockedAt.None? && after.lockedBy.None? && after.lastError.None?
    && after.attempts == before.attempts && after.maxAttempts == before.maxAttempts
    && after.availableAt == before.availableAt
  }

  // What a failure makes of a row: it waits for a retry if the error allows one and
  // attempts are left, and has failed for good otherwise.
  predicate IsEnded(before: Job, after: Job, error: string, retryable: bool, now: Time) {
    && after.lastError == Some(if |error| <= 2000 then error else error[..2000])
    && after.lockedAt.None? && after.lockedBy.None?
    && after.attempts == before.attempts && after.maxAttempts == before.maxAttempts
    && after.deliveredAt == before.deliveredAt
    && if retryable && before.attempts < before.maxAttempts then
         && after.status.Queued? && after.availableAt == now + Backoff(before.attempts) * SECOND
         && after.payload == before.payload && after.terminalAt == before.terminalAt
       else
         && after.status.Failed? && after.availableAt == before.availableAt
         && after.payload.None? && after.terminalAt == Some(now)
  }

  // The retention condition on terminal rows.
  predicate Expired(job: Job, now: Time, retention: int) {
    job.terminalAt.Some? && job.terminalAt.value < now - retention
  }

  lemma {:induction false} Pow2Monotone(a: nat, b: nat)
    requires a <= b
    ensures 1 <= Pow2(a) <= Pow2(b)
    decreases b
  {
    if a < b {
      Pow2Monotone(a, b - 1);
    } else if a > 0 {
      Pow2Monotone(a - 1, b - 1);
    }
  }

  lemma Pow2At8()
    ensures Pow2(8) == 256
  {
    assert Pow2(4) == 16;
  }

  // The inner clamp on the exponent never shows: the back-off is the plain
  // bounded exponential.
  lemma BackoffIsBoundedExponential(attempts: int)
    ensures Backoff(attempts) == Min(3600, 15 * Pow2(Max(0, attempts - 1)))
    ensures 15 <= Backoff(attempts) <= 3600
  {
    Pow2At8();
    Pow2Monotone(0, Max(0, attempts - 1));
    if attempts - 1 > 20 {
      Pow2Monotone(8, 20);
      Pow2Monotone(8, attempts - 1);
    }
  }

  // The back-off in seconds: it starts at 15, doubles, and stays at an hour.
  lemma BackoffValues(attempts: int)
    ensures Backoff(attempts) ==
            if attempts <= 1 then 15
            else if attempts == 2 then 30
            else if attempts == 3 then 60
            else if attempts == 4 then 120
            else if attempts == 5 then 240
            else if attempts == 6 then 480
            else if attempts == 7 then 960
            else if attempts == 8 then 1920
            else 3600
  {
    assert Pow2(0) == 1 && Pow2(1) == 2 && Pow2(2) == 4 && Pow2(3) == 8;
    assert Pow2(4) == 16 && Pow2(5) == 32 && Pow2(6) == 64 && Pow2(7) == 128;
    if attempts >= 9 {
      Pow2At8();
      Pow2Monotone(8, Min(attempts - 1, 20));
    }
  }

  lemma BackoffMonotone(a: int, b: int)
    requires a <= b
    ensures Backoff(a) <= Backoff(b)
  {
    BackoffIsBoundedExponential(a);
    BackoffIsBoundedExponential(b);
    Pow2Monotone(Max(0, a - 1), Max(0, b - 1));
  }

  // Seconds that must have passed since acceptance before the claim that
  // follows the k-th requeue.
  function EarliestRetry(k: nat): int {
    if k <= 8 then 15 * (Pow2(k) - 1) else 3825 + 3600 * (k - 8)
  }

  lemma EarliestRetryStep(k: nat, attempts: int)
    requires k < attempts
    ensures EarliestRetry(k + 1) == EarliestRetry(k) + Backoff(k + 1) <= EarliestRetry(k) + Backoff(attempts)
  {
    Pow2At8();
    BackoffMonotone(k + 1, attempts);
    BackoffIsBoundedExponential(k + 1);
    if k < 8 {
      Pow2Monotone(k, 7);
      assert Pow2(8) == 2 * Pow2(7);
    } else {
      Pow2Monotone(8, k);
    }
  }
}
