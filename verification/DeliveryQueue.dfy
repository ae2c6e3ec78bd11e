/**
 The queue operations on the shared job table. Each method is one transaction;
 now is the clock reading its process made before.
 */
module DeliveryQueue {
  import opened Common
  import opened JobRows
  import opened Snapshots
  import opened Database

  // Draws the id of a new row. Until the transaction commits nobody else sees the
  // row; if it is rolled back, the id stays unused.
  method EnqueueDelivery(db: Tables, codec: Codec, maxAttempts: int, snapshot: Snapshot, now: Time)
    returns (id: JobId, job: Job)
    modifies db`nextJobId
    ensures id == old(db.nextJobId) && db.nextJobId == id + 1
    ensures job == NewJob(codec.encode(snapshot), maxAttempts, now)
    ensures job.payload == Some(codec.encode(snapshot)) && job.status.Queued? && job.attempts == 0
    ensures job.maxAttempts == maxAttempts && job.availableAt == now
    ensures job.lockedAt.None? && job.lockedBy.None? && job.deliveredAt.None? && job.terminalAt.None?
    ensures job.lastError.None?
  {
    id := db.nextJobId;
    db.nextJobId := id + 1;
    job := Job(Some(codec.encode(snapshot)), Queued, 0, maxAttempts, now, None, None, None, None, None);
  }

  // The oldest eligible row that no other transaction has locked, if there is one.
  method SelectOldest(jobs: map<JobId, Job>, now: Time, lockTimeout: int, locked: set<JobId>)
    returns (choice: Option<JobId>)
    ensures choice.None? ==> forall k :: k in jobs && k !in locked ==> !Eligible(jobs[k], now, lockTimeout)
    ensures choice.Some? ==> IsChoice(jobs, now, lockTimeout, locked, choice.value)
  {
    choice := None;
    var rest := jobs.Keys;
    while rest != {}
      invariant rest <= jobs.Keys
      invariant choice.None? ==>
                  forall k :: k in jobs && k !in rest && k !in locked ==> !Eligible(jobs[k], now, lockTimeout)
      invariant choice.Some? ==>
                  && choice.value in jobs && choice.value !in locked && choice.value !in rest
                  && Eligible(jobs[choice.value], now, lockTimeout)
                  && forall k :: k in jobs && k !in rest && k !in locked && k != choice.value
                                 && Eligible(jobs[k], now, lockTimeout) ==>
                       Before(jobs[choice.value].availableAt, choice.value, jobs[k].availableAt, k)
      decreases |rest|
    {
      var k :| k in rest;
      rest := rest - {k};
      if k !in locked && Eligible(jobs[k], now, lockTimeout) {
        if choice.None? || Before(jobs[k].availableAt, k, jobs[choice.value].availableAt, choice.value) {
          choice := Some(k);
        }
      }
    }
  }

  // What the claim looks for, column by column: due, and queued or held under a lock
  // that is missing or older than the timeout.
  predicate Due(row: Job, now: Time, lockTimeout: int) {
    && row.availableAt <= now
    && match row.status
       case Queued => true
       case Processing => row.lockedAt.None? || now - row.lockedAt.value > lockTimeout
       case Delivered => false
       case Failed => false
  }

  lemma EligibleExactly(row: Job, now: Time, lockTimeout: int)
    ensures Eligible(row, now, lockTimeout) <==> Due(row, now, lockTimeout)
  {
  }

  // A claim takes the first row, by due time and then by id, of those that are due and
  // not locked, and of its columns changes only status, lock and attempts.
  method ClaimJob(db: Tables, worker: WorkerId, now: Time, lockTimeout: int, locked: set<JobId>)
    returns (claimed: Option<(JobId, Job)>)
    modifies db`jobs
    ensures claimed.None? ==>
              && db.jobs == old(db.jobs)
              && (forall k :: k in db.jobs && k !in locked ==> !Eligible(db.jobs[k], now, lockTimeout))
              && (forall k :: k in db.jobs && k !in locked ==> !Due(db.jobs[k], now, lockTimeout))
    ensures claimed.Some? ==>
              var (id, job) := claimed.value;
              && IsChoice(old(db.jobs), now, lockTimeout, locked, id)
              && job == ClaimedBy(old(db.jobs)[id], worker, now)
              && db.jobs == old(db.jobs)[id := job]
    ensures claimed.Some? ==>
              var (id, job) := claimed.value;
              var before := old(db.jobs);
              && id in before && id !in locked && Due(before[id], now, lockTimeout)
              && (forall k :: k in before && k !in locked && Due(before[k], now, lockTimeout) ==>
                    before[id].availableAt < before[k].availableAt
                    || (before[id].availableAt == before[k].availableAt && id <= k))
              && job.status.Processing? && job.lockedAt == Some(now) && job.lockedBy == Some(worker)
              && job.attempts == before[id].attempts + 1
              && job.payload == before[id].payload && job.maxAttempts == before[id].maxAttempts
              && job.availableAt == before[id].availableAt && job.deliveredAt == before[id].deliveredAt
              && job.terminalAt == before[id].terminalAt && job.lastError == before[id].lastError
  {
    var choice := SelectOldest(db.jobs, now, lockTimeout, locked);
    match choice
    case None => claimed := None;
    case Some(id) =>
      var job := db.jobs[id];
      job := job.(status := Processing);
      job := job.(lockedAt := Some(now));
      job := job.(lockedBy := Some(worker));
      job := job.(attempts := job.attempts + 1);
      db.jobs := db.jobs[id := job];
      claimed := Some((id, job));
  }

  // The guard of heartbeat, completion and failure, column by column.
  predicate IsProcessedBy(row: Job, worker: WorkerId) {
    row.status == Processing && row.lockedBy == Some(worker)
  }

  method RefreshJobHeartbeat(db: Tables, id: JobId, worker: WorkerId, now: Time) returns (owned: bool)
    modifies db`jobs
    ensures owned <==> id in old(db.jobs) && OwnedBy(old(db.jobs)[id], worker)
    ensures owned <==> id in old(db.jobs) && IsProcessedBy(old(db.jobs)[id], worker)
    ensures db.jobs == if owned then old(db.jobs)[id := old(db.jobs)[id].(lockedAt := Some(now))] else old(db.jobs)
    ensures db.jobs == if owned then old(db.jobs)[id := Refreshed(old(db.jobs)[id], now)] else old(db.jobs)
  {
    owned := id in db.jobs && OwnedBy(db.jobs[id], worker);
    if owned {
      db.jobs := db.jobs[id := db.jobs[id].(lockedAt := Some(now))];
    }
  }

  method CompleteJob(db: Tables, id: JobId, worker: WorkerId, now: Time) returns (ok: bool)
    modifies db`jobs
    ensures ok <==> id in old(db.jobs) && OwnedBy(old(db.jobs)[id], worker)
    ensures ok <==> id in old(db.jobs) && IsProcessedBy(old(db.jobs)[id], worker)
    ensures ok ==>
              && id in db.jobs && db.jobs == old(db.jobs)[id := db.jobs[id]]
              && IsDelivered(old(db.jobs)[id], db.jobs[id], now)
    ensures db.jobs == if ok then old(db.jobs)[id := Completed(old(db.jobs)[id], now)] else old(db.jobs)
  {
    ok := id in db.jobs && OwnedBy(db.jobs[id], worker);
    if ok {
      db.jobs := db.jobs[id := db.jobs[id].(
        status := Delivered, deliveredAt := Some(now), terminalAt := Some(now), payload := None,
        lockedAt := None, lockedBy := None, lastError := None)];
    }
  }

  method FailJob(db: Tables, id: JobId, worker: WorkerId, error: string, retryable: bool, now: Time)
    returns (status: Option<Status>)
    modifies db`jobs
    ensures status.Some? <==> id in old(db.jobs) && OwnedBy(old(db.jobs)[id], worker)
    ensures status.Some? <==> id in old(db.jobs) && IsProcessedBy(old(db.jobs)[id], worker)
    ensures status.Some? ==>
              && id in db.jobs && db.jobs == old(db.jobs)[id := db.jobs[id]]
              && IsEnded(old(db.jobs)[id], db.jobs[id], error, retryable, now)
    ensures status.Some? ==>
              && db.jobs == old(db.jobs)[id := FailedJob(old(db.jobs)[id], error, retryable, now)]
              && status == Some(db.jobs[id].status)
              && (status.value.Queued? <==> retryable && old(db.jobs)[id].attempts < old(db.jobs)[id].maxAttempts)
    ensures status.None? ==> db.jobs == old(db.jobs)
  {
    if id !in db.jobs || !OwnedBy(db.jobs[id], worker) {
      return None;
    }
    var job := db.jobs[id];
    job := job.(lastError := Some(Truncated(error)));
    job := job.(lockedAt := None);
    job := job.(lockedBy := None);
    if retryable && job.attempts < job.maxAttempts {
      job := job.(status := Queued);
      job := job.(availableAt := now + Backoff(job.attempts) * SECOND);
    } else {
      job := job.(status := Failed);
      job := job.(terminalAt := Some(now));
      job := job.(payload := None);
    }
    db.jobs := db.jobs[id := job];
    status := Some(job.status);
  }

  // The commit of a submission: the job and its log row become visible together.
  method CommitSubmission(db: Tables, id: JobId, job: Job, now: Time)
    requires id !in db.jobs && id !in db.logs
    modifies db`jobs, db`logs
    ensures db.jobs == old(db.jobs)[id := job]
    ensures db.logs == old(db.logs)[id := LogRow(true, Queued, now)]
  {
    db.jobs := db.jobs[id := job];
    db.logs := db.logs[id := LogRow(true, Queued, now)];
  }

  method UpdateDeliveryLog(db: Tables, id: JobId, success: bool, status: Status)
    modifies db`logs
    ensures db.logs == if id in old(db.logs)
                       then old(db.logs)[id := old(db.logs)[id].(success := success, status := status)]
                           else old(db.logs)
  {
    if id in db.logs {
      db.logs := db.logs[id := db.logs[id].(success := success, status := status)];
    }
  }
}
