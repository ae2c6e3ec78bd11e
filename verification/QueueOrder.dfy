/** Order: the retry schedule, who gets ahead of whom, and how often a due job is passed over. */
module QueueOrder {
  import opened Common
  import opened JobRows
  import opened Snapshots
  import opened Protocol
  import opened ProtocolInvariant
  import opened ProtocolFrames
  import opened Passes

  // ---- the retry schedule ----

  // Over any run, the claim that follows the k-th requeue reads its clock no
  // earlier than the bounded exponential schedule allows.
  lemma ClaimsFollowSchedule(cfg: Config, s: State, w: WorkerId, j: JobId, now: Time, skipped: set<JobId>)
    requires Reachable(cfg, s) && Reversible(cfg.codec) && ClaimFires(cfg, s, w, j, now, skipped)
    ensures var h := s.history[j];
            var k := |h.requeues|;
            now >= h.enqueuedAt + SECOND * if k <= 8 then 15 * (Pow2(k) - 1) else 3825 + 3600 * (k - 8)
  {
    ReachableInv(cfg, s);
    assert JobInv(cfg, s, j) && Rows(s)[j] == s.jobs[j];
  }

  // ---- the order of waiting jobs ----

  predicate Waiting(s: State, j: JobId) {
    j in s.jobs && s.jobs[j].status.Queued? && s.jobs[j].availableAt <= s.clock
  }

  // The unfinished jobs that precede j in the order of the claim.
  function Ahead(s: State, j: JobId): set<JobId>
    requires j in s.jobs
  {
    set k | k in s.jobs && !Terminal(s.jobs[k].status) && Before(s.jobs[k].availableAt, k, s.jobs[j].availableAt, j)
  }

  function QueuedAhead(s: State, j: JobId): set<JobId>
    requires j in s.jobs
  {
    set k | k in Ahead(s, j) && s.jobs[k].status.Queued?
  }

  ghost predicate Fires(cfg: Config, s: State, a: Action) {
    a.Claim? && ClaimFires(cfg, s, a.worker, a.id, a.now, a.skipped)
  }

  // No claim of the run takes j.
  ghost predicate Unclaimed(cfg: Config, s: State, actions: seq<Action>, j: JobId)
    requires WellKeyed(s)
    decreases |actions|
  {
    actions == [] || (!Claims(cfg, s, actions[0], j) && Unclaimed(cfg, Apply(cfg, s, actions[0]), actions[1..], j))
  }

  // ---- who can get ahead of a waiting job ----

  // A submission that commits only now, although its reading and its id come before
  // the due time and the id of j.
  predicate LateAccept(cfg: Config, s: State, a: Action, j: JobId)
    requires j in s.jobs
  {
    Enters(cfg, s, a) && Before(a.now, a.id, s.jobs[j].availableAt, j)
  }

  // A failure that queues job k again.
  predicate Requeues(s: State, a: Action, k: JobId) {
    Ends(s, a, k) && FinalRow(PhaseOf(s, a.worker), s.jobs[k], a.now).status.Queued?
  }

  // The back-off of that failure, counted from its reading, is over before j was due.
  predicate LateRequeue(s: State, a: Action, j: JobId, k: JobId)
    requires j in s.jobs
  {
    && Requeues(s, a, k)
    && Before(a.now + Backoff(s.jobs[k].attempts) * SECOND, k, s.jobs[j].availableAt, j)
  }

  lemma QueuedRowKept(cfg: Config, s: State, a: Action, j: JobId)
    requires WellKeyed(s) && Waiting(s, j) && !Claims(cfg, s, a, j) && s.jobs[j].terminalAt.None?
    ensures var t := Apply(cfg, s, a); j in t.jobs && t.jobs[j] == s.jobs[j] && Waiting(t, j)
  {
    var t := Apply(cfg, s, a);
    StepFrame(cfg, s, a, j);
    assert Rows(s)[j] == s.jobs[j];
    assert j in t.jobs && Rows(t)[j] == t.jobs[j];
  }

  lemma WaitingRowKept(cfg: Config, s: State, a: Action, j: JobId)
    requires Inv(cfg, s) && Waiting(s, j) && !Claims(cfg, s, a, j)
    ensures var t := Apply(cfg, s, a); j in t.jobs && t.jobs[j] == s.jobs[j] && Waiting(t, j)
  {
    assert Rows(s)[j] == s.jobs[j];
    assert s.jobs[j].terminalAt.None? by {
      assert JobInv(cfg, s, j);
    }
    QueuedRowKept(cfg, s, a, j);
  }

  // An owner reads its clock after it took the lock, and took the lock when the job was due.
  lemma EndsAfterDue(cfg: Config, s: State, a: Action, k: JobId)
    requires Inv(cfg, s) && Ends(s, a, k)
    ensures s.jobs[k].availableAt <= a.now
  {
    var p := PhaseOf(s, a.worker);
    var r, h := s.jobs[k], s.history[k];
    assert Rows(s)[k] == r;
    assert PhaseInv(cfg, a.worker, p, r, h) by {
      assert WorkerInv(cfg, s, a.worker);
    }
    assert Lifecycle(cfg, s.clock, r, h) by {
      assert JobInv(cfg, s, k);
    }
  }

  // How one known job can move in a step.
  lemma KnownRowMoves(cfg: Config, s: State, a: Action, k: JobId, r: Job, n: Job)
    requires k in s.jobs && s.jobs[k] == r && RowEffect(cfg, s, a, k, r, n)
    requires Ends(s, a, k) ==> r.availableAt <= a.now && n == FinalRow(PhaseOf(s, a.worker), r, a.now)
    ensures n.availableAt >= r.availableAt
    ensures !Terminal(n.status) ==> !Terminal(r.status)
    ensures n.status.Queued? && !r.status.Queued? <==> Requeues(s, a, k)
    ensures Requeues(s, a, k) ==> n.availableAt == a.now + Backoff(r.attempts) * SECOND
    ensures n.status.Queued? && r.status.Queued? ==> n == r
  {
    BackoffIsBoundedExponential(r.attempts);
  }

  lemma EndedRow(cfg: Config, s: State, a: Action, k: JobId)
    requires WellKeyed(s) && Ends(s, a, k)
    ensures k in Apply(cfg, s, a).jobs && Apply(cfg, s, a).jobs[k] == FinalRow(PhaseOf(s, a.worker), s.jobs[k], a.now)
  {
    FinaliseRows(s, a.worker, a.now, k);
    assert Rows(s)[k] == s.jobs[k];
    assert Rows(ApplyFinalise(s, a.worker, a.now))[k] == ApplyFinalise(s, a.worker, a.now).jobs[k];
  }

  lemma KnownRowEffect(cfg: Config, s: State, a: Action, k: JobId)
    requires WellKeyed(s) && k in s.jobs && k in Apply(cfg, s, a).jobs
    ensures RowEffect(cfg, s, a, k, s.jobs[k], Apply(cfg, s, a).jobs[k])
  {
    StepFrame(cfg, s, a, k);
    assert Rows(s)[k] == s.jobs[k] && Rows(Apply(cfg, s, a))[k] == Apply(cfg, s, a).jobs[k];
  }

  lemma KnownRowStep(cfg: Config, s: State, a: Action, k: JobId)
    requires Inv(cfg, s) && k in s.jobs && k in Apply(cfg, s, a).jobs
    ensures var r, n := s.jobs[k], Apply(cfg, s, a).jobs[k];
            && n.availableAt >= r.availableAt
            && (!Terminal(n.status) ==> !Terminal(r.status))
            && (n.status.Queued? && !r.status.Queued? <==> Requeues(s, a, k))
            && (Requeues(s, a, k) ==> n.availableAt == a.now + Backoff(r.attempts) * SECOND)
            && (n.status.Queued? && r.status.Queued? ==> n == r)
  {
    KnownRowEffect(cfg, s, a, k);
    if Ends(s, a, k) {
      EndsAfterDue(cfg, s, a, k);
      EndedRow(cfg, s, a, k);
    }
    KnownRowMoves(cfg, s, a, k, s.jobs[k], Apply(cfg, s, a).jobs[k]);
  }

  lemma OnlyKnownRows(cfg: Config, s: State, a: Action, k: JobId)
    requires WellKeyed(s) && k in s.history && k in Apply(cfg, s, a).jobs
    ensures k in s.jobs
  {
    StepFrame(cfg, s, a, k);
  }

  lemma RequeueKeepsRow(cfg: Config, s: State, a: Action, k: JobId)
    requires WellKeyed(s) && Requeues(s, a, k)
    ensures k in Apply(cfg, s, a).jobs
  {
    FinaliseRows(s, a.worker, a.now, k);
  }

  lemma KnownAhead(s: State, t: State, j: JobId, k: JobId)
    requires j in s.jobs && j in t.jobs && t.jobs[j] == s.jobs[j] && k in s.jobs
    requires k in t.jobs ==>
               && t.jobs[k].availableAt >= s.jobs[k].availableAt
               && (!Terminal(t.jobs[k].status) ==> !Terminal(s.jobs[k].status))
    ensures k in Ahead(t, j) ==> k in Ahead(s, j)
  {
  }

  lemma KnownQueuedAhead(s: State, a: Action, t: State, j: JobId, k: JobId)
    requires j in s.jobs && j in t.jobs && t.jobs[j] == s.jobs[j] && k in s.jobs
    requires Requeues(s, a, k) ==> k in t.jobs
    requires k in t.jobs ==>
               var r, n := s.jobs[k], t.jobs[k];
               && (n.status.Queued? && !r.status.Queued? <==> Requeues(s, a, k))
               && (Requeues(s, a, k) ==> n.availableAt == a.now + Backoff(r.attempts) * SECOND)
               && (n.status.Queued? && r.status.Queued? ==> n == r)
    ensures k in QueuedAhead(t, j) && k !in QueuedAhead(s, j) <==> LateRequeue(s, a, j, k)
  {
  }

  lemma NewAhead(s: State, now: Time, t: State, j: JobId, k: JobId)
    requires j in s.jobs && j in t.jobs && t.jobs[j] == s.jobs[j] && k !in s.jobs && k in t.jobs
    requires t.jobs[k].availableAt == now && t.jobs[k].status.Queued?
    ensures k in Ahead(t, j) <==> Before(now, k, s.jobs[j].availableAt, j)
    ensures k in QueuedAhead(t, j) <==> Before(now, k, s.jobs[j].availableAt, j)
  {
  }

  lemma KnownJobStep(cfg: Config, s: State, a: Action, j: JobId, k: JobId)
    requires Inv(cfg, s) && Waiting(s, j) && !Claims(cfg, s, a, j) && k in s.jobs
    ensures j in Apply(cfg, s, a).jobs
    ensures k in Ahead(Apply(cfg, s, a), j) ==> k in Ahead(s, j)
    ensures k in QueuedAhead(Apply(cfg, s, a), j) && k !in QueuedAhead(s, j) <==> LateRequeue(s, a, j, k)
  {
    WaitingRowKept(cfg, s, a, j);
    var t := Apply(cfg, s, a);
    if Requeues(s, a, k) {
      RequeueKeepsRow(cfg, s, a, k);
    }
    if k in t.jobs {
      KnownRowStep(cfg, s, a, k);
    }
    KnownAhead(s, t, j, k);
    KnownQueuedAhead(s, a, t, j, k);
  }

  lemma FreshRow(cfg: Config, s: State, a: Action, k: JobId)
    requires WellKeyed(s) && k !in s.jobs && k in Apply(cfg, s, a).jobs
    ensures Enters(cfg, s, a) && k == a.id
    ensures Apply(cfg, s, a).jobs[k].availableAt == a.now && Apply(cfg, s, a).jobs[k].status.Queued?
  {
    if k in s.history {
      OnlyKnownRows(cfg, s, a, k);
      assert false;
    } else {
      KeysStep(cfg, s, a);
      EnteredRow(cfg, s, a);
    }
  }

  lemma NewJobStep(cfg: Config, s: State, a: Action, j: JobId, k: JobId)
    requires WellKeyed(s) && j in s.jobs && k !in s.jobs
    requires j in Apply(cfg, s, a).jobs && Apply(cfg, s, a).jobs[j] == s.jobs[j]
    ensures k in Ahead(Apply(cfg, s, a), j) <==> LateAccept(cfg, s, a, j) && k == a.id
    ensures k in QueuedAhead(Apply(cfg, s, a), j) <==> LateAccept(cfg, s, a, j) && k == a.id
  {
    var t := Apply(cfg, s, a);
    if k in t.jobs {
      FreshRow(cfg, s, a, k);
      NewAhead(s, a.now, t, j, k);
    } else if LateAccept(cfg, s, a, j) && k == a.id {
      EnteredRow(cfg, s, a);
    }
  }

  // An unfinished job gets ahead of a waiting one in a step exactly when it is a
  // submission whose reading and id come before the due time and id of the other. A
  // requeue never does: its job, if it lands ahead, was ahead before.
  lemma GetsAheadExactly(cfg: Config, s: State, a: Action, j: JobId, k: JobId)
    requires Inv(cfg, s) && Waiting(s, j) && !Claims(cfg, s, a, j)
    ensures j in Apply(cfg, s, a).jobs
    ensures k in Ahead(Apply(cfg, s, a), j) && k !in Ahead(s, j) <==> LateAccept(cfg, s, a, j) && k == a.id
  {
    if k in s.jobs {
      KnownJobStep(cfg, s, a, j, k);
      assert k in s.history;
    } else {
      WaitingRowKept(cfg, s, a, j);
      NewJobStep(cfg, s, a, j, k);
    }
  }

  // A job gets queued ahead of a waiting one exactly when it is such a submission,
  // or a requeue whose reading plus back-off comes before the other's due time.
  lemma GetsQueuedAheadExactly(cfg: Config, s: State, a: Action, j: JobId, k: JobId)
    requires Inv(cfg, s) && Waiting(s, j) && !Claims(cfg, s, a, j)
    ensures j in Apply(cfg, s, a).jobs
    ensures k in QueuedAhead(Apply(cfg, s, a), j) && k !in QueuedAhead(s, j) <==>
            (LateAccept(cfg, s, a, j) && k == a.id) || LateRequeue(s, a, j, k)
  {
    if k in s.jobs {
      KnownJobStep(cfg, s, a, j, k);
      assert k in s.history;
    } else {
      WaitingRowKept(cfg, s, a, j);
      NewJobStep(cfg, s, a, j, k);
    }
  }

  // Either way somebody's commit lags: a submission's behind its reading, or behind
  // the draw of its id, a requeue's behind its reading by at least the back-off, and
  // so by at least 15 seconds.
  lemma LateArrivalLags(cfg: Config, s: State, a: Action, j: JobId, k: JobId)
    requires Waiting(s, j)
    ensures LateAccept(cfg, s, a, j) ==> a.now < s.clock || (a.now == s.clock == s.jobs[j].availableAt && a.id < j)
    ensures LateRequeue(s, a, j, k) ==>
              s.clock - a.now >= Backoff(s.jobs[k].attempts) * SECOND && s.clock - a.now >= 15 * SECOND
  {
    if LateRequeue(s, a, j, k) {
      BackoffIsBoundedExponential(s.jobs[k].attempts);
    }
  }

  // It does happen. Two submissions have drawn the ids 1 and 2; submission i commits
  // and its job is due, then submission k commits, and its job is ahead whenever its
  // reading is earlier, or is the same and its id lower.
  lemma LateAcceptOvertakes(cfg: Config, start: Time, snapshot: Snapshot, i: JobId, first: Time, k: JobId, second: Time)
    requires cfg.codec.accepts(snapshot) && {i, k} == {1, 2}
    requires first <= start && second <= start && Before(second, k, first, i)
    ensures var s := Run(cfg, Init(start), [Draw, Draw, Enqueue(i, snapshot, first)]);
            var t := Apply(cfg, s, Enqueue(k, snapshot, second));
            Waiting(s, i) && Waiting(t, i) && k !in Ahead(s, i) && k in Ahead(t, i)
  {
    var enter := Enqueue(i, snapshot, first);
    assert [Draw, Draw] + [enter] == [Draw, Draw, enter];
    RunTwo(cfg, Init(start), Draw, Draw, [enter]);
    RunSingle(cfg, Apply(cfg, Apply(cfg, Init(start), Draw), Draw), enter);
    var s := Run(cfg, Init(start), [Draw, Draw, enter]);
    assert s.jobs == map[i := NewJob(cfg.codec.encode(snapshot), cfg.maxAttempts, first)] && s.nextId == 3;
    assert s.history.Keys == {i};
    EnteredRow(cfg, s, Enqueue(k, snapshot, second));
  }

  // Job 1, the only one so far, failed for the time being; its worker has read its
  // clock but not committed yet.
  ghost predicate FailurePending(s: State, a: WorkerId, read: Time, error: string) {
    && WellKeyed(s) && 1 in s.jobs && s.history.Keys == {1} && s.nextId == 2
    && s.jobs[1].maxAttempts >= 2 && s.jobs[1].attempts == 1 && OwnedBy(s.jobs[1], a)
    && PhaseOf(s, a) == Finalising(1, 1, Temporary(error), read)
  }

  // 15 seconds later, job 2 has just been accepted.
  ghost predicate SlowFailure(s: State, a: WorkerId, read: Time, error: string) {
    && 1 in s.jobs && s.jobs[1].maxAttempts >= 2 && s.jobs[1].attempts == 1 && OwnedBy(s.jobs[1], a)
    && PhaseOf(s, a) == Finalising(1, 1, Temporary(error), read)
    && s.clock == read + 15 * SECOND
    && 2 in s.jobs && s.jobs[2].status.Queued? && s.jobs[2].availableAt == s.clock
  }

  lemma FirstSendFails(cfg: Config, start: Time, snapshot: Snapshot, a: WorkerId, error: string)
    returns (actions: seq<Action>)
    requires Reversible(cfg.codec) && cfg.codec.accepts(snapshot) && cfg.maxAttempts >= 2
    ensures var t := Run(cfg, Init(start), actions); FailurePending(t, a, start, error) && t.clock == start
  {
    var entry := Submission(1, snapshot, start);
    var s := Run(cfg, Init(start), entry);
    FirstSubmission(cfg, start, snapshot);
    UndisturbedSend(cfg, s, a, 1, Temporary(error));
    RunAppend(cfg, Init(start), entry, SendActions(s, a, 1, Temporary(error)));
    actions := entry + SendActions(s, a, 1, Temporary(error));
  }

  lemma SlowWithSecondJob(s: State, t: State, payload: string, maxAttempts: int, a: WorkerId, error: string)
    requires FailurePending(s, a, s.clock, error) && t.clock == s.clock + 15 * SECOND && t.workers == s.workers
    requires t.jobs == s.jobs[2 := NewJob(payload, maxAttempts, t.clock)]
    ensures SlowFailure(t, a, s.clock, error)
  {
  }

  lemma SecondJobArrives(cfg: Config, s: State, snapshot: Snapshot, a: WorkerId, error: string)
    returns (actions: seq<Action>)
    requires FailurePending(s, a, s.clock, error) && cfg.codec.accepts(snapshot)
    ensures SlowFailure(Run(cfg, s, actions), a, s.clock, error)
  {
    var later := Submission(2, snapshot, s.clock + 15 * SECOND);
    var waited := Apply(cfg, s, Tick(15 * SECOND));
    SecondSubmission(cfg, waited, snapshot, s.clock + 15 * SECOND);
    SlowWithSecondJob(s, Run(cfg, waited, later), cfg.codec.encode(snapshot), cfg.maxAttempts, a, error);
    RunOne(cfg, s, Tick(15 * SECOND), later);
    actions := [Tick(15 * SECOND)] + later;
  }

  lemma FailsSlowly(cfg: Config, start: Time, snapshot: Snapshot, a: WorkerId, error: string)
    returns (actions: seq<Action>)
    requires Reversible(cfg.codec) && cfg.codec.accepts(snapshot) && cfg.maxAttempts >= 2
    ensures SlowFailure(Run(cfg, Init(start), actions), a, start, error)
  {
    var failing := FirstSendFails(cfg, start, snapshot, a, error);
    var arriving := SecondJobArrives(cfg, Run(cfg, Init(start), failing), snapshot, a, error);
    RunAppend(cfg, Init(start), failing, arriving);
    actions := failing + arriving;
  }

  lemma SlowFailureRequeues(s: State, a: WorkerId, read: Time, error: string)
    requires SlowFailure(s, a, read, error)
    ensures Waiting(s, 2) && LateRequeue(s, Finalise(a, read), 2, 1) && 1 !in QueuedAhead(s, 2)
  {
    assert Pow2(0) == 1;
    assert Backoff(1) == 15;
  }

  // So does the other case: a failure that commits 15 seconds after its reading puts
  // its job into the queue ahead of one that is due.
  lemma LateRequeueOvertakes(cfg: Config, start: Time, snapshot: Snapshot, a: WorkerId, error: string)
    requires Reversible(cfg.codec) && cfg.codec.accepts(snapshot) && cfg.maxAttempts >= 2
    ensures exists actions: seq<Action> ::
              var s := Run(cfg, Init(start), actions);
              var t := Apply(cfg, s, Finalise(a, start));
              Waiting(s, 2) && 1 !in QueuedAhead(s, 2) && 2 in t.jobs && 1 in QueuedAhead(t, 2)
  {
    var actions := FailsSlowly(cfg, start, snapshot, a, error);
    var s := Run(cfg, Init(start), actions);
    InitInv(cfg, start);
    RunInv(cfg, Init(start), actions);
    SlowFailureRequeues(s, a, start, error);
    GetsQueuedAheadExactly(cfg, s, Finalise(a, start), 2, 1);
  }

  // ---- the due time over a run ----

  // The due time of job j after one more action: the reading of its submission, or of
  // a requeue plus the back-off, or what it was.
  ghost function NextDue(cfg: Config, s: State, a: Action, j: JobId, due: Time): Time {
    if Enters(cfg, s, a) && a.id == j then a.now
    else if Requeues(s, a, j) then a.now + Backoff(s.jobs[j].attempts) * SECOND
    else due
  }

  ghost function DueTime(cfg: Config, s: State, actions: seq<Action>, j: JobId, due: Time): Time
    requires WellKeyed(s)
    decreases |actions|
  {
    if actions == [] then due
    else DueTime(cfg, Apply(cfg, s, actions[0]), actions[1..], j, NextDue(cfg, s, actions[0], j, due))
  }

  lemma DueTimeEffect(cfg: Config, s: State, a: Action, j: JobId, r: Job, n: Job)
    requires j in s.jobs && s.jobs[j] == r && RowEffect(cfg, s, a, j, r, n)
    requires Ends(s, a, j) ==> n == FinalRow(PhaseOf(s, a.worker), r, a.now)
    ensures n.availableAt == if Requeues(s, a, j) then a.now + Backoff(r.attempts) * SECOND else r.availableAt
  {
  }

  // No action but a requeue changes the due time of a job.
  lemma DueTimeStep(cfg: Config, s: State, a: Action, j: JobId)
    requires WellKeyed(s) && j in s.history
    ensures Rows(Apply(cfg, s, a))[j].availableAt ==
            if Requeues(s, a, j) then a.now + Backoff(s.jobs[j].attempts) * SECOND else Rows(s)[j].availableAt
  {
    StepFrame(cfg, s, a, j);
    if j in s.jobs {
      assert Rows(s)[j] == s.jobs[j];
      if Ends(s, a, j) {
        FinaliseRows(s, a.worker, a.now, j);
      }
      DueTimeEffect(cfg, s, a, j, s.jobs[j], Rows(Apply(cfg, s, a))[j]);
    }
  }

  lemma EntryDueTime(cfg: Config, s: State, a: Action, j: JobId)
    requires WellKeyed(s) && j !in s.history && j in Apply(cfg, s, a).history
    ensures Enters(cfg, s, a) && a.id == j && Rows(Apply(cfg, s, a))[j].availableAt == a.now
  {
    KeysStep(cfg, s, a);
    EnteredRow(cfg, s, a);
    assert j in Apply(cfg, s, a).jobs;
    assert Rows(Apply(cfg, s, a))[j] == Apply(cfg, s, a).jobs[j];
  }

  lemma NextDueStep(cfg: Config, s: State, a: Action, j: JobId, due: Time)
    requires WellKeyed(s) && (j in s.history ==> Rows(s)[j].availableAt == due)
    ensures var t := Apply(cfg, s, a); j in t.history ==> Rows(t)[j].availableAt == NextDue(cfg, s, a, j, due)
  {
    if j in s.history {
      DueTimeStep(cfg, s, a, j);
    } else if j in Apply(cfg, s, a).history {
      EntryDueTime(cfg, s, a, j);
    }
  }

  // Over any run: the due time of a job is the reading of its submission, or the
  // reading of its last requeue plus the back-off; nothing else changes it.
  lemma {:induction false} DueTimeExactly(cfg: Config, s: State, actions: seq<Action>, j: JobId, due: Time)
    requires WellKeyed(s) && (j in s.history ==> Rows(s)[j].availableAt == due)
    ensures var t := Run(cfg, s, actions);
            j in t.history ==> Rows(t)[j].availableAt == DueTime(cfg, s, actions, j, due)
    decreases |actions|
  {
    if actions != [] {
      NextDueStep(cfg, s, actions[0], j, due);
      DueTimeExactly(cfg, Apply(cfg, s, actions[0]), actions[1..], j, NextDue(cfg, s, actions[0], j, due));
    }
  }

  // ---- bounded bypass ----

  ghost function ClaimCount(cfg: Config, s: State, actions: seq<Action>): nat
    requires WellKeyed(s)
    decreases |actions|
  {
    if actions == [] then 0
    else (if Fires(cfg, s, actions[0]) then 1 else 0) + ClaimCount(cfg, Apply(cfg, s, actions[0]), actions[1..])
  }

  // The claims among them that take over a stale lock.
  ghost function ReclaimCount(cfg: Config, s: State, actions: seq<Action>): nat
    requires WellKeyed(s)
    decreases |actions|
  {
    if actions == [] then 0
    else
      (if Fires(cfg, s, actions[0]) && s.jobs[actions[0].id].status.Processing? then 1 else 0)
        + ReclaimCount(cfg, Apply(cfg, s, actions[0]), actions[1..])
  }

  lemma ChoiceIsAhead(cfg: Config, s: State, a: Action, j: JobId)
    requires Waiting(s, j) && Fires(cfg, s, a) && a.id != j && j !in a.skipped
    ensures a.id in Ahead(s, j)
  {
    if s.jobs[j].availableAt <= a.now {
      assert Eligible(s.jobs[j], a.now, cfg.lockTimeout);
    }
  }

  lemma ClaimedRow(cfg: Config, s: State, a: Action)
    requires WellKeyed(s) && Fires(cfg, s, a)
    ensures a.id in Apply(cfg, s, a).jobs && Apply(cfg, s, a).jobs[a.id].status.Processing?
  {
    assert Apply(cfg, s, a) == ApplyClaim(cfg, s, a.worker, a.id, a.now, a.skipped);
  }

  // A claim that passes j over without finding its row locked takes a job ahead of
  // it, which then is not queued any more. Its reading may be older than j.
  lemma ClaimTakesFromAhead(cfg: Config, s: State, a: Action, j: JobId)
    requires WellKeyed(s) && Waiting(s, j) && Fires(cfg, s, a) && a.id != j && j !in a.skipped
    ensures a.id in Ahead(s, j) && a.id in Apply(cfg, s, a).jobs
    ensures Apply(cfg, s, a).jobs[a.id].status.Processing?
  {
    ChoiceIsAhead(cfg, s, a, j);
    ClaimedRow(cfg, s, a);
  }

  // The ids that were accepted too late to be behind j, and the steps that put a
  // job in the queue ahead of j.
  ghost function Latecomers(cfg: Config, s: State, actions: seq<Action>, j: JobId): set<JobId>
    requires WellKeyed(s)
    decreases |actions|
  {
    if actions == [] then {}
    else
      (if j in s.jobs && LateAccept(cfg, s, actions[0], j) then {actions[0].id} else {})
        + Latecomers(cfg, Apply(cfg, s, actions[0]), actions[1..], j)
  }

  ghost predicate ArrivesLate(cfg: Config, s: State, a: Action, j: JobId) {
    && j in s.jobs
    && (|| LateAccept(cfg, s, a, j)
        || (a.Finalise? && Active(PhaseOf(s, a.worker)) && LateRequeue(s, a, j, PhaseOf(s, a.worker).job)))
  }

  ghost function LateCount(cfg: Config, s: State, actions: seq<Action>, j: JobId): nat
    requires WellKeyed(s)
    decreases |actions|
  {
    if actions == [] then 0
    else
      (if ArrivesLate(cfg, s, actions[0], j) then 1 else 0)
        + LateCount(cfg, Apply(cfg, s, actions[0]), actions[1..], j)
  }

  // The claims that skipped j because its row was locked.
  ghost function SkipCount(cfg: Config, s: State, actions: seq<Action>, j: JobId): nat
    requires WellKeyed(s)
    decreases |actions|
  {
    if actions == [] then 0
    else
      (if Fires(cfg, s, actions[0]) && j in actions[0].skipped then 1 else 0)
        + SkipCount(cfg, Apply(cfg, s, actions[0]), actions[1..], j)
  }

  // The only job a step can add to the queue ahead of j.
  function Arrival(s: State, a: Action): JobId {
    if a.Finalise? && Active(PhaseOf(s, a.worker)) then PhaseOf(s, a.worker).job
    else if a.Enqueue? then a.id else 0
  }

  lemma AheadGrowth(cfg: Config, s: State, a: Action, j: JobId)
    requires Inv(cfg, s) && Waiting(s, j) && !Claims(cfg, s, a, j) && j in Apply(cfg, s, a).jobs
    ensures Ahead(Apply(cfg, s, a), j) <= Ahead(s, j) + (if LateAccept(cfg, s, a, j) then {a.id} else {})
  {
    forall k | k in Ahead(Apply(cfg, s, a), j) && k !in Ahead(s, j)
      ensures LateAccept(cfg, s, a, j) && k == a.id
    {
      GetsAheadExactly(cfg, s, a, j, k);
    }
  }

  lemma ArrivalIs(cfg: Config, s: State, a: Action, j: JobId, k: JobId)
    requires j in s.jobs && ((LateAccept(cfg, s, a, j) && k == a.id) || LateRequeue(s, a, j, k))
    ensures ArrivesLate(cfg, s, a, j) && k == Arrival(s, a)
  {
  }

  lemma QueuedAheadGrowth(cfg: Config, s: State, a: Action, j: JobId)
    requires Inv(cfg, s) && Waiting(s, j) && !Claims(cfg, s, a, j) && j in Apply(cfg, s, a).jobs
    ensures QueuedAhead(Apply(cfg, s, a), j) <=
            QueuedAhead(s, j) + (if ArrivesLate(cfg, s, a, j) then {Arrival(s, a)} else {})
  {
    forall k | k in QueuedAhead(Apply(cfg, s, a), j) && k !in QueuedAhead(s, j)
      ensures ArrivesLate(cfg, s, a, j) && k == Arrival(s, a)
    {
      GetsQueuedAheadExactly(cfg, s, a, j, k);
      ArrivalIs(cfg, s, a, j, k);
    }
  }

  lemma QueueShrinks(cfg: Config, s: State, a: Action, j: JobId)
    requires WellKeyed(s) && Waiting(s, j) && Fires(cfg, s, a) && !s.jobs[a.id].status.Processing?
    requires a.id != j && j !in a.skipped
    requires j in Apply(cfg, s, a).jobs && QueuedAhead(Apply(cfg, s, a), j) <= QueuedAhead(s, j)
    ensures |QueuedAhead(Apply(cfg, s, a), j)| < |QueuedAhead(s, j)|
  {
    ClaimTakesFromAhead(cfg, s, a, j);
    var before, after := QueuedAhead(s, j), QueuedAhead(Apply(cfg, s, a), j);
    assert a.id in before && a.id !in after;
    SubsetSize(after, before - {a.id});
  }

  // What a step of the run adds to each of the counts.
  ghost function Passed(cfg: Config, s: State, a: Action): nat {
    if Fires(cfg, s, a) then 1 else 0
  }

  ghost function Allowed(cfg: Config, s: State, a: Action, j: JobId): nat {
    (if Fires(cfg, s, a) && s.jobs[a.id].status.Processing? then 1 else 0)
      + (if Fires(cfg, s, a) && j in a.skipped then 1 else 0)
      + (if ArrivesLate(cfg, s, a, j) then 1 else 0)
  }

  lemma OneMore(a: set<JobId>, b: set<JobId>, k: JobId)
    requires a <= b + {k}
    ensures |a| <= |b| + 1
  {
    SubsetSize(a, b + {k});
  }

  // A step that lets a job arrive is no claim; a claim is paid for unless it takes a
  // queued job without finding j locked.
  lemma Payment(cfg: Config, s: State, a: Action, j: JobId)
    ensures ArrivesLate(cfg, s, a, j) ==> Passed(cfg, s, a) == 0 && Allowed(cfg, s, a, j) == 1
    ensures Fires(cfg, s, a) && (s.jobs[a.id].status.Processing? || j in a.skipped) ==>
              Passed(cfg, s, a) == 1 && Allowed(cfg, s, a, j) >= 1
    ensures !Fires(cfg, s, a) ==> Passed(cfg, s, a) == 0
  {
  }

  lemma QueueBalance(cfg: Config, s: State, a: Action, j: JobId)
    requires Inv(cfg, s) && Waiting(s, j) && !Claims(cfg, s, a, j) && j in Apply(cfg, s, a).jobs
    ensures Passed(cfg, s, a) + |QueuedAhead(Apply(cfg, s, a), j)| <= |QueuedAhead(s, j)| + Allowed(cfg, s, a, j)
  {
    var before, after := QueuedAhead(s, j), QueuedAhead(Apply(cfg, s, a), j);
    QueuedAheadGrowth(cfg, s, a, j);
    Payment(cfg, s, a, j);
    if ArrivesLate(cfg, s, a, j) {
      OneMore(after, before, Arrival(s, a));
    } else {
      SubsetSize(after, before);
      if Fires(cfg, s, a) && !s.jobs[a.id].status.Processing? && j !in a.skipped {
        QueueShrinks(cfg, s, a, j);
      }
    }
  }

  // While job j is due and not claimed, only late submissions join the unfinished
  // jobs ahead of it, and the claims that go past it number at most the jobs queued
  // ahead of it, plus the stale locks taken over meanwhile, the claims that found
  // its row locked, and the late arrivals.
  lemma {:induction false} BoundedBypass(cfg: Config, s: State, actions: seq<Action>, j: JobId)
    requires Inv(cfg, s) && Reversible(cfg.codec) && Waiting(s, j) && Unclaimed(cfg, s, actions, j)
    ensures var t := Run(cfg, s, actions);
            && Waiting(t, j) && Ahead(t, j) <= Ahead(s, j) + Latecomers(cfg, s, actions, j)
            && ClaimCount(cfg, s, actions) + |QueuedAhead(t, j)| <=
               |QueuedAhead(s, j)| + ReclaimCount(cfg, s, actions) + SkipCount(cfg, s, actions, j)
                 + LateCount(cfg, s, actions, j)
    decreases |actions|
  {
    if actions != [] {
      WaitingRowKept(cfg, s, actions[0], j);
      AheadGrowth(cfg, s, actions[0], j);
      QueueBalance(cfg, s, actions[0], j);
      StepInv(cfg, s, actions[0]);
      BoundedBypass(cfg, Apply(cfg, s, actions[0]), actions[1..], j);
    }
  }

  // The readings of submissions come after the due time of j, or are the same but
  // their ids higher; failures commit less than 15 seconds after their reading.
  ghost predicate Prompt(cfg: Config, s: State, actions: seq<Action>, due: Time, j: JobId)
    requires WellKeyed(s)
    decreases |actions|
  {
    actions == []
    || (&& (actions[0].Enqueue? ==> due < actions[0].now || (due == actions[0].now && j < actions[0].id))
        && (actions[0].Finalise? ==> s.clock - actions[0].now < 15 * SECOND)
        && Prompt(cfg, Apply(cfg, s, actions[0]), actions[1..], due, j))
  }

  // Then nobody ever gets ahead of j.
  lemma {:induction false} NobodyOvertakes(cfg: Config, s: State, actions: seq<Action>, j: JobId)
    requires Inv(cfg, s) && Reversible(cfg.codec) && Waiting(s, j) && Unclaimed(cfg, s, actions, j)
    requires Prompt(cfg, s, actions, s.jobs[j].availableAt, j)
    ensures Latecomers(cfg, s, actions, j) == {} && LateCount(cfg, s, actions, j) == 0
    decreases |actions|
  {
    if actions != [] {
      var a := actions[0];
      if ArrivesLate(cfg, s, a, j) {
        LateArrivalLags(cfg, s, a, j, Arrival(s, a));
      }
      WaitingRowKept(cfg, s, a, j);
      StepInv(cfg, s, a);
      NobodyOvertakes(cfg, Apply(cfg, s, a), actions[1..], j);
    }
  }
}
