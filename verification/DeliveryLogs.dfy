/** The delivery log row of a job against the job itself, written in a separate transaction. */
module DeliveryLogs {
  import opened Common
  import opened JobRows
  import opened Snapshots
  import opened Protocol
  import opened ProtocolInvariant
  import opened ProtocolFrames
  import opened Passes

  // In every interleaving, a log that shows a final status shows the status of
  // its job, or of the row that was purged.
  lemma LogSoundness(cfg: Config, s: State, j: JobId)
    requires Reachable(cfg, s) && Reversible(cfg.codec)
    requires j in s.logs && Terminal(s.logs[j].status)
    ensures j in s.history && Rows(s)[j].status == s.logs[j].status
    ensures s.logs[j].success == s.logs[j].status.Delivered?
  {
    ReachableInv(cfg, s);
    assert JobInv(cfg, s, j);
  }

  // No worker still has to write the final status of job j, nor crashed before it did.
  ghost predicate NoFinalWriteOwed(s: State, j: JobId)
    requires WellKeyed(s) && j in s.history
  {
    forall w :: w in s.workers ==> !OwesLog(s.workers[w], j, |s.history[j].claims|, Rows(s)[j].status)
  }

  lemma LogShowsFinal(cfg: Config, s: State, j: JobId, r: Job, h: History)
    requires RowInv(cfg, s.clock, r, h) && LogFits(s, j, r, h) && j in s.logs && Terminal(r.status)
    requires forall w :: w in s.workers ==> !OwesLog(s.workers[w], j, |h.claims|, r.status)
    ensures s.logs[j].status == r.status <==> !h.overwritten
  {
  }

  // With no final write owed, the log of a finished job matches it exactly when
  // no requeue's log write landed after the final one.
  lemma LogMatchesExactly(cfg: Config, s: State, j: JobId)
    requires Reachable(cfg, s) && Reversible(cfg.codec)
    requires j in s.history && j in s.logs && Terminal(Rows(s)[j].status) && NoFinalWriteOwed(s, j)
    ensures s.logs[j].status == Rows(s)[j].status <==> !s.history[j].overwritten
  {
    ReachableInv(cfg, s);
    assert JobInv(cfg, s, j);
    LogShowsFinal(cfg, s, j, Rows(s)[j], s.history[j]);
  }

  // ---- the flags of the history, read off the actions ----

  // A log write of job j that lands: of its final status, or of a requeue.
  predicate LogsFinal(s: State, a: Action, j: JobId) {
    && a.WriteLog? && PhaseOf(s, a.worker).Logging? && PhaseOf(s, a.worker).job == j
    && Terminal(PhaseOf(s, a.worker).status)
  }

  predicate LogsRequeue(s: State, a: Action, j: JobId) {
    && a.WriteLog? && PhaseOf(s, a.worker).Logging? && PhaseOf(s, a.worker).job == j
    && !Terminal(PhaseOf(s, a.worker).status)
  }

  // One of the actions is the log write of a requeue of job j.
  ghost predicate RequeueLogged(cfg: Config, s: State, actions: seq<Action>, j: JobId)
    requires WellKeyed(s)
    decreases |actions|
  {
    actions != [] && (LogsRequeue(s, actions[0], j) || RequeueLogged(cfg, Apply(cfg, s, actions[0]), actions[1..], j))
  }

  // One of the actions writes the final status of job j, and a later one logs a requeue of it.
  ghost predicate RequeueLoggedLast(cfg: Config, s: State, actions: seq<Action>, j: JobId)
    requires WellKeyed(s)
    decreases |actions|
  {
    actions != []
    && var t := Apply(cfg, s, actions[0]);
       || (LogsFinal(s, actions[0], j) && RequeueLogged(cfg, t, actions[1..], j))
       || RequeueLoggedLast(cfg, t, actions[1..], j)
  }

  predicate IsLogged(s: State, j: JobId) {
    j in s.history && s.history[j].logged
  }

  predicate IsOverwritten(s: State, j: JobId) {
    j in s.history && s.history[j].overwritten
  }

  lemma WriteLogFlags(s: State, w: WorkerId, j: JobId)
    requires WellKeyed(s)
    ensures var t := ApplyWriteLog(s, w);
            && (IsLogged(t, j) <==> IsLogged(s, j) || LogsFinal(s, WriteLog(w), j))
            && (IsOverwritten(t, j) <==> IsOverwritten(s, j) || (IsLogged(s, j) && LogsRequeue(s, WriteLog(w), j)))
  {
  }

  lemma FreshFlags(cfg: Config, s: State, a: Action, j: JobId)
    requires WellKeyed(s) && j !in s.history && j in Apply(cfg, s, a).history
    ensures !Apply(cfg, s, a).history[j].overwritten && !Apply(cfg, s, a).history[j].logged
  {
    KeysStep(cfg, s, a);
    EnteredRow(cfg, s, a);
  }

  lemma OtherFlags(cfg: Config, s: State, a: Action, j: JobId)
    requires WellKeyed(s) && !a.WriteLog?
    ensures var t := Apply(cfg, s, a);
            && (IsLogged(t, j) <==> IsLogged(s, j)) && (IsOverwritten(t, j) <==> IsOverwritten(s, j))
  {
    if j in s.history {
      StepFrame(cfg, s, a, j);
    } else if j in Apply(cfg, s, a).history {
      FreshFlags(cfg, s, a, j);
    }
  }

  lemma {:induction false} OverwrittenExactly(cfg: Config, s: State, actions: seq<Action>, j: JobId)
    requires WellKeyed(s)
    ensures IsOverwritten(Run(cfg, s, actions), j) <==>
            || IsOverwritten(s, j)
            || (IsLogged(s, j) && RequeueLogged(cfg, s, actions, j))
            || RequeueLoggedLast(cfg, s, actions, j)
    decreases |actions|
  {
    if actions != [] {
      var a := actions[0];
      if a.WriteLog? {
        WriteLogFlags(s, a.worker, j);
      } else {
        OtherFlags(cfg, s, a, j);
      }
      OverwrittenExactly(cfg, Apply(cfg, s, a), actions[1..], j);
    }
  }

  // After any run in which no final write is owed for it, the log of a finished
  // job is wrong exactly when a log write of one of its requeues landed after the final one.
  lemma LogMatchesUnlessRequeueLast(cfg: Config, start: Time, actions: seq<Action>, j: JobId)
    requires Reversible(cfg.codec)
    ensures var t := Run(cfg, Init(start), actions);
            j in t.history && j in t.logs && Terminal(Rows(t)[j].status) && NoFinalWriteOwed(t, j) ==>
              (t.logs[j].status == Rows(t)[j].status <==> !RequeueLoggedLast(cfg, Init(start), actions, j))
  {
    var t := Run(cfg, Init(start), actions);
    if j in t.history && j in t.logs && Terminal(Rows(t)[j].status) && NoFinalWriteOwed(t, j) {
      LogMatchesExactly(cfg, t, j);
      OverwrittenExactly(cfg, Init(start), actions, j);
    }
  }

  // ---- when requeue writes are prompt ----

  predicate OwesRequeueLog(p: Phase) {
    p.Logging? && p.status.Queued?
  }

  // Every pending requeue write is still ahead of the time its job becomes due.
  ghost predicate PromptState(s: State) {
    forall w :: w in s.workers && OwesRequeueLog(s.workers[w]) && s.workers[w].job in s.jobs ==>
      s.clock < s.jobs[s.workers[w].job].availableAt
  }

  // Each requeue's log write lands before the job is due again.
  ghost predicate PromptRun(cfg: Config, s: State, actions: seq<Action>)
    requires WellKeyed(s)
    decreases |actions|
  {
    PromptState(s) && (actions == [] || PromptRun(cfg, Apply(cfg, s, actions[0]), actions[1..]))
  }

  // A job with a pending requeue write is still waiting; no log was overwritten.
  ghost predicate InOrder(s: State)
    requires WellKeyed(s)
  {
    && (forall w :: w in s.workers && OwesRequeueLog(s.workers[w]) ==> Rows(s)[s.workers[w].job].status.Queued?)
    && (forall j :: j in s.history ==> !s.history[j].overwritten)
  }

  lemma SettledPhase(cfg: Config, w: WorkerId, p: Phase, r: Job, h: History)
    requires p.Logging? && PhaseInv(cfg, w, p, r, h)
    ensures !p.status.Processing?
  {
  }

  lemma LoggingIsSettled(cfg: Config, s: State, w: WorkerId)
    requires Inv(cfg, s) && PhaseOf(s, w).Logging?
    ensures !PhaseOf(s, w).status.Processing?
  {
    var p := PhaseOf(s, w);
    assert WorkerInv(cfg, s, w);
    SettledPhase(cfg, w, p, Rows(s)[p.job], s.history[p.job]);
  }

  lemma PendingIsQueued(s: State, w: WorkerId)
    requires WellKeyed(s) && InOrder(s) && OwesRequeueLog(PhaseOf(s, w))
    ensures Rows(s)[PhaseOf(s, w).job].status.Queued?
  {
    assert OwesRequeueLog(s.workers[w]);
  }

  lemma LoggedIsTerminal(cfg: Config, s: State, j: JobId)
    requires Inv(cfg, s) && j in s.history
    ensures s.history[j].logged ==> Terminal(Rows(s)[j].status)
  {
    assert JobInv(cfg, s, j);
  }

  lemma PendingMeansNotLogged(cfg: Config, s: State, w: WorkerId)
    requires Inv(cfg, s) && InOrder(s) && PhaseOf(s, w).Logging? && !Terminal(PhaseOf(s, w).status)
    ensures !s.history[PhaseOf(s, w).job].logged
  {
    LoggingIsSettled(cfg, s, w);
    PendingIsQueued(s, w);
    LoggedIsTerminal(cfg, s, PhaseOf(s, w).job);
  }

  lemma NotOverwritten(cfg: Config, s: State, a: Action, j: JobId)
    requires Inv(cfg, s) && InOrder(s) && j in s.history
    ensures !Apply(cfg, s, a).history[j].overwritten
  {
    StepFrame(cfg, s, a, j);
    if LogsRequeue(s, a, j) {
      PendingMeansNotLogged(cfg, s, a.worker);
    }
  }

  lemma PendingPhaseKept(cfg: Config, s: State, a: Action, w: WorkerId)
    requires WellKeyed(s) && OwesRequeueLog(PhaseOf(s, w)) && OwesRequeueLog(PhaseOf(Apply(cfg, s, a), w))
    ensures PhaseOf(Apply(cfg, s, a), w) == PhaseOf(s, w)
  {
    if !ActsFor(a, w) {
      OthersKeepPhase(cfg, s, a, w);
    }
  }

  lemma LogStarts(cfg: Config, s: State, a: Action, w: WorkerId)
    requires WellKeyed(s) && ActsFor(a, w)
    requires !OwesRequeueLog(PhaseOf(s, w)) && OwesRequeueLog(PhaseOf(Apply(cfg, s, a), w))
    ensures a.Finalise?
  {
  }

  lemma RequeuedRow(s: State, w: WorkerId, now: Time)
    requires WellKeyed(s) && !OwesRequeueLog(PhaseOf(s, w)) && OwesRequeueLog(PhaseOf(ApplyFinalise(s, w, now), w))
    ensures var t := ApplyFinalise(s, w, now); Rows(t)[PhaseOf(t, w).job].status.Queued?
  {
  }

  lemma BecomesPending(cfg: Config, s: State, a: Action, w: WorkerId)
    requires WellKeyed(s) && !OwesRequeueLog(PhaseOf(s, w)) && OwesRequeueLog(PhaseOf(Apply(cfg, s, a), w))
    ensures var t := Apply(cfg, s, a); Rows(t)[PhaseOf(t, w).job].status.Queued?
  {
    if !ActsFor(a, w) {
      OthersKeepPhase(cfg, s, a, w);
    } else {
      LogStarts(cfg, s, a, w);
      RequeuedRow(s, w, a.now);
    }
  }

  // While a requeue's log write is pending and prompt, nobody can claim the job.
  lemma PendingJobWaits(cfg: Config, s: State, a: Action, w: WorkerId)
    requires Inv(cfg, s) && InOrder(s) && PromptState(s)
    requires OwesRequeueLog(PhaseOf(Apply(cfg, s, a), w))
    ensures var t := Apply(cfg, s, a); Rows(t)[PhaseOf(t, w).job].status.Queued?
  {
    var t := Apply(cfg, s, a);
    var j := PhaseOf(t, w).job;
    if OwesRequeueLog(PhaseOf(s, w)) {
      PendingPhaseKept(cfg, s, a, w);
      assert OwesRequeueLog(s.workers[w]);
      StatusSteps(cfg, s, a, j);
      assert !Claims(cfg, s, a, j);
    } else {
      BecomesPending(cfg, s, a, w);
    }
  }

  lemma StepInOrder(cfg: Config, s: State, a: Action)
    requires Inv(cfg, s) && InOrder(s) && PromptState(s)
    ensures InOrder(Apply(cfg, s, a))
  {
    var t := Apply(cfg, s, a);
    forall w | w in t.workers && OwesRequeueLog(t.workers[w])
      ensures Rows(t)[t.workers[w].job].status.Queued?
    {
      PendingJobWaits(cfg, s, a, w);
    }
    forall j | j in t.history
      ensures !t.history[j].overwritten
    {
      if j in s.history {
        NotOverwritten(cfg, s, a, j);
      } else {
        FreshFlags(cfg, s, a, j);
      }
    }
  }

  lemma {:induction false} PromptRunInOrder(cfg: Config, s: State, actions: seq<Action>)
    requires Inv(cfg, s) && Reversible(cfg.codec) && InOrder(s) && PromptRun(cfg, s, actions)
    ensures InOrder(Run(cfg, s, actions))
    decreases |actions|
  {
    if actions != [] {
      StepInOrder(cfg, s, actions[0]);
      StepInv(cfg, s, actions[0]);
      PromptRunInOrder(cfg, Apply(cfg, s, actions[0]), actions[1..]);
    }
  }

  // If each requeue's log write lands before the job is due again, then every
  // finished job whose final write has landed has a matching log.
  lemma PromptLogsMatch(cfg: Config, start: Time, actions: seq<Action>, j: JobId)
    requires Reversible(cfg.codec) && PromptRun(cfg, Init(start), actions)
    ensures var t := Run(cfg, Init(start), actions);
            j in t.history && j in t.logs && Terminal(Rows(t)[j].status) && NoFinalWriteOwed(t, j) ==>
              t.logs[j].status == Rows(t)[j].status
  {
    var t := Run(cfg, Init(start), actions);
    InitInv(cfg, start);
    PromptRunInOrder(cfg, Init(start), actions);
    if j in t.history && j in t.logs && Terminal(Rows(t)[j].status) && NoFinalWriteOwed(t, j) {
      LogMatchesExactly(cfg, t, j);
    }
  }

  // ---- a late requeue write really does leave a wrong log ----

  // Job 1 waits for its retry while worker a has not logged the requeue yet.
  ghost predicate RetryPending(cfg: Config, s: State, a: WorkerId) {
    && WellKeyed(s) && 1 in s.jobs && 1 in s.logs && s.workers == map[a := Logging(1, 1, Queued)]
    && s.jobs[1].status.Queued? && s.jobs[1].attempts == 1 && s.jobs[1].availableAt <= s.clock + 3600 * SECOND
    && cfg.codec.decode(s.jobs[1].payload).Ok?
  }

  // Job 1 is delivered; neither the requeue nor the delivery is logged yet.
  ghost predicate BothWritesPending(s: State, a: WorkerId, b: WorkerId) {
    && WellKeyed(s) && 1 in s.jobs && 1 in s.logs && s.jobs[1].status.Delivered?
    && s.workers == map[a := Logging(1, 1, Queued), b := Logging(1, 2, Delivered)]
  }

  lemma FirstPassRequeues(cfg: Config, start: Time, snapshot: Snapshot, a: WorkerId, error: string)
    requires Reversible(cfg.codec) && cfg.codec.accepts(snapshot) && cfg.maxAttempts >= 2
    ensures var s := Run(cfg, Init(start), Submission(1, snapshot, start));
            RetryPending(cfg, Run(cfg, s, PassActions(s, a, 1, Temporary(error))), a)
  {
    FirstSubmission(cfg, start, snapshot);
    UndisturbedPass(cfg, Run(cfg, Init(start), Submission(1, snapshot, start)), a, 1, Temporary(error));
    BackoffIsBoundedExponential(1);
  }

  lemma SecondPassDelivers(cfg: Config, s: State, a: WorkerId, b: WorkerId)
    requires RetryPending(cfg, s, a) && a != b
    ensures var t := Apply(cfg, s, Tick(3600 * SECOND));
            BothWritesPending(Run(cfg, t, PassActions(t, b, 1, Accepted)), a, b)
  {
    var t := Apply(cfg, s, Tick(3600 * SECOND));
    UndisturbedPass(cfg, t, b, 1, Accepted);
  }

  lemma LogStep(cfg: Config, s: State, w: WorkerId)
    requires WellKeyed(s) && PhaseOf(s, w).Logging? && PhaseOf(s, w).job in s.jobs && PhaseOf(s, w).job in s.logs
    ensures var t := Apply(cfg, s, WriteLog(w));
            && t.workers == s.workers[w := Idle] && t.jobs == s.jobs && t.logs.Keys == s.logs.Keys
            && t.logs[PhaseOf(s, w).job].status == PhaseOf(s, w).status
  {
    var j := PhaseOf(s, w).job;
    assert Rows(s)[j] == s.jobs[j];
  }

  lemma FinalWriteLands(cfg: Config, s: State, a: WorkerId, b: WorkerId)
    requires BothWritesPending(s, a, b) && a != b
    ensures var t := Apply(cfg, s, WriteLog(b));
            t.workers == map[a := Logging(1, 1, Queued), b := Idle] && t.jobs == s.jobs && 1 in t.logs
  {
    LogStep(cfg, s, b);
  }

  lemma RequeueWriteLands(cfg: Config, s: State, a: WorkerId, b: WorkerId)
    requires WellKeyed(s) && 1 in s.jobs && 1 in s.logs && a != b
    requires s.workers == map[a := Logging(1, 1, Queued), b := Idle]
    ensures var t := Apply(cfg, s, WriteLog(a));
            && t.workers == map[a := Idle, b := Idle] && t.jobs == s.jobs
            && 1 in t.logs && t.logs[1].status.Queued?
  {
    LogStep(cfg, s, a);
  }

  lemma LateWrites(cfg: Config, s: State, a: WorkerId, b: WorkerId)
    requires BothWritesPending(s, a, b) && a != b
    ensures var t := Apply(cfg, Apply(cfg, s, WriteLog(b)), WriteLog(a));
            && t.workers == map[a := Idle, b := Idle] && t.jobs == s.jobs
            && 1 in t.logs && t.logs[1].status.Queued?
  {
    FinalWriteLands(cfg, s, a, b);
    RequeueWriteLands(cfg, Apply(cfg, s, WriteLog(b)), a, b);
  }

  function Scenario(entry: seq<Action>, first: seq<Action>, wait: Action, second: seq<Action>, w: Action, x: Action)
    : seq<Action>
  {
    entry + (first + ([wait] + (second + [w, x])))
  }

  lemma RunScenario(cfg: Config, s: State, entry: seq<Action>, first: seq<Action>, wait: Action, second: seq<Action>,
                    w: Action, x: Action)
    requires WellKeyed(s)
    ensures Run(cfg, s, Scenario(entry, first, wait, second, w, x)) ==
            Apply(cfg, Apply(cfg, Run(cfg, Apply(cfg, Run(cfg, Run(cfg, s, entry), first), wait), second), w), x)
  {
    var s1 := Run(cfg, s, entry);
    var s2 := Run(cfg, s1, first);
    var s3 := Apply(cfg, s2, wait);
    var s4 := Run(cfg, s3, second);
    RunAppend(cfg, s, entry, first + ([wait] + (second + [w, x])));
    RunAppend(cfg, s1, first, [wait] + (second + [w, x]));
    RunOne(cfg, s2, wait, second + [w, x]);
    RunAppend(cfg, s3, second, [w, x]);
    RunPair(cfg, s4, w, x);
  }

  // A requeue, a retry that is delivered and logged, and only then the log write of the requeue.
  lemma LateScenario(cfg: Config, start: Time, snapshot: Snapshot, a: WorkerId, b: WorkerId, error: string)
    returns (actions: seq<Action>)
    requires Reversible(cfg.codec) && cfg.codec.accepts(snapshot) && cfg.maxAttempts >= 2 && a != b
    ensures var t := Run(cfg, Init(start), actions);
            && t.workers == map[a := Idle, b := Idle]
            && 1 in t.jobs && t.jobs[1].status.Delivered?
            && 1 in t.logs && t.logs[1].status.Queued?
  {
    var s0 := Init(start);
    var entry := Submission(1, snapshot, start);
    var s1 := Run(cfg, s0, entry);
    var pass1 := PassActions(s1, a, 1, Temporary(error));
    var s2 := Run(cfg, s1, pass1);
    FirstPassRequeues(cfg, start, snapshot, a, error);
    var wait := Tick(3600 * SECOND);
    var s3 := Apply(cfg, s2, wait);
    var pass2 := PassActions(s3, b, 1, Accepted);
    var s4 := Run(cfg, s3, pass2);
    SecondPassDelivers(cfg, s2, a, b);
    LateWrites(cfg, s4, a, b);
    RunScenario(cfg, s0, entry, pass1, wait, pass2, WriteLog(b), WriteLog(a));
    actions := Scenario(entry, pass1, wait, pass2, WriteLog(b), WriteLog(a));
  }

  // A requeue's write that is held up past the retry leaves the log of a
  // delivered job at "queued" for good: the promptness above is needed.
  lemma LateRequeueWrite(cfg: Config, start: Time, snapshot: Snapshot, a: WorkerId, b: WorkerId, error: string)
    requires Reversible(cfg.codec) && cfg.codec.accepts(snapshot) && cfg.maxAttempts >= 2 && a != b
    ensures exists actions: seq<Action> ::
              var t := Run(cfg, Init(start), actions);
              && 1 in t.jobs && t.jobs[1].status.Delivered?
              && 1 in t.logs && t.logs[1].status.Queued?
              && forall w :: w in t.workers ==> t.workers[w].Idle?
  {
    var actions := LateScenario(cfg, start, snapshot, a, b, error);
  }
}
