/** What one action can do to one job: the complete list of effects, action by action. */
module ProtocolFrames {
  import opened Common
  import opened JobRows
  import opened Snapshots
  import opened Protocol
  import opened ProtocolInvariant

  predicate ActsFor(a: Action, w: WorkerId) {
    match a
    case Tick(_) => false
    case Draw => false
    case Enqueue(_, _, _) => false
    case Cleanup(_) => false
    case _ => a.worker == w
  }

  // A claim that goes through and takes job j.
  ghost predicate Claims(cfg: Config, s: State, a: Action, j: JobId) {
    a.Claim? && a.id == j && ClaimFires(cfg, s, a.worker, j, a.now, a.skipped)
  }

  // A heartbeat transaction that refreshes the lock of job j.
  predicate Refreshes(s: State, a: Action, j: JobId) {
    && (a.Heartbeat? || (a.HeartbeatError? && a.committed))
    && Beating(PhaseOf(s, a.worker)) && PhaseOf(s, a.worker).job == j
    && GuardHolds(s, a.worker, j) && Reads(PhaseOf(s, a.worker), s.clock, a.now)
  }

  // A completion or failure that ends the current claim of job j.
  predicate Ends(s: State, a: Action, j: JobId) {
    && a.Finalise?
    && (PhaseOf(s, a.worker).Unreadable? || PhaseOf(s, a.worker).Finalising?) && PhaseOf(s, a.worker).job == j
    && GuardHolds(s, a.worker, j) && Reads(PhaseOf(s, a.worker), s.clock, a.now)
  }

  // A requeue's log write that lands after the final one.
  predicate Overwrites(s: State, a: Action, j: JobId) {
    && a.WriteLog? && PhaseOf(s, a.worker).Logging? && PhaseOf(s, a.worker).job == j
    && !Terminal(PhaseOf(s, a.worker).status) && j in s.history && s.history[j].logged
  }

  ghost predicate RowEffect(cfg: Config, s: State, a: Action, j: JobId, r: Job, n: Job) {
    || n == r
    || (Claims(cfg, s, a, j) && n == ClaimedBy(r, a.worker, a.now))
    || (Refreshes(s, a, j) && n == Refreshed(r, a.now))
    || (Ends(s, a, j) && n == FinalRow(PhaseOf(s, a.worker), r, a.now))
  }

  // Claims are only ever added; what was accepted stays.
  ghost predicate Grows(h: History, g: History) {
    g.accepted == h.accepted && g.enqueuedAt == h.enqueuedAt && h.claims <= g.claims && h.reclaims <= g.reclaims
  }

  ghost predicate HistoryEffect(cfg: Config, s: State, a: Action, j: JobId, r: Job, h: History, g: History) {
    && Grows(h, g)
    && (g.claims != h.claims || g.reclaims != h.reclaims ==> Claims(cfg, s, a, j) && g == AfterClaim(h, a.worker, r))
    && (g.overwritten && !h.overwritten ==> Overwrites(s, a, j))
    && (!a.WriteLog? ==> g.logged == h.logged && g.overwritten == h.overwritten)
    && (!a.SendReturns? ==> g.returned == h.returned)
  }

  ghost predicate Frame(cfg: Config, s: State, a: Action, t: State, j: JobId)
    requires WellKeyed(s) && WellKeyed(t) && j in s.history && j in t.history
  {
    var r, n := Rows(s)[j], Rows(t)[j];
    && RowEffect(cfg, s, a, j, r, n)
    && HistoryEffect(cfg, s, a, j, r, s.history[j], t.history[j])
    && (j in t.jobs ==> j in s.jobs)
    && (j in s.jobs && j !in t.jobs ==> r.terminalAt.Some?)
  }

  lemma ClaimFrame(cfg: Config, s: State, w: WorkerId, id: JobId, now: Time, skipped: set<JobId>, j: JobId)
    requires WellKeyed(s) && j in s.history
    ensures Frame(cfg, s, Claim(w, id, now, skipped), ApplyClaim(cfg, s, w, id, now, skipped), j)
  {
    var t := ApplyClaim(cfg, s, w, id, now, skipped);
    if ClaimFires(cfg, s, w, id, now, skipped) && id == j {
      assert Rows(t)[j] == ClaimedBy(Rows(s)[j], w, now);
    } else {
      assert Rows(t)[j] == Rows(s)[j] && t.history[j] == s.history[j];
    }
  }

  lemma DecodeFrame(cfg: Config, s: State, w: WorkerId, readable: bool, j: JobId)
    requires WellKeyed(s) && j in s.history
    ensures Frame(cfg, s, Decode(w, readable), ApplyDecode(cfg, s, w, readable), j)
  {
  }

  lemma RefreshedRows(s: State, w: WorkerId, now: Time, lost: bool, j: JobId)
    requires WellKeyed(s) && Beating(PhaseOf(s, w)) && PhaseOf(s, w).job in s.jobs && j in s.history
    ensures var t := AfterRefresh(s, w, now, lost);
            Rows(t)[j] == if j == PhaseOf(s, w).job then Refreshed(Rows(s)[j], now) else Rows(s)[j]
  {
  }

  lemma HeartbeatFrame(cfg: Config, s: State, w: WorkerId, now: Time, j: JobId)
    requires WellKeyed(s) && j in s.history
    ensures Frame(cfg, s, Heartbeat(w, now), ApplyHeartbeat(s, w, now), j)
  {
    var p := PhaseOf(s, w);
    if Beating(p) && GuardHolds(s, w, p.job) && Reads(p, s.clock, now) {
      RefreshedRows(s, w, now, false, j);
    } else {
      assert Rows(ApplyHeartbeat(s, w, now))[j] == Rows(s)[j];
    }
  }

  lemma HeartbeatErrorFrame(cfg: Config, s: State, w: WorkerId, committed: bool, now: Time, j: JobId)
    requires WellKeyed(s) && j in s.history
    ensures Frame(cfg, s, HeartbeatError(w, committed, now), ApplyHeartbeatError(s, w, committed, now), j)
  {
    var p := PhaseOf(s, w);
    if Beating(p) && committed && GuardHolds(s, w, p.job) && Reads(p, s.clock, now) {
      RefreshedRows(s, w, now, true, j);
    } else {
      assert Rows(ApplyHeartbeatError(s, w, committed, now))[j] == Rows(s)[j];
    }
  }

  lemma SendReturnsFrame(cfg: Config, s: State, w: WorkerId, outcome: Outcome, j: JobId)
    requires WellKeyed(s) && j in s.history
    ensures Frame(cfg, s, SendReturns(w, outcome), ApplySendReturns(s, w, outcome), j)
  {
  }

  lemma OnlyRequeuesRecorded(s: State, w: WorkerId, now: Time, j: JobId)
    requires WellKeyed(s) && j in s.history
    ensures var h, g := s.history[j], ApplyFinalise(s, w, now).history[j]; g == h.(requeues := g.requeues)
  {
    var p := PhaseOf(s, w);
    if (p.Unreadable? || p.Finalising?) && GuardHolds(s, w, p.job) && Reads(p, s.clock, now) {
      var row := FinalRow(p, s.jobs[p.job], now);
      assert ApplyFinalise(s, w, now).history == s.history[p.job := AfterFinal(s.history[p.job], p.claim, row)];
    } else {
      assert ApplyFinalise(s, w, now).history == s.history;
    }
  }

  lemma FinaliseHistory(cfg: Config, s: State, w: WorkerId, now: Time, j: JobId)
    requires WellKeyed(s) && j in s.history
    ensures HistoryEffect(cfg, s, Finalise(w, now), j, Rows(s)[j], s.history[j], ApplyFinalise(s, w, now).history[j])
  {
    OnlyRequeuesRecorded(s, w, now, j);
  }

  lemma FinaliseRows(s: State, w: WorkerId, now: Time, j: JobId)
    requires WellKeyed(s) && j in s.history
    ensures Rows(ApplyFinalise(s, w, now))[j] ==
            if Ends(s, Finalise(w, now), j) then FinalRow(PhaseOf(s, w), Rows(s)[j], now) else Rows(s)[j]
    ensures ApplyFinalise(s, w, now).jobs.Keys == s.jobs.Keys
  {
  }

  lemma FinaliseFrame(cfg: Config, s: State, w: WorkerId, now: Time, j: JobId)
    requires WellKeyed(s) && j in s.history
    ensures Frame(cfg, s, Finalise(w, now), ApplyFinalise(s, w, now), j)
  {
    FinaliseHistory(cfg, s, w, now, j);
    FinaliseRows(s, w, now, j);
    assert RowEffect(cfg, s, Finalise(w, now), j, Rows(s)[j], Rows(ApplyFinalise(s, w, now))[j]);
  }

  lemma WriteLogRows(s: State, w: WorkerId)
    requires WellKeyed(s)
    ensures Rows(ApplyWriteLog(s, w)) == Rows(s) && ApplyWriteLog(s, w).jobs.Keys == s.jobs.Keys
  {
    var p := PhaseOf(s, w);
    if p.Logging? && p.job in s.jobs {
      assert s.jobs[p.job := Rows(s)[p.job]] == s.jobs;
    }
  }

  lemma WriteLogHistory(cfg: Config, s: State, w: WorkerId, j: JobId)
    requires WellKeyed(s) && j in s.history
    ensures HistoryEffect(cfg, s, WriteLog(w), j, Rows(s)[j], s.history[j], ApplyWriteLog(s, w).history[j])
  {
  }

  lemma WriteLogFrame(cfg: Config, s: State, w: WorkerId, j: JobId)
    requires WellKeyed(s) && j in s.history
    ensures Frame(cfg, s, WriteLog(w), ApplyWriteLog(s, w), j)
  {
    WriteLogRows(s, w);
    WriteLogHistory(cfg, s, w, j);
  }

  lemma DrawFrame(cfg: Config, s: State, j: JobId)
    requires WellKeyed(s) && j in s.history
    ensures Frame(cfg, s, Draw, Apply(cfg, s, Draw), j)
  {
  }

  lemma EnqueueFrame(cfg: Config, s: State, id: JobId, snapshot: Snapshot, now: Time, j: JobId)
    requires WellKeyed(s) && j in s.history
    ensures Frame(cfg, s, Enqueue(id, snapshot, now), ApplyEnqueue(cfg, s, id, snapshot, now), j)
  {
  }

  lemma CleanupFrame(cfg: Config, s: State, now: Time, j: JobId)
    requires WellKeyed(s) && j in s.history
    ensures Frame(cfg, s, Cleanup(now), ApplyCleanup(cfg, s, now), j)
  {
    CleanupRows(cfg, s, now);
  }

  lemma TickFrame(cfg: Config, s: State, elapsed: nat, j: JobId)
    requires WellKeyed(s) && j in s.history
    ensures Frame(cfg, s, Tick(elapsed), Apply(cfg, s, Tick(elapsed)), j)
  {
  }

  lemma CrashFrame(cfg: Config, s: State, w: WorkerId, j: JobId)
    requires WellKeyed(s) && j in s.history
    ensures Frame(cfg, s, Crash(w), ApplyCrash(s, w), j)
  {
  }

  lemma JoinFrame(cfg: Config, s: State, w: WorkerId, j: JobId)
    requires WellKeyed(s) && j in s.history
    ensures Frame(cfg, s, JoinHeartbeat(w), ApplyJoin(s, w), j)
  {
  }

  predicate ByWorker(a: Action) {
    !a.Tick? && !a.Draw? && !a.Enqueue? && !a.Cleanup?
  }

  lemma ClaimActionFrame(cfg: Config, s: State, w: WorkerId, id: JobId, now: Time, skipped: set<JobId>, j: JobId)
    requires WellKeyed(s) && j in s.history
    ensures Frame(cfg, s, Claim(w, id, now, skipped), Apply(cfg, s, Claim(w, id, now, skipped)), j)
  {
    ClaimFrame(cfg, s, w, id, now, skipped, j);
    assert Apply(cfg, s, Claim(w, id, now, skipped)) == ApplyClaim(cfg, s, w, id, now, skipped);
  }

  lemma DecodeActionFrame(cfg: Config, s: State, w: WorkerId, readable: bool, j: JobId)
    requires WellKeyed(s) && j in s.history
    ensures Frame(cfg, s, Decode(w, readable), Apply(cfg, s, Decode(w, readable)), j)
  {
    DecodeFrame(cfg, s, w, readable, j);
    assert Apply(cfg, s, Decode(w, readable)) == ApplyDecode(cfg, s, w, readable);
  }

  lemma HeartbeatActionFrame(cfg: Config, s: State, w: WorkerId, now: Time, j: JobId)
    requires WellKeyed(s) && j in s.history
    ensures Frame(cfg, s, Heartbeat(w, now), Apply(cfg, s, Heartbeat(w, now)), j)
  {
    HeartbeatFrame(cfg, s, w, now, j);
    assert Apply(cfg, s, Heartbeat(w, now)) == ApplyHeartbeat(s, w, now);
  }

  lemma ErrorActionFrame(cfg: Config, s: State, w: WorkerId, committed: bool, now: Time, j: JobId)
    requires WellKeyed(s) && j in s.history
    ensures Frame(cfg, s, HeartbeatError(w, committed, now), Apply(cfg, s, HeartbeatError(w, committed, now)), j)
  {
    HeartbeatErrorFrame(cfg, s, w, committed, now, j);
    assert Apply(cfg, s, HeartbeatError(w, committed, now)) == ApplyHeartbeatError(s, w, committed, now);
  }

  lemma SendFrame(cfg: Config, s: State, a: Action, j: JobId)
    requires WellKeyed(s) && j in s.history && (a.Claim? || a.Decode? || a.Heartbeat? || a.HeartbeatError?)
    ensures Frame(cfg, s, a, Apply(cfg, s, a), j)
  {
    match a
    case Claim(w, id, now, skipped) => ClaimActionFrame(cfg, s, w, id, now, skipped, j);
    case Decode(w, readable) => DecodeActionFrame(cfg, s, w, readable, j);
    case Heartbeat(w, now) => HeartbeatActionFrame(cfg, s, w, now, j);
    case HeartbeatError(w, committed, now) => ErrorActionFrame(cfg, s, w, committed, now, j);
  }

  lemma ReturnActionFrame(cfg: Config, s: State, w: WorkerId, outcome: Outcome, j: JobId)
    requires WellKeyed(s) && j in s.history
    ensures Frame(cfg, s, SendReturns(w, outcome), Apply(cfg, s, SendReturns(w, outcome)), j)
  {
    SendReturnsFrame(cfg, s, w, outcome, j);
    assert Apply(cfg, s, SendReturns(w, outcome)) == ApplySendReturns(s, w, outcome);
  }

  lemma JoinActionFrame(cfg: Config, s: State, w: WorkerId, j: JobId)
    requires WellKeyed(s) && j in s.history
    ensures Frame(cfg, s, JoinHeartbeat(w), Apply(cfg, s, JoinHeartbeat(w)), j)
  {
    JoinFrame(cfg, s, w, j);
    assert Apply(cfg, s, JoinHeartbeat(w)) == ApplyJoin(s, w);
  }

  lemma FinaliseActionFrame(cfg: Config, s: State, w: WorkerId, now: Time, j: JobId)
    requires WellKeyed(s) && j in s.history
    ensures Frame(cfg, s, Finalise(w, now), Apply(cfg, s, Finalise(w, now)), j)
  {
    FinaliseFrame(cfg, s, w, now, j);
    assert Apply(cfg, s, Finalise(w, now)) == ApplyFinalise(s, w, now);
  }

  lemma WriteLogActionFrame(cfg: Config, s: State, w: WorkerId, j: JobId)
    requires WellKeyed(s) && j in s.history
    ensures Frame(cfg, s, WriteLog(w), Apply(cfg, s, WriteLog(w)), j)
  {
    WriteLogFrame(cfg, s, w, j);
    assert Apply(cfg, s, WriteLog(w)) == ApplyWriteLog(s, w);
  }

  lemma CrashActionFrame(cfg: Config, s: State, w: WorkerId, j: JobId)
    requires WellKeyed(s) && j in s.history
    ensures Frame(cfg, s, Crash(w), Apply(cfg, s, Crash(w)), j)
  {
    CrashFrame(cfg, s, w, j);
    assert Apply(cfg, s, Crash(w)) == ApplyCrash(s, w);
  }

  lemma EndFrame(cfg: Config, s: State, a: Action, j: JobId)
    requires WellKeyed(s) && j in s.history
    requires a.SendReturns? || a.JoinHeartbeat? || a.Finalise? || a.WriteLog? || a.Crash?
    ensures Frame(cfg, s, a, Apply(cfg, s, a), j)
  {
    match a
    case SendReturns(w, outcome) => ReturnActionFrame(cfg, s, w, outcome, j);
    case JoinHeartbeat(w) => JoinActionFrame(cfg, s, w, j);
    case Finalise(w, now) => FinaliseActionFrame(cfg, s, w, now, j);
    case WriteLog(w) => WriteLogActionFrame(cfg, s, w, j);
    case Crash(w) => CrashActionFrame(cfg, s, w, j);
  }

  lemma WorkerFrame(cfg: Config, s: State, a: Action, j: JobId)
    requires WellKeyed(s) && j in s.history && ByWorker(a)
    ensures Frame(cfg, s, a, Apply(cfg, s, a), j)
  {
    if a.Claim? || a.Decode? || a.Heartbeat? || a.HeartbeatError? {
      SendFrame(cfg, s, a, j);
    } else {
      EndFrame(cfg, s, a, j);
    }
  }

  lemma EnqueueActionFrame(cfg: Config, s: State, id: JobId, snapshot: Snapshot, now: Time, j: JobId)
    requires WellKeyed(s) && j in s.history
    ensures Frame(cfg, s, Enqueue(id, snapshot, now), Apply(cfg, s, Enqueue(id, snapshot, now)), j)
  {
    EnqueueFrame(cfg, s, id, snapshot, now, j);
    assert Apply(cfg, s, Enqueue(id, snapshot, now)) == ApplyEnqueue(cfg, s, id, snapshot, now);
  }

  lemma CleanupActionFrame(cfg: Config, s: State, now: Time, j: JobId)
    requires WellKeyed(s) && j in s.history
    ensures Frame(cfg, s, Cleanup(now), Apply(cfg, s, Cleanup(now)), j)
  {
    CleanupFrame(cfg, s, now, j);
    assert Apply(cfg, s, Cleanup(now)) == ApplyCleanup(cfg, s, now);
  }

  lemma StepFrame(cfg: Config, s: State, a: Action, j: JobId)
    requires WellKeyed(s) && j in s.history
    ensures Frame(cfg, s, a, Apply(cfg, s, a), j)
  {
    if ByWorker(a) {
      WorkerFrame(cfg, s, a, j);
    } else {
      match a
      case Tick(elapsed) => TickFrame(cfg, s, elapsed, j);
      case Draw => DrawFrame(cfg, s, j);
      case Enqueue(id, snapshot, now) => EnqueueActionFrame(cfg, s, id, snapshot, now, j);
      case Cleanup(now) => CleanupActionFrame(cfg, s, now, j);
    }
  }

  lemma ClaimKeepsPhases(cfg: Config, s: State, v: WorkerId, id: JobId, now: Time, skipped: set<JobId>, w: WorkerId)
    requires WellKeyed(s) && v != w
    ensures PhaseOf(ApplyClaim(cfg, s, v, id, now, skipped), w) == PhaseOf(s, w)
  {
  }

  lemma DecodeKeepsPhases(cfg: Config, s: State, v: WorkerId, readable: bool, w: WorkerId)
    requires WellKeyed(s) && v != w
    ensures PhaseOf(ApplyDecode(cfg, s, v, readable), w) == PhaseOf(s, w)
  {
  }

  lemma HeartbeatKeepsPhases(s: State, v: WorkerId, now: Time, w: WorkerId)
    requires WellKeyed(s) && v != w
    ensures PhaseOf(ApplyHeartbeat(s, v, now), w) == PhaseOf(s, w)
  {
  }

  lemma ErrorKeepsPhases(s: State, v: WorkerId, committed: bool, now: Time, w: WorkerId)
    requires WellKeyed(s) && v != w
    ensures PhaseOf(ApplyHeartbeatError(s, v, committed, now), w) == PhaseOf(s, w)
  {
  }

  lemma ReturnKeepsPhases(s: State, v: WorkerId, outcome: Outcome, w: WorkerId)
    requires WellKeyed(s) && v != w
    ensures PhaseOf(ApplySendReturns(s, v, outcome), w) == PhaseOf(s, w)
  {
  }

  lemma FinaliseKeepsPhases(s: State, v: WorkerId, now: Time, w: WorkerId)
    requires WellKeyed(s) && v != w
    ensures PhaseOf(ApplyFinalise(s, v, now), w) == PhaseOf(s, w)
  {
  }

  lemma WriteLogKeepsPhases(s: State, v: WorkerId, w: WorkerId)
    requires WellKeyed(s) && v != w
    ensures PhaseOf(ApplyWriteLog(s, v), w) == PhaseOf(s, w)
  {
  }

  lemma SendKeepsPhases(cfg: Config, s: State, a: Action, w: WorkerId)
    requires WellKeyed(s) && !ActsFor(a, w) && (a.Claim? || a.Decode? || a.Heartbeat? || a.HeartbeatError?)
    ensures PhaseOf(Apply(cfg, s, a), w) == PhaseOf(s, w)
  {
    match a
    case Claim(v, id, now, skipped) => ClaimKeepsPhases(cfg, s, v, id, now, skipped, w);
    case Decode(v, readable) => DecodeKeepsPhases(cfg, s, v, readable, w);
    case Heartbeat(v, now) => HeartbeatKeepsPhases(s, v, now, w);
    case HeartbeatError(v, committed, now) => ErrorKeepsPhases(s, v, committed, now, w);
  }

  lemma EndKeepsPhases(cfg: Config, s: State, a: Action, w: WorkerId)
    requires WellKeyed(s) && !ActsFor(a, w)
    requires a.SendReturns? || a.JoinHeartbeat? || a.Finalise? || a.WriteLog? || a.Crash?
    ensures PhaseOf(Apply(cfg, s, a), w) == PhaseOf(s, w)
  {
    match a
    case SendReturns(v, outcome) => ReturnKeepsPhases(s, v, outcome, w);
    case JoinHeartbeat(v) =>
    case Finalise(v, now) => FinaliseKeepsPhases(s, v, now, w);
    case WriteLog(v) => WriteLogKeepsPhases(s, v, w);
    case Crash(v) =>
  }

  // Nobody's phase changes but the acting worker's.
  lemma OthersKeepPhase(cfg: Config, s: State, a: Action, w: WorkerId)
    requires WellKeyed(s) && !ActsFor(a, w)
    ensures PhaseOf(Apply(cfg, s, a), w) == PhaseOf(s, w)
  {
    if ByWorker(a) {
      if a.Claim? || a.Decode? || a.Heartbeat? || a.HeartbeatError? {
        SendKeepsPhases(cfg, s, a, w);
      } else {
        EndKeepsPhases(cfg, s, a, w);
      }
    }
  }

  // A submission that goes through.
  predicate Enters(cfg: Config, s: State, a: Action) {
    a.Enqueue? && Accepts(cfg, s, a.id, a.snapshot, a.now)
  }

  lemma EnteredRow(cfg: Config, s: State, a: Action)
    requires WellKeyed(s) && Enters(cfg, s, a)
    ensures var t := Apply(cfg, s, a);
            && t.history == s.history[a.id := NewHistory(a.snapshot, a.now)]
            && a.id !in s.jobs && a.id in t.jobs
            && t.jobs[a.id] == NewJob(cfg.codec.encode(a.snapshot), cfg.maxAttempts, a.now)
  {
    assert Apply(cfg, s, a) == ApplyEnqueue(cfg, s, a.id, a.snapshot, a.now);
  }

  lemma NothingEntered(cfg: Config, s: State, a: Action)
    requires WellKeyed(s) && !Enters(cfg, s, a)
    ensures Apply(cfg, s, a).history.Keys == s.history.Keys
  {
  }

  // Only a submission that goes through adds a job, and it adds one under its id,
  // which no job has had before.
  lemma KeysStep(cfg: Config, s: State, a: Action)
    requires WellKeyed(s)
    ensures Apply(cfg, s, a).history.Keys == s.history.Keys + (if Enters(cfg, s, a) then {a.id} else {})
    ensures Enters(cfg, s, a) ==> a.id !in s.history
  {
    if Enters(cfg, s, a) {
      EnteredRow(cfg, s, a);
    } else {
      NothingEntered(cfg, s, a);
    }
  }

  // A row in a final state stays as it is.
  lemma FinalRowFixed(cfg: Config, s: State, a: Action, j: JobId)
    requires WellKeyed(s) && j in s.history && Terminal(Rows(s)[j].status)
    ensures Rows(Apply(cfg, s, a))[j] == Rows(s)[j]
  {
    StepFrame(cfg, s, a, j);
    assert j in s.jobs ==> Rows(s)[j] == s.jobs[j];
  }

  lemma StatusEffect(cfg: Config, s: State, a: Action, j: JobId, r: Job, n: Job)
    requires j in s.jobs && s.jobs[j] == r && RowEffect(cfg, s, a, j, r, n)
    ensures || (n.attempts == r.attempts && n.status == r.status)
            || (n.attempts == r.attempts && r.status.Processing? && !n.status.Processing? && Ends(s, a, j))
            || (n.attempts == r.attempts + 1 && n.status.Processing? && !Terminal(r.status) && Claims(cfg, s, a, j))
  {
  }

  // The status and attempts of a row change only by one more claim or by ending
  // the current one.
  lemma StatusSteps(cfg: Config, s: State, a: Action, j: JobId)
    requires WellKeyed(s) && j in s.history
    ensures var r, n := Rows(s)[j], Rows(Apply(cfg, s, a))[j];
            || (n.attempts == r.attempts && n.status == r.status)
            || (n.attempts == r.attempts && r.status.Processing? && !n.status.Processing? && Ends(s, a, j))
            || (n.attempts == r.attempts + 1 && n.status.Processing? && !Terminal(r.status) && Claims(cfg, s, a, j))
  {
    StepFrame(cfg, s, a, j);
    if j in s.jobs {
      assert Rows(s)[j] == s.jobs[j];
      StatusEffect(cfg, s, a, j, s.jobs[j], Rows(Apply(cfg, s, a))[j]);
    }
  }

  lemma FinalTimeEffect(cfg: Config, s: State, a: Action, j: JobId, r: Job, n: Job)
    requires j in s.jobs && s.jobs[j] == r && RowEffect(cfg, s, a, j, r, n)
    requires Terminal(n.status) && !Terminal(r.status)
    ensures Ends(s, a, j) && n.terminalAt == Some(a.now) && (n.status.Delivered? ==> n.deliveredAt == Some(a.now))
  {
  }

  // A job becomes final only in the transaction that ends its claim, and the times
  // recorded are the reading of that transaction.
  lemma FinalTime(cfg: Config, s: State, a: Action, j: JobId)
    requires WellKeyed(s) && j in s.history
    requires !Terminal(Rows(s)[j].status) && Terminal(Rows(Apply(cfg, s, a))[j].status)
    ensures Ends(s, a, j)
    ensures var n := Rows(Apply(cfg, s, a))[j];
            n.terminalAt == Some(a.now) && (n.status.Delivered? ==> n.deliveredAt == Some(a.now))
  {
    StepFrame(cfg, s, a, j);
    if j in s.jobs {
      assert Rows(s)[j] == s.jobs[j];
      FinalTimeEffect(cfg, s, a, j, s.jobs[j], Rows(Apply(cfg, s, a))[j]);
    }
  }

  // What the end of a claim makes of its row, as the outcome of the send demands.
  predicate IsSettled(p: Phase, before: Job, after: Job, now: Time) {
    if p.Unreadable? then
      IsEnded(before, after, "Queued delivery snapshot could not be decrypted or validated.", false, now)
    else
      && p.Finalising?
      && match p.outcome
         case Accepted => IsDelivered(before, after, now)
         case Temporary(error) => IsEnded(before, after, error, true, now)
         case Permanent(error) => IsEnded(before, after, error, false, now)
  }

  lemma FinalRowSettles(p: Phase, row: Job, now: Time)
    requires p.Unreadable? || p.Finalising?
    ensures IsSettled(p, row, FinalRow(p, row, now), now)
  {
  }

  // The transaction that ends a claim settles the row, column by column.
  lemma EndsExactly(cfg: Config, s: State, a: Action, j: JobId)
    requires WellKeyed(s) && Ends(s, a, j)
    ensures j in s.jobs && j in Apply(cfg, s, a).jobs
    ensures IsSettled(PhaseOf(s, a.worker), s.jobs[j], Apply(cfg, s, a).jobs[j], a.now)
  {
    FinaliseRows(s, a.worker, a.now, j);
    FinalRowSettles(PhaseOf(s, a.worker), s.jobs[j], a.now);
    assert Apply(cfg, s, a) == ApplyFinalise(s, a.worker, a.now);
    assert Rows(Apply(cfg, s, a))[j] == Apply(cfg, s, a).jobs[j];
  }
}
