/**
 Retention goes unnoticed: take every cleanup statement out of a run, and every
 worker, rate-limit check and session lookup sees exactly what it saw before.
 */
module CleanupTransparency {
  import opened Common
  import opened JobRows
  import opened Snapshots
  import opened Database
  import opened RateLimit
  import opened Retention
  import opened Protocol
  import opened ProtocolInvariant
  import opened SharedSystem

  // ---- the queue ----

  // s went through cleanups that full did not: full still has the rows s lost,
  // and those had all ended.
  ghost predicate QueueTrimmed(s: State, full: State) {
    && s.clock == full.clock && s.nextId == full.nextId
    && s.workers == full.workers && s.history == full.history
    && full.jobs == Rows(s) && full.purged == map[] && s.jobs.Keys !! s.purged.Keys
    && (forall j :: j in s.purged ==> Terminal(s.purged[j].status))
  }

  ghost predicate EndedRowsOnly(s: State) {
    forall j :: j in s.jobs && s.jobs[j].terminalAt.Some? ==> Terminal(s.jobs[j].status)
  }

  lemma InvEndedRows(cfg: Config, s: State)
    requires Inv(cfg, s)
    ensures EndedRowsOnly(s)
  {
    forall j | j in s.jobs && s.jobs[j].terminalAt.Some?
      ensures Terminal(s.jobs[j].status)
    {
      assert JobInv(cfg, s, j);
    }
  }

  lemma CleanupTrims(cfg: Config, s: State, full: State, now: Time)
    requires WellKeyed(s) && QueueTrimmed(s, full) && EndedRowsOnly(s)
    ensures QueueTrimmed(ApplyCleanup(cfg, s, now), full)
  {
    CleanupRows(cfg, s, now);
  }

  // Guards and eligibility look at rows that have not ended, so they agree.
  lemma SameGuard(s: State, full: State, w: WorkerId, j: JobId)
    requires QueueTrimmed(s, full)
    ensures GuardHolds(s, w, j) <==> GuardHolds(full, w, j)
    ensures GuardHolds(s, w, j) ==> s.jobs[j] == full.jobs[j]
  {
    assert j in s.purged ==> full.jobs[j] == s.purged[j];
  }

  lemma SameChoice(s: State, full: State, now: Time, timeout: int, skipped: set<JobId>, id: JobId)
    requires QueueTrimmed(s, full)
    ensures IsChoice(s.jobs, now, timeout, skipped, id) <==> IsChoice(full.jobs, now, timeout, skipped, id)
    ensures IsChoice(s.jobs, now, timeout, skipped, id) ==> s.jobs[id] == full.jobs[id]
  {
    assert forall k :: k in s.jobs ==> k in full.jobs && full.jobs[k] == s.jobs[k];
    assert forall k :: k in full.jobs && k !in s.jobs ==> Terminal(full.jobs[k].status);
  }

  lemma NewRowTrimmed(s: State, full: State, id: JobId, row: Job, log: LogRow, h: History)
    requires QueueTrimmed(s, full) && id !in s.purged
    ensures QueueTrimmed(
              s.(jobs := s.jobs[id := row], logs := s.logs[id := log], history := s.history[id := h]),
              full.(jobs := full.jobs[id := row], logs := full.logs[id := log], history := full.history[id := h]))
  {
    assert s.jobs[id := row] + s.purged == Rows(s)[id := row];
  }

  lemma EnqueueTrimmed(cfg: Config, s: State, full: State, id: JobId, snapshot: Snapshot, now: Time)
    requires WellKeyed(s) && WellKeyed(full) && QueueTrimmed(s, full)
    ensures QueueTrimmed(ApplyEnqueue(cfg, s, id, snapshot, now), ApplyEnqueue(cfg, full, id, snapshot, now))
  {
    if Accepts(cfg, s, id, snapshot, now) {
      NewRowTrimmed(s, full, id, NewJob(cfg.codec.encode(snapshot), cfg.maxAttempts, now), LogRow(true, Queued, now),
                    NewHistory(snapshot, now));
    }
  }

  // A step of one worker on one job, with the row it writes.
  lemma UpdateTrimmed(s: State, full: State, w: WorkerId, p: Phase, j: JobId, row: Job, h: History)
    requires QueueTrimmed(s, full) && j in Rows(s)
    requires j in s.purged ==> row == s.purged[j]
    ensures QueueTrimmed(Update(s, w, p, j, row, h), Update(full, w, p, j, row, h))
  {
    var t, u := Update(s, w, p, j, row, h), Update(full, w, p, j, row, h);
    assert Rows(t) == u.jobs;
  }

  lemma RefreshTrimmed(s: State, full: State, w: WorkerId, now: Time, lost: bool)
    requires QueueTrimmed(s, full) && Beating(PhaseOf(s, w)) && GuardHolds(s, w, PhaseOf(s, w).job)
    ensures PhaseOf(s, w).job in full.jobs
    ensures QueueTrimmed(AfterRefresh(s, w, now, lost), AfterRefresh(full, w, now, lost))
  {
    var j := PhaseOf(s, w).job;
    SameGuard(s, full, w, j);
    assert Rows(AfterRefresh(s, w, now, lost)) == Rows(s)[j := Refreshed(s.jobs[j], now)];
  }

  lemma PhaseTrimmed(s: State, full: State, w: WorkerId, p: Phase)
    requires QueueTrimmed(s, full)
    ensures QueueTrimmed(s.(workers := s.workers[w := p]), full.(workers := full.workers[w := p]))
  {
    assert Rows(s.(workers := s.workers[w := p])) == Rows(s);
  }

  lemma SameClaim(cfg: Config, s: State, full: State, w: WorkerId, id: JobId, now: Time, skipped: set<JobId>)
    requires QueueTrimmed(s, full)
    ensures ClaimFires(cfg, s, w, id, now, skipped) <==> ClaimFires(cfg, full, w, id, now, skipped)
    ensures ClaimFires(cfg, s, w, id, now, skipped) ==> id in s.jobs && s.jobs[id] == full.jobs[id]
  {
    SameChoice(s, full, now, cfg.lockTimeout, skipped, id);
  }

  lemma ClaimIsUpdate(cfg: Config, s: State, w: WorkerId, id: JobId, now: Time, skipped: set<JobId>)
    requires WellKeyed(s)
    ensures ApplyClaim(cfg, s, w, id, now, skipped) ==
            if ClaimFires(cfg, s, w, id, now, skipped) then
              var row := s.jobs[id];
              Update(s, w, Claimed(id, row.attempts + 1, row.payload, now), id, ClaimedBy(row, w, now),
                     AfterClaim(s.history[id], w, row))
            else s
  {
  }

  lemma ClaimTrimmed(cfg: Config, s: State, full: State, w: WorkerId, id: JobId, now: Time, skipped: set<JobId>)
    requires WellKeyed(s) && WellKeyed(full) && QueueTrimmed(s, full)
    ensures QueueTrimmed(ApplyClaim(cfg, s, w, id, now, skipped), ApplyClaim(cfg, full, w, id, now, skipped))
  {
    SameClaim(cfg, s, full, w, id, now, skipped);
    ClaimIsUpdate(cfg, s, w, id, now, skipped);
    ClaimIsUpdate(cfg, full, w, id, now, skipped);
    if ClaimFires(cfg, s, w, id, now, skipped) {
      var row, h := s.jobs[id], s.history[id];
      assert id !in s.purged;
      UpdateTrimmed(s, full, w, Claimed(id, row.attempts + 1, row.payload, now), id, ClaimedBy(row, w, now),
                    AfterClaim(h, w, row));
    }
  }

  lemma DecodeTrimmed(cfg: Config, s: State, full: State, w: WorkerId, readable: bool)
    requires WellKeyed(s) && WellKeyed(full) && QueueTrimmed(s, full)
    ensures QueueTrimmed(ApplyDecode(cfg, s, w, readable), ApplyDecode(cfg, full, w, readable))
  {
    var p := PhaseOf(s, w);
    if p.Claimed? {
      var j, h := p.job, s.history[p.job];
      var read := cfg.codec.decode(p.payload);
      assert Rows(full)[j] == Rows(s)[j];
      if readable && read.Ok? {
        UpdateTrimmed(s, full, w, Sending(j, p.claim, read.value, false, p.read), j, Rows(s)[j],
                      h.(sends := h.sends[p.claim := read.value]));
      } else {
        PhaseTrimmed(s, full, w, Unreadable(j, p.claim, p.read));
      }
    }
  }

  lemma HeartbeatTrimmed(s: State, full: State, w: WorkerId, now: Time)
    requires WellKeyed(s) && WellKeyed(full) && QueueTrimmed(s, full)
    ensures QueueTrimmed(ApplyHeartbeat(s, w, now), ApplyHeartbeat(full, w, now))
  {
    var p := PhaseOf(s, w);
    if Beating(p) {
      SameGuard(s, full, w, p.job);
      if !GuardHolds(s, w, p.job) {
        PhaseTrimmed(s, full, w, p.(lost := true));
      } else if Reads(p, s.clock, now) {
        RefreshTrimmed(s, full, w, now, false);
      }
    }
  }

  lemma HeartbeatErrorTrimmed(s: State, full: State, w: WorkerId, committed: bool, now: Time)
    requires WellKeyed(s) && WellKeyed(full) && QueueTrimmed(s, full)
    ensures QueueTrimmed(ApplyHeartbeatError(s, w, committed, now), ApplyHeartbeatError(full, w, committed, now))
  {
    var p := PhaseOf(s, w);
    if Beating(p) {
      SameGuard(s, full, w, p.job);
      if committed && GuardHolds(s, w, p.job) && Reads(p, s.clock, now) {
        RefreshTrimmed(s, full, w, now, true);
      } else {
        PhaseTrimmed(s, full, w, p.(lost := true));
      }
    }
  }

  lemma SendReturnsTrimmed(s: State, full: State, w: WorkerId, outcome: Outcome)
    requires WellKeyed(s) && WellKeyed(full) && QueueTrimmed(s, full)
    ensures QueueTrimmed(ApplySendReturns(s, w, outcome), ApplySendReturns(full, w, outcome))
  {
    var p := PhaseOf(s, w);
    if p.Sending? {
      assert Rows(full)[p.job] == Rows(s)[p.job];
      UpdateTrimmed(s, full, w, Returned(p.job, p.claim, outcome, p.lost, p.read), p.job, Rows(s)[p.job],
                    AfterReturn(s.history[p.job], p.claim, outcome));
    }
  }

  lemma JoinTrimmed(s: State, full: State, w: WorkerId)
    requires WellKeyed(s) && WellKeyed(full) && QueueTrimmed(s, full)
    ensures QueueTrimmed(ApplyJoin(s, w), ApplyJoin(full, w))
  {
    var p := PhaseOf(s, w);
    if p.Returned? {
      PhaseTrimmed(s, full, w, if p.lost then Idle else Finalising(p.job, p.claim, p.outcome, p.read));
    }
  }

  lemma FinaliseTrimmed(s: State, full: State, w: WorkerId, now: Time)
    requires WellKeyed(s) && WellKeyed(full) && QueueTrimmed(s, full)
    ensures QueueTrimmed(ApplyFinalise(s, w, now), ApplyFinalise(full, w, now))
  {
    var p := PhaseOf(s, w);
    if p.Unreadable? || p.Finalising? {
      SameGuard(s, full, w, p.job);
      if !GuardHolds(s, w, p.job) {
        PhaseTrimmed(s, full, w, Idle);
      } else if Reads(p, s.clock, now) {
        var row := FinalRow(p, s.jobs[p.job], now);
        UpdateTrimmed(s, full, w, Logging(p.job, p.claim, row.status), p.job, row,
                      AfterFinal(s.history[p.job], p.claim, row));
      }
    }
  }

  lemma WriteLogTrimmed(s: State, full: State, w: WorkerId)
    requires WellKeyed(s) && WellKeyed(full) && QueueTrimmed(s, full)
    ensures QueueTrimmed(ApplyWriteLog(s, w), ApplyWriteLog(full, w))
  {
    var p := PhaseOf(s, w);
    if p.Logging? {
      assert Rows(full)[p.job] == Rows(s)[p.job];
      var h := AfterLog(s.history[p.job], p.status);
      UpdateTrimmed(s, full, w, Idle, p.job, Rows(s)[p.job], h);
      var t := Update(s, w, Idle, p.job, Rows(s)[p.job], h);
      assert Rows(ApplyWriteLog(s, w)) == Rows(t);
    }
  }

  lemma CrashTrimmed(s: State, full: State, w: WorkerId)
    requires WellKeyed(s) && WellKeyed(full) && QueueTrimmed(s, full)
    ensures QueueTrimmed(ApplyCrash(s, w), ApplyCrash(full, w))
  {
    if !PhaseOf(s, w).Crashed? {
      PhaseTrimmed(s, full, w, Crashed(PhaseOf(s, w)));
    }
  }

  lemma DecodeActionTrimmed(cfg: Config, s: State, full: State, w: WorkerId, readable: bool)
    requires WellKeyed(s) && WellKeyed(full) && QueueTrimmed(s, full)
    ensures QueueTrimmed(Apply(cfg, s, Decode(w, readable)), Apply(cfg, full, Decode(w, readable)))
  {
    DecodeTrimmed(cfg, s, full, w, readable);
  }

  lemma HeartbeatActionTrimmed(cfg: Config, s: State, full: State, w: WorkerId, now: Time)
    requires WellKeyed(s) && WellKeyed(full) && QueueTrimmed(s, full)
    ensures QueueTrimmed(Apply(cfg, s, Heartbeat(w, now)), Apply(cfg, full, Heartbeat(w, now)))
  {
    HeartbeatTrimmed(s, full, w, now);
  }

  lemma ErrorActionTrimmed(cfg: Config, s: State, full: State, w: WorkerId, committed: bool, now: Time)
    requires WellKeyed(s) && WellKeyed(full) && QueueTrimmed(s, full)
    ensures QueueTrimmed(Apply(cfg, s, HeartbeatError(w, committed, now)),
                         Apply(cfg, full, HeartbeatError(w, committed, now)))
  {
    HeartbeatErrorTrimmed(s, full, w, committed, now);
  }

  lemma ReturnActionTrimmed(cfg: Config, s: State, full: State, w: WorkerId, outcome: Outcome)
    requires WellKeyed(s) && WellKeyed(full) && QueueTrimmed(s, full)
    ensures QueueTrimmed(Apply(cfg, s, SendReturns(w, outcome)), Apply(cfg, full, SendReturns(w, outcome)))
  {
    SendReturnsTrimmed(s, full, w, outcome);
  }

  lemma SendTrimmed(cfg: Config, s: State, full: State, a: Action)
    requires WellKeyed(s) && WellKeyed(full) && QueueTrimmed(s, full)
    requires a.Decode? || a.Heartbeat? || a.HeartbeatError? || a.SendReturns?
    ensures QueueTrimmed(Apply(cfg, s, a), Apply(cfg, full, a))
  {
    match a
    case Decode(w, readable) => DecodeActionTrimmed(cfg, s, full, w, readable);
    case Heartbeat(w, now) => HeartbeatActionTrimmed(cfg, s, full, w, now);
    case HeartbeatError(w, committed, now) => ErrorActionTrimmed(cfg, s, full, w, committed, now);
    case SendReturns(w, outcome) => ReturnActionTrimmed(cfg, s, full, w, outcome);
  }

  lemma JoinActionTrimmed(cfg: Config, s: State, full: State, w: WorkerId)
    requires WellKeyed(s) && WellKeyed(full) && QueueTrimmed(s, full)
    ensures QueueTrimmed(Apply(cfg, s, JoinHeartbeat(w)), Apply(cfg, full, JoinHeartbeat(w)))
  {
    JoinTrimmed(s, full, w);
  }

  lemma FinaliseActionTrimmed(cfg: Config, s: State, full: State, w: WorkerId, now: Time)
    requires WellKeyed(s) && WellKeyed(full) && QueueTrimmed(s, full)
    ensures QueueTrimmed(Apply(cfg, s, Finalise(w, now)), Apply(cfg, full, Finalise(w, now)))
  {
    FinaliseTrimmed(s, full, w, now);
  }

  lemma WriteLogActionTrimmed(cfg: Config, s: State, full: State, w: WorkerId)
    requires WellKeyed(s) && WellKeyed(full) && QueueTrimmed(s, full)
    ensures QueueTrimmed(Apply(cfg, s, WriteLog(w)), Apply(cfg, full, WriteLog(w)))
  {
    WriteLogTrimmed(s, full, w);
  }

  lemma CrashActionTrimmed(cfg: Config, s: State, full: State, w: WorkerId)
    requires WellKeyed(s) && WellKeyed(full) && QueueTrimmed(s, full)
    ensures QueueTrimmed(Apply(cfg, s, Crash(w)), Apply(cfg, full, Crash(w)))
  {
    CrashTrimmed(s, full, w);
  }

  lemma EndTrimmed(cfg: Config, s: State, full: State, a: Action)
    requires WellKeyed(s) && WellKeyed(full) && QueueTrimmed(s, full)
    requires a.JoinHeartbeat? || a.Finalise? || a.WriteLog? || a.Crash?
    ensures QueueTrimmed(Apply(cfg, s, a), Apply(cfg, full, a))
  {
    match a
    case JoinHeartbeat(w) => JoinActionTrimmed(cfg, s, full, w);
    case Finalise(w, now) => FinaliseActionTrimmed(cfg, s, full, w, now);
    case WriteLog(w) => WriteLogActionTrimmed(cfg, s, full, w);
    case Crash(w) => CrashActionTrimmed(cfg, s, full, w);
  }

  lemma DrawTrimmed(s: State, full: State)
    requires QueueTrimmed(s, full)
    ensures QueueTrimmed(s.(nextId := s.nextId + 1), full.(nextId := full.nextId + 1))
  {
    assert Rows(s.(nextId := s.nextId + 1)) == Rows(s);
  }

  lemma TickTrimmed(s: State, full: State, elapsed: nat)
    requires QueueTrimmed(s, full)
    ensures QueueTrimmed(s.(clock := s.clock + elapsed), full.(clock := full.clock + elapsed))
  {
    assert Rows(s.(clock := s.clock + elapsed)) == Rows(s);
  }

  // Every action of the queue other than a cleanup does the same to both.
  lemma QueueStepTrimmed(cfg: Config, s: State, full: State, a: Action)
    requires WellKeyed(s) && WellKeyed(full) && QueueTrimmed(s, full) && !a.Cleanup?
    ensures QueueTrimmed(Apply(cfg, s, a), Apply(cfg, full, a))
  {
    match a
    case Tick(elapsed) => TickTrimmed(s, full, elapsed);
    case Draw => DrawTrimmed(s, full);
    case Enqueue(id, snapshot, now) => EnqueueTrimmed(cfg, s, full, id, snapshot, now);
    case Claim(w, id, now, skipped) => ClaimTrimmed(cfg, s, full, w, id, now, skipped);
    case _ =>
      if a.JoinHeartbeat? || a.Finalise? || a.WriteLog? || a.Crash? {
        EndTrimmed(cfg, s, full, a);
      } else {
        SendTrimmed(cfg, s, full, a);
      }
  }

  // ---- buckets and sessions ----

  // A bucket lives as long as the window its scope keeps.
  ghost predicate WindowSized(p: Policy, buckets: map<Key, Bucket>) {
    forall k :: k in buckets ==> buckets[k].expiresAt == k.start + p.windowOf(k.scope) * SECOND
  }

  ghost predicate BucketsTrimmed(p: Policy, clock: Time, some: map<Key, Bucket>, all: map<Key, Bucket>) {
    && (forall k :: k in some ==> k in all && some[k] == all[k])
    && (forall k :: k in all && k !in some ==> all[k].expiresAt < clock - p.bucketRetention)
    && WindowSized(p, all)
  }

  ghost predicate SessionsTrimmed(p: Policy, clock: Time, s: System, full: System) {
    && s.drawn == full.drawn && full.sessions.Keys <= full.drawn
    && (forall k :: k in s.sessions ==> k in full.sessions && s.sessions[k] == full.sessions[k])
    && (forall k :: k in full.sessions && k !in s.sessions ==> full.sessions[k].expiresAt < clock - p.sessionRetention)
  }

  ghost predicate Trimmed(p: Policy, s: System, full: System) {
    && WellKeyed(s.queue) && WellKeyed(full.queue) && QueueTrimmed(s.queue, full.queue)
    && BucketsTrimmed(p, s.queue.clock, s.buckets, full.buckets)
    && SessionsTrimmed(p, s.queue.clock, s, full)
  }

  // No request is so late that a row it still counts on may be gone.
  predicate Tolerates(p: Policy, lag: nat) {
    lag <= p.bucketRetention + 1 && lag <= p.sessionRetention + 1
  }

  // The bucket a recent check asks for was not deleted.
  lemma SameCount(p: Policy, clock: Time, lag: nat, some: map<Key, Bucket>, all: map<Key, Bucket>, c: Check)
    requires BucketsTrimmed(p, clock, some, all) && lag <= p.bucketRetention + 1
             && TimelyAction(p, clock, lag, Limit(c))
    ensures CountIn(some, KeyOf(c)) == CountIn(all, KeyOf(c))
  {
    WindowContains(c.now, c.seconds);
    assert KeyOf(c) in all ==> all[KeyOf(c)].expiresAt == WindowEnd(c.now, c.seconds);
  }

  lemma LimitTrimmed(p: Policy, clock: Time, lag: nat, some: map<Key, Bucket>, all: map<Key, Bucket>, c: Check)
    requires BucketsTrimmed(p, clock, some, all) && lag <= p.bucketRetention + 1
             && TimelyAction(p, clock, lag, Limit(c))
    ensures BucketsTrimmed(p, clock, Upsert(some, c), Upsert(all, c)) && Decide(some, c) == Decide(all, c)
  {
    SameCount(p, clock, lag, some, all, c);
  }

  lemma LookupTrimmed(p: Policy, lag: nat, s: System, full: System, token: string, now: Time)
    requires SessionsTrimmed(p, s.queue.clock, s, full) && Tolerates(p, lag) && Recent(s.queue.clock, lag, now)
    ensures FindSession(s.sessions, token, now) == FindSession(full.sessions, token, now)
  {
  }

  lemma LaterTrimmed(p: Policy, s: System, full: System, later: Time)
    requires BucketsTrimmed(p, s.queue.clock, s.buckets, full.buckets) && SessionsTrimmed(p, s.queue.clock, s, full)
    requires s.queue.clock <= later
    ensures BucketsTrimmed(p, later, s.buckets, full.buckets) && SessionsTrimmed(p, later, s, full)
  {
  }

  // ---- whole runs ----

  lemma QueueActionTrimmed(p: Policy, s: System, full: System, a: Action)
    requires Trimmed(p, s, full) && !a.Cleanup?
    ensures Trimmed(p, Step(p, s, Queue(a)), Step(p, full, Queue(a)))
    ensures Observe(p, s, Queue(a)) == Observe(p, full, Queue(a))
  {
    QueueStepTrimmed(p.queue, s.queue, full.queue, a);
    LaterTrimmed(p, s, full, Apply(p.queue, s.queue, a).clock);
  }

  lemma LoginTrimmed(p: Policy, clock: Time, s: System, full: System, token: string, user: int, now: Time)
    requires SessionsTrimmed(p, clock, s, full)
    ensures SessionsTrimmed(p, clock, ApplyLogin(p, s, token, user, now), ApplyLogin(p, full, token, user, now))
  {
  }

  lemma LogoutTrimmed(p: Policy, clock: Time, s: System, full: System, token: string)
    requires SessionsTrimmed(p, clock, s, full)
    ensures SessionsTrimmed(p, clock, s.(sessions := s.sessions - {token}), full.(sessions := full.sessions - {token}))
  {
  }

  lemma RevokeTrimmed(p: Policy, s: System, full: System, user: int)
    requires WellKeyed(s.queue) && WellKeyed(full.queue) && SessionsTrimmed(p, s.queue.clock, s, full)
    ensures SessionsTrimmed(p, s.queue.clock, Step(p, s, Revoke(user)), Step(p, full, Revoke(user)))
  {
  }

  lemma RequestTrimmed(p: Policy, s: System, full: System, lag: nat, a: SystemAction)
    requires WellKeyed(s.queue) && WellKeyed(full.queue) && !a.Queue? && !IsCleanup(a)
    requires BucketsTrimmed(p, s.queue.clock, s.buckets, full.buckets) && SessionsTrimmed(p, s.queue.clock, s, full)
    requires s.queue.clock == full.queue.clock && Tolerates(p, lag) && TimelyAction(p, s.queue.clock, lag, a)
    ensures var t, u := Step(p, s, a), Step(p, full, a);
            && t.queue == s.queue && u.queue == full.queue
            && BucketsTrimmed(p, s.queue.clock, t.buckets, u.buckets) && SessionsTrimmed(p, s.queue.clock, t, u)
            && Observe(p, s, a) == Observe(p, full, a)
  {
    match a
    case Limit(check) => LimitTrimmed(p, s.queue.clock, lag, s.buckets, full.buckets, check);
    case Login(token, user, now) => LoginTrimmed(p, s.queue.clock, s, full, token, user, now);
    case Lookup(token, now) => LookupTrimmed(p, lag, s, full, token, now);
    case Logout(token) => LogoutTrimmed(p, s.queue.clock, s, full, token);
    case Revoke(user) => RevokeTrimmed(p, s, full, user);
  }

  lemma StepTrimmed(p: Policy, s: System, full: System, lag: nat, a: SystemAction)
    requires Trimmed(p, s, full) && Tolerates(p, lag) && TimelyAction(p, s.queue.clock, lag, a) && !IsCleanup(a)
    ensures Trimmed(p, Step(p, s, a), Step(p, full, a)) && Observe(p, s, a) == Observe(p, full, a)
  {
    if a.Queue? {
      QueueActionTrimmed(p, s, full, a.action);
    } else {
      RequestTrimmed(p, s, full, lag, a);
    }
  }

  lemma CleanupStepTrimmed(p: Policy, s: System, full: System, lag: nat, a: SystemAction)
    requires Trimmed(p, s, full) && EndedRowsOnly(s.queue) && TimelyAction(p, s.queue.clock, lag, a) && IsCleanup(a)
    ensures Trimmed(p, Step(p, s, a), full)
  {
    if a.Queue? {
      CleanupTrims(p.queue, s.queue, full.queue, a.action.now);
    }
  }

  lemma SystemInv(p: Policy, s: System, a: SystemAction)
    requires Inv(p.queue, s.queue) && Reversible(p.queue.codec) && (a.Limit? ==> a.check.seconds >= 1)
    ensures Inv(p.queue, Step(p, s, a).queue)
  {
    if a.Queue? {
      StepInv(p.queue, s.queue, a.action);
    }
  }

  // Erasing every cleanup leaves all observations as they were.
  lemma {:induction false} ErasingCleanup(p: Policy, s: System, full: System, lag: nat, actions: seq<SystemAction>)
    requires Trimmed(p, s, full) && Inv(p.queue, s.queue) && Reversible(p.queue.codec)
    requires Tolerates(p, lag) && Timely(p, s.queue.clock, lag, actions)
    ensures Timely(p, full.queue.clock, lag, Erase(actions))
    ensures Observations(p, s, lag, actions) == Observations(p, full, lag, Erase(actions))
    decreases |actions|
  {
    ErasedTimely(p, s.queue.clock, lag, actions);
    if actions != [] {
      var a, rest := actions[0], actions[1..];
      var t := Step(p, s, a);
      StepClock(p, s, a);
      SystemInv(p, s, a);
      if IsCleanup(a) {
        InvEndedRows(p.queue, s.queue);
        CleanupStepTrimmed(p, s, full, lag, a);
        ErasingCleanup(p, t, full, lag, rest);
        assert Erase(actions) == Erase(rest);
      } else {
        StepTrimmed(p, s, full, lag, a);
        StepClock(p, full, a);
        ErasingCleanup(p, t, Step(p, full, a), lag, rest);
        assert Erase(actions)[0] == a && Erase(actions)[1..] == Erase(rest);
      }
    }
  }

  // ---- exactly when ----

  ghost predicate SameObservations(p: Policy, start: Time, lag: nat, actions: seq<SystemAction>)
    requires Timely(p, start, lag, actions)
  {
    ErasedTimely(p, start, lag, actions);
    Observations(p, Start(start), lag, actions) == Observations(p, Start(start), lag, Erase(actions))
  }

  // No run with requests at most lag late tells whether cleanups took place.
  ghost predicate Transparent(p: Policy, lag: nat) {
    forall start: Time, actions: seq<SystemAction> ::
      Timely(p, start, lag, actions) ==> SameObservations(p, start, lag, actions)
  }

  lemma EraseThird(a: SystemAction, b: SystemAction, c: SystemAction, d: SystemAction)
    requires !IsCleanup(a) && !IsCleanup(b) && IsCleanup(c) && !IsCleanup(d)
    ensures Erase([a, b, c, d]) == [a, b, d]
  {
    assert [a, b, c, d][1..] == [b, c, d] && [b, c, d][1..] == [c, d] && [c, d][1..] == [d];
    assert Erase([d]) == [d];
    assert Erase([c, d]) == [d];
  }

  // The first step of a run of at least one action, seen and unseen.
  lemma FirstObservation(p: Policy, s: System, lag: nat, actions: seq<SystemAction>)
    requires WellKeyed(s.queue) && Timely(p, s.queue.clock, lag, actions) && actions != []
    ensures var t := Step(p, s, actions[0]);
            && Timely(p, t.queue.clock, lag, actions[1..])
            && Observations(p, s, lag, actions) ==
               (if IsCleanup(actions[0]) then [] else [Observe(p, s, actions[0])])
                 + Observations(p, t, lag, actions[1..])
  {
    StepClock(p, s, actions[0]);
  }

  lemma SeenAfterCleanup(p: Policy, s: System, lag: nat, a: SystemAction, b: SystemAction, c: SystemAction,
                         d: SystemAction)
    requires WellKeyed(s.queue) && Timely(p, s.queue.clock, lag, [a, b, c, d])
    requires !IsCleanup(a) && !IsCleanup(b) && IsCleanup(c) && !IsCleanup(d)
    requires forall x :: x in {a, b, c, d} && x.Limit? ==> x.check.seconds >= 1
    ensures var seen := Observations(p, s, lag, [a, b, c, d]);
            |seen| == 3 && seen[2] == Observe(p, Step(p, Step(p, Step(p, s, a), b), c), d)
  {
    FirstObservation(p, s, lag, [a, b, c, d]);
    FirstObservation(p, Step(p, s, a), lag, [b, c, d]);
    FirstObservation(p, Step(p, Step(p, s, a), b), lag, [c, d]);
    FirstObservation(p, Step(p, Step(p, Step(p, s, a), b), c), lag, [d]);
  }

  lemma SeenWithoutCleanup(p: Policy, s: System, lag: nat, a: SystemAction, b: SystemAction, c: SystemAction)
    requires WellKeyed(s.queue) && Timely(p, s.queue.clock, lag, [a, b, c])
    requires !IsCleanup(a) && !IsCleanup(b) && !IsCleanup(c)
    requires forall x :: x in {a, b, c} && x.Limit? ==> x.check.seconds >= 1
    ensures var seen := Observations(p, s, lag, [a, b, c]);
            |seen| == 3 && seen[2] == Observe(p, Step(p, Step(p, s, a), b), c)
  {
    FirstObservation(p, s, lag, [a, b, c]);
    FirstObservation(p, Step(p, s, a), lag, [b, c]);
    FirstObservation(p, Step(p, Step(p, s, a), b), lag, [c]);
  }

  lemma LateTimely(p: Policy, start: Time, lag: nat, a: SystemAction, wait: nat, purge: SystemAction, b: SystemAction)
    requires !a.Queue? && !purge.Queue?
    requires TimelyAction(p, start, lag, a) && TimelyAction(p, start + wait, lag, purge)
             && TimelyAction(p, start + wait, lag, b)
    ensures Timely(p, start, lag, [a, Queue(Tick(wait)), purge, b])
  {
    assert Timely(p, start + wait, lag, [b]);
    assert [purge, b][1..] == [b];
    assert Timely(p, start + wait, lag, [purge, b]);
    assert [Queue(Tick(wait)), purge, b][1..] == [purge, b];
    assert Timely(p, start, lag, [Queue(Tick(wait)), purge, b]);
    assert [a, Queue(Tick(wait)), purge, b][1..] == [Queue(Tick(wait)), purge, b];
  }

  // An action, a wait, a cleanup and an action that then sees something else.
  lemma LateRequest(p: Policy, start: Time, lag: nat, a: SystemAction, wait: nat, purge: SystemAction, b: SystemAction)
    requires !IsCleanup(a) && !a.Queue? && !IsCleanup(b) && IsCleanup(purge) && !purge.Queue?
    requires TimelyAction(p, start, lag, a) && TimelyAction(p, start + wait, lag, purge)
             && TimelyAction(p, start + wait, lag, b)
    requires var s := Step(p, Step(p, Start(start), a), Queue(Tick(wait)));
             Observe(p, Step(p, s, purge), b) != Observe(p, s, b)
    ensures !Transparent(p, lag)
  {
    var tick := Queue(Tick(wait));
    var actions := [a, tick, purge, b];
    LateTimely(p, start, lag, a, wait, purge, b);
    SeenAfterCleanup(p, Start(start), lag, a, tick, purge, b);
    EraseThird(a, tick, purge, b);
    ErasedTimely(p, start, lag, actions);
    SeenWithoutCleanup(p, Start(start), lag, a, tick, b);
    assert !SameObservations(p, start, lag, actions);
  }

  // A check in the last instant of its window passes; repeated after the bucket
  // has been cleaned up, it passes again although the limit is 1.
  lemma LateCheck(p: Policy, lag: nat, scope: string, subject: string)
    requires lag > p.bucketRetention + 1 && p.windowOf(scope) >= 1
    ensures !Transparent(p, lag)
  {
    var seconds := p.windowOf(scope);
    var now := seconds * SECOND - 1;
    var c := Check(scope, subject, 1, seconds, now);
    WindowOfIndex(now, seconds, 0);
    assert WindowEnd(now, seconds) == now + 1;
    var s := Step(p, Step(p, Start(now), Limit(c)), Queue(Tick(lag)));
    assert s.buckets == map[KeyOf(c) := Bucket(1, now + 1)];
    assert KeyOf(c) !in Step(p, s, PurgeBuckets(now + lag)).buckets;
    LateRequest(p, now, lag, Limit(c), lag, PurgeBuckets(now + lag), Limit(c));
  }

  // A lookup in the last instant of its session misses the session that was cleaned up.
  lemma LateLookup(p: Policy, lag: nat)
    requires lag > p.sessionRetention + 1 && p.sessionLifetime >= 1
    ensures !Transparent(p, lag)
  {
    var now := p.sessionLifetime - 1;
    var s := Step(p, Step(p, Start(0), Login("", 1, 0)), Queue(Tick(now + lag)));
    assert s.sessions == map["" := SessionRow(1, now + 1)];
    assert "" !in Step(p, s, PurgeSessions(now + lag)).sessions;
    LateRequest(p, 0, lag, Login("", 1, 0), now + lag, PurgeSessions(now + lag), Lookup("", now));
  }

  // Cleanup is transparent exactly when no request is more than a microsecond
  // later than the retention of buckets and of sessions.
  lemma TransparentExactly(p: Policy, lag: nat, scope: string)
    requires Reversible(p.queue.codec) && p.sessionLifetime >= 1 && p.windowOf(scope) >= 1
    ensures Transparent(p, lag) <==> Tolerates(p, lag)
  {
    if Tolerates(p, lag) {
      forall start: Time, actions: seq<SystemAction> | Timely(p, start, lag, actions)
        ensures SameObservations(p, start, lag, actions)
      {
        InitInv(p.queue, start);
        ErasingCleanup(p, Start(start), Start(start), lag, actions);
      }
    } else if lag > p.bucketRetention + 1 {
      LateCheck(p, lag, scope, "");
    } else {
      LateLookup(p, lag);
    }
  }

  // ---- the limiter in a whole run ----

  function ChecksOf(actions: seq<SystemAction>): seq<Check> {
    if actions == [] then []
    else (if actions[0].Limit? then [actions[0].check] else []) + ChecksOf(actions[1..])
  }

  // The requests of one subject that a run lets pass between two times.
  ghost function Granted(p: Policy, s: System, lag: nat, actions: seq<SystemAction>,
                         scope: string, subject: string, low: Time, high: Time): nat
    requires WellKeyed(s.queue) && Timely(p, s.queue.clock, lag, actions)
    decreases |actions|
  {
    if actions == [] then 0
    else
      var a := actions[0];
      StepClock(p, s, a);
      (if && a.Limit? && a.check.scope == scope && a.check.subject == subject && low <= a.check.now < high
          && Decide(s.buckets, a.check).allowed then 1 else 0)
        + Granted(p, Step(p, s, a), lag, actions[1..], scope, subject, low, high)
  }

  lemma {:induction false} ChecksWellTimed(p: Policy, clock: Time, lag: nat, actions: seq<SystemAction>)
    requires Timely(p, clock, lag, actions)
    ensures AllWellTimed(ChecksOf(actions))
    ensures forall i :: 0 <= i < |ChecksOf(actions)| ==>
              ChecksOf(actions)[i].seconds == p.windowOf(ChecksOf(actions)[i].scope)
    decreases |actions|
  {
    if actions != [] {
      ChecksWellTimed(p, ClockAfter(clock, actions[0]), lag, actions[1..]);
    }
  }

  lemma BucketsOnlyByChecks(p: Policy, s: System, a: SystemAction)
    requires WellKeyed(s.queue) && (a.Limit? ==> a.check.seconds >= 1)
    ensures Step(p, s, a).buckets ==
            if a.Limit? then Upsert(s.buckets, a.check)
            else if a.PurgeBuckets? then KeptBuckets(s.buckets, a.now, p.bucketRetention)
            else s.buckets
  {
  }

  lemma BucketStep(p: Policy, s: System, all: map<Key, Bucket>, lag: nat, a: SystemAction)
    requires WellKeyed(s.queue) && TimelyAction(p, s.queue.clock, lag, a) && lag <= p.bucketRetention + 1
    requires BucketsTrimmed(p, s.queue.clock, s.buckets, all)
    ensures var t := Step(p, s, a);
            BucketsTrimmed(p, t.queue.clock, t.buckets, if a.Limit? then Upsert(all, a.check) else all)
    ensures a.Limit? ==> Decide(s.buckets, a.check) == Decide(all, a.check)
  {
    StepClock(p, s, a);
    BucketsOnlyByChecks(p, s, a);
    if a.Limit? {
      LimitTrimmed(p, s.queue.clock, lag, s.buckets, all, a.check);
    }
  }

  // Whatever else happens, a run grants what its checks alone would be granted.
  lemma {:induction false} GrantedByChecks(p: Policy, s: System, all: map<Key, Bucket>, lag: nat,
                                           actions: seq<SystemAction>, scope: string, subject: string,
                                           low: Time, high: Time)
    requires WellKeyed(s.queue) && Timely(p, s.queue.clock, lag, actions) && lag <= p.bucketRetention + 1
    requires BucketsTrimmed(p, s.queue.clock, s.buckets, all)
    ensures AllWellTimed(ChecksOf(actions))
    ensures Granted(p, s, lag, actions, scope, subject, low, high) ==
            AllowedBetween(all, ChecksOf(actions), scope, subject, low, high)
    decreases |actions|
  {
    ChecksWellTimed(p, s.queue.clock, lag, actions);
    if actions != [] {
      var a, rest := actions[0], actions[1..];
      StepClock(p, s, a);
      BucketStep(p, s, all, lag, a);
      if a.Limit? {
        assert ChecksOf(actions)[1..] == ChecksOf(rest);
        GrantedByChecks(p, Step(p, s, a), Upsert(all, a.check), lag, rest, scope, subject, low, high);
      } else {
        assert ChecksOf(actions) == ChecksOf(rest);
        GrantedByChecks(p, Step(p, s, a), all, lag, rest, scope, subject, low, high);
      }
    }
  }

  // In any run of the system, cleanups included, any stretch of time as long as
  // n windows lets at most (n + 1) * limit requests of one subject pass.
  lemma RunIntervalBound(p: Policy, start: Time, lag: nat, actions: seq<SystemAction>,
                         scope: string, subject: string, limit: nat, low: Time, n: nat)
    requires Timely(p, start, lag, actions) && lag <= p.bucketRetention + 1 && low >= 0 && p.windowOf(scope) >= 1
    requires forall c :: c in ChecksOf(actions) && c.scope == scope && c.subject == subject ==> c.limit == limit
    ensures var high := low + n * p.windowOf(scope) * SECOND;
            Granted(p, Start(start), lag, actions, scope, subject, low, high) <= (n + 1) * limit
  {
    var checks, seconds := ChecksOf(actions), p.windowOf(scope);
    ChecksWellTimed(p, start, lag, actions);
    GrantedByChecks(p, Start(start), map[], lag, actions, scope, subject, low, low + n * seconds * SECOND);
    assert Uniform(checks, scope, subject, seconds, limit) by {
      forall i | 0 <= i < |checks| ensures From(checks[i], scope, subject, seconds, limit) {
        assert checks[i] in checks;
      }
    }
    IntervalBound(map[], checks, scope, subject, seconds, limit, low, n);
  }
}
