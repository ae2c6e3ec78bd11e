/** The inductive invariant of the delivery protocol, kept by every action of every run. */
module ProtocolInvariant {
  import opened Common
  import opened JobRows
  import opened Snapshots
  import opened Protocol

  // What a row of each status looks like: the payload lives exactly as long as
  // the job can still be sent, the lock fields exactly as long as it is processing.
  ghost predicate Lifecycle(cfg: Config, clock: Time, r: Job, h: History) {
    && (r.lastError.Some? ==> |r.lastError.value| <= MAX_ERROR_LENGTH)
    && (r.deliveredAt == if r.status.Delivered? then r.terminalAt else None)
    && match r.status
       case Queued =>
         r.payload == Some(cfg.codec.encode(h.accepted)) && r.lockedAt.None? && r.lockedBy.None? && r.terminalAt.None?
       case Processing =>
         && r.payload == Some(cfg.codec.encode(h.accepted)) && r.terminalAt.None?
         && r.lockedAt.Some? && r.availableAt <= r.lockedAt.value <= clock
         && h.claims != [] && r.lockedBy == Some(h.claims[|h.claims| - 1])
       case Delivered =>
         && r.payload.None? && r.lockedAt.None? && r.lockedBy.None? && r.lastError.None?
         && r.terminalAt.Some? && r.availableAt <= r.terminalAt.value <= clock
       case Failed =>
         && r.payload.None? && r.lockedAt.None? && r.lockedBy.None? && r.lastError.Some?
         && r.terminalAt.Some? && r.availableAt <= r.terminalAt.value <= clock
  }

  // The row and the history count the same claims, and every claim but the first
  // follows a requeue or takes over a stale lock.
  ghost predicate Accounting(r: Job, h: History) {
    && r.attempts == |h.claims|
    && r.attempts == |h.reclaims| + |h.requeues| + (if r.status.Queued? then 0 else 1)
    && (forall c :: c in h.reclaims ==> 2 <= c <= r.attempts)
    && (forall c :: c in h.sends ==> 1 <= c <= r.attempts && h.sends[c] == h.accepted)
    && (forall c :: c in h.requeues ==> c in h.sends && c < r.maxAttempts && c !in h.returned)
    && (forall c :: c in h.returned ==> c in h.sends)
    && (r.status.Delivered? ==> r.attempts in h.returned)
    && (r.status.Queued? && r.attempts > 0 ==> r.attempts < r.maxAttempts)
    && (forall c :: 2 <= c <= r.attempts && c !in h.reclaims ==> c <= r.maxAttempts)
  }

  ghost predicate RowInv(cfg: Config, clock: Time, r: Job, h: History) {
    && cfg.codec.accepts(h.accepted)
    && r.maxAttempts == cfg.maxAttempts
    && h.enqueuedAt <= clock
    && h.enqueuedAt + EarliestRetry(|h.requeues|) * SECOND <= r.availableAt
    && Lifecycle(cfg, clock, r, h)
    && Accounting(r, h)
    && (h.logged ==> Terminal(r.status))
    && (h.overwritten ==> h.logged)
  }

  // The worker that made the claim passes the ownership guard exactly as long as
  // no later claim of the job exists; the lock then shows its latest reading.
  ghost predicate Holds(w: WorkerId, claim: nat, read: Time, r: Job, h: History) {
    && 1 <= claim <= |h.claims| && h.claims[claim - 1] == w
    && (claim == |h.claims| <==> OwnedBy(r, w))
    && (OwnedBy(r, w) ==> r.lockedAt == Some(read))
  }

  ghost predicate PhaseInv(cfg: Config, w: WorkerId, p: Phase, r: Job, h: History) {
    match p
    case Idle => true
    case Crashed(_) => true
    case Claimed(_, claim, payload, read) =>
      && Holds(w, claim, read, r, h) && claim !in h.sends
      && payload == Some(cfg.codec.encode(h.accepted))
    case Unreadable(_, claim, read) =>
      Holds(w, claim, read, r, h) && claim !in h.sends
    case Sending(_, claim, snapshot, _, read) =>
      && Holds(w, claim, read, r, h) && claim in h.sends && snapshot == h.accepted
      && claim !in h.returned && claim !in h.requeues
    case Returned(_, claim, outcome, _, read) =>
      && Holds(w, claim, read, r, h) && claim in h.sends
      && (outcome.Accepted? <==> claim in h.returned) && claim !in h.requeues
    case Finalising(_, claim, outcome, read) =>
      && Holds(w, claim, read, r, h) && claim in h.sends
      && (outcome.Accepted? <==> claim in h.returned) && claim !in h.requeues
    case Logging(_, claim, status) =>
      && 1 <= claim <= |h.claims| && h.claims[claim - 1] == w
      && !status.Processing?
      && (Terminal(status) ==> claim == |h.claims| && r.status == status && !h.logged)
      && (status.Queued? ==> claim in h.requeues)
  }

  // The final status still has to be logged by this worker, or never will be
  // because the worker crashed first.
  predicate OwesLog(p: Phase, j: JobId, claim: nat, status: Status) {
    p == Logging(j, claim, status) || p == Crashed(Logging(j, claim, status))
  }

  ghost predicate LogInv(log: LogRow, r: Job, h: History) {
    && !log.status.Processing?
    && (Terminal(log.status) ==>
          log.status == r.status && log.success == r.status.Delivered? && h.logged && !h.overwritten)
    && (log.status.Queued? && h.logged ==> h.overwritten)
  }

  // The final status of the row is logged, or one worker owes the log write.
  ghost predicate LogFits(t: State, j: JobId, row: Job, h: History) {
    && (j in t.logs ==> LogInv(t.logs[j], row, h))
    && (Terminal(row.status) && !h.logged ==>
          |h.claims| > 0 && OwesLog(PhaseOf(t, h.claims[|h.claims| - 1]), j, |h.claims|, row.status))
  }

  ghost predicate PurgedInTime(cfg: Config, s: State, j: JobId)
    requires WellKeyed(s)
  {
    j in s.purged ==> Expired(s.purged[j], s.purgedAt[j], cfg.jobRetention) && s.purgedAt[j] <= s.clock
  }

  ghost predicate JobInv(cfg: Config, s: State, j: JobId)
    requires WellKeyed(s) && j in s.history
  {
    var r, h := Rows(s)[j], s.history[j];
    && RowInv(cfg, s.clock, r, h)
    && LogFits(s, j, r, h)
    && PurgedInTime(cfg, s, j)
  }

  ghost predicate WorkerInv(cfg: Config, s: State, w: WorkerId)
    requires WellKeyed(s)
  {
    var p := PhaseOf(s, w);
    Active(p) ==> PhaseInv(cfg, w, p, Rows(s)[p.job], s.history[p.job])
  }

  ghost predicate Inv(cfg: Config, s: State) {
    && WellKeyed(s)
    && (forall j :: j in s.history ==> JobInv(cfg, s, j))
    && (forall w :: w in s.workers ==> WorkerInv(cfg, s, w))
  }

  // ---- lifting a step on one job and one worker to the whole state ----

  // t differs from s in worker w and job j only.
  ghost predicate StepsOn(s: State, t: State, w: WorkerId, p: Phase, j: JobId, row: Job, h: History) {
    && j in s.history
    && t.workers == s.workers[w := p]
    && Rows(t) == Rows(s)[j := row]
    && t.history == s.history[j := h]
    && t.clock == s.clock && t.nextId == s.nextId
    && t.jobs.Keys == s.jobs.Keys && t.purged == s.purged && t.purgedAt == s.purgedAt
    && t.logs.Keys == s.logs.Keys && (forall k :: k in s.logs && k != j ==> t.logs[k] == s.logs[k])
  }

  // The workers on job j other than w are as they should be for this row and history.
  ghost predicate OthersFit(cfg: Config, s: State, w: WorkerId, j: JobId, row: Job, h: History) {
    forall v :: v in s.workers && v != w && Active(s.workers[v]) && s.workers[v].job == j ==>
      PhaseInv(cfg, v, s.workers[v], row, h)
  }

  predicate MayStepOn(p: Phase, j: JobId) {
    p.Idle? || (Active(p) && p.job == j)
  }

  lemma OtherLogFits(s: State, t: State, w: WorkerId, p: Phase, j: JobId, k: JobId, r: Job, g: History)
    requires LogFits(s, k, r, g) && MayStepOn(PhaseOf(s, w), j) && k != j && t.workers == s.workers[w := p]
    requires k in t.logs ==> k in s.logs && t.logs[k] == s.logs[k]
    ensures LogFits(t, k, r, g)
  {
    if Terminal(r.status) && !g.logged {
      var finisher := g.claims[|g.claims| - 1];
      assert finisher != w;
      assert PhaseOf(t, finisher) == PhaseOf(s, finisher);
    }
  }

  lemma OtherJobKept(cfg: Config, s: State, t: State, w: WorkerId, p: Phase, j: JobId, row: Job, h: History, k: JobId)
    requires WellKeyed(s) && WellKeyed(t) && StepsOn(s, t, w, p, j, row, h)
    requires MayStepOn(PhaseOf(s, w), j)
    requires k in s.history && k != j && JobInv(cfg, s, k)
    ensures JobInv(cfg, t, k)
  {
    var r, g := Rows(s)[k], s.history[k];
    assert Rows(t)[k] == r && t.history[k] == g;
    OtherLogFits(s, t, w, p, j, k, r, g);
  }

  lemma JobsKept(cfg: Config, s: State, t: State, w: WorkerId, p: Phase, j: JobId, row: Job, h: History)
    requires WellKeyed(s) && WellKeyed(t) && StepsOn(s, t, w, p, j, row, h)
    requires forall k :: k in s.history ==> JobInv(cfg, s, k)
    requires MayStepOn(PhaseOf(s, w), j)
    requires JobInv(cfg, t, j)
    ensures forall k :: k in t.history ==> JobInv(cfg, t, k)
  {
    forall k | k in t.history && k != j
      ensures JobInv(cfg, t, k)
    {
      OtherJobKept(cfg, s, t, w, p, j, row, h, k);
    }
  }

  lemma OtherWorkerKept(cfg: Config, s: State, t: State, w: WorkerId, p: Phase, j: JobId, row: Job, h: History,
                        v: WorkerId)
    requires WellKeyed(s) && WellKeyed(t) && StepsOn(s, t, w, p, j, row, h)
    requires v in s.workers && v != w && WorkerInv(cfg, s, v)
    requires Active(s.workers[v]) && s.workers[v].job == j ==> PhaseInv(cfg, v, s.workers[v], row, h)
    ensures WorkerInv(cfg, t, v)
  {
    var q := s.workers[v];
    assert PhaseOf(t, v) == q;
    if Active(q) && q.job != j {
      assert Rows(t)[q.job] == Rows(s)[q.job];
      assert t.history[q.job] == s.history[q.job];
    }
  }

  lemma WorkersKept(cfg: Config, s: State, t: State, w: WorkerId, p: Phase, j: JobId, row: Job, h: History)
    requires WellKeyed(s) && WellKeyed(t) && StepsOn(s, t, w, p, j, row, h)
    requires forall v :: v in s.workers ==> WorkerInv(cfg, s, v)
    requires WorkerInv(cfg, t, w)
    requires OthersFit(cfg, s, w, j, row, h)
    ensures forall v :: v in t.workers ==> WorkerInv(cfg, t, v)
  {
    forall v | v in t.workers && v != w
      ensures WorkerInv(cfg, t, v)
    {
      OtherWorkerKept(cfg, s, t, w, p, j, row, h, v);
    }
  }

  lemma ThisJobKept(cfg: Config, s: State, t: State, w: WorkerId, p: Phase, j: JobId, row: Job, h: History)
    requires WellKeyed(s) && WellKeyed(t) && StepsOn(s, t, w, p, j, row, h)
    requires JobInv(cfg, s, j)
    requires RowInv(cfg, s.clock, row, h)
    requires LogFits(t, j, row, h)
    ensures JobInv(cfg, t, j)
  {
    assert Rows(t)[j] == row;
    if j in s.purged {
      assert Rows(s)[j] == s.purged[j] && Rows(t)[j] == t.purged[j];
    }
  }

  lemma ThisWorkerKept(cfg: Config, s: State, t: State, w: WorkerId, p: Phase, j: JobId, row: Job, h: History)
    requires WellKeyed(s) && WellKeyed(t) && StepsOn(s, t, w, p, j, row, h)
    requires MayStepOn(p, j) && PhaseInv(cfg, w, p, row, h)
    ensures WorkerInv(cfg, t, w)
  {
    assert PhaseOf(t, w) == p;
    assert Rows(t)[j] == row;
  }

  lemma InvLifts(cfg: Config, s: State, t: State, w: WorkerId, p: Phase, j: JobId, row: Job, h: History)
    requires Inv(cfg, s) && WellKeyed(t) && StepsOn(s, t, w, p, j, row, h)
    requires MayStepOn(PhaseOf(s, w), j) && MayStepOn(p, j)
    requires PhaseInv(cfg, w, p, row, h)
    requires OthersFit(cfg, s, w, j, row, h)
    requires RowInv(cfg, s.clock, row, h)
    requires LogFits(t, j, row, h)
    ensures Inv(cfg, t)
  {
    assert JobInv(cfg, s, j);
    ThisJobKept(cfg, s, t, w, p, j, row, h);
    ThisWorkerKept(cfg, s, t, w, p, j, row, h);
    JobsKept(cfg, s, t, w, p, j, row, h);
    WorkersKept(cfg, s, t, w, p, j, row, h);
  }

  lemma UpdateKeyed(s: State, w: WorkerId, p: Phase, j: JobId, row: Job, h: History)
    requires WellKeyed(s) && j in s.history && MayStepOn(p, j)
    ensures WellKeyed(Update(s, w, p, j, row, h))
  {
  }

  lemma UpdatedRows(jobs: map<JobId, Job>, purged: map<JobId, Job>, j: JobId, row: Job)
    requires jobs.Keys !! purged.Keys && j in jobs.Keys + purged.Keys
    requires j !in jobs ==> row == purged[j]
    ensures (if j in jobs then jobs[j := row] else jobs) + purged == (jobs + purged)[j := row]
  {
  }

  lemma UpdateSteps(s: State, w: WorkerId, p: Phase, j: JobId, row: Job, h: History)
    requires WellKeyed(s) && j in s.history && MayStepOn(p, j)
    requires j !in s.jobs ==> row == Rows(s)[j]
    ensures WellKeyed(Update(s, w, p, j, row, h)) && StepsOn(s, Update(s, w, p, j, row, h), w, p, j, row, h)
  {
    UpdateKeyed(s, w, p, j, row, h);
    UpdatedRows(s.jobs, s.purged, j, row);
  }

  // The log of a job that was not final and is not final now needs no new write.
  lemma OpenLogFits(cfg: Config, s: State, t: State, j: JobId, r: Job, h: History, row: Job, g: History)
    requires LogFits(s, j, r, h) && RowInv(cfg, s.clock, r, h)
    requires t.logs == s.logs && !Terminal(r.status) && !Terminal(row.status)
    requires g.logged == h.logged && g.overwritten == h.overwritten
    ensures LogFits(t, j, row, g)
  {
  }

  // ---- what each step does to the row, its history and the workers on it ----

  lemma ClaimLifecycle(cfg: Config, clock: Time, r: Job, h: History, w: WorkerId, now: Time)
    requires Lifecycle(cfg, clock, r, h) && Eligible(r, now, cfg.lockTimeout) && now <= clock
    ensures Lifecycle(cfg, clock, ClaimedBy(r, w, now), AfterClaim(h, w, r))
  {
  }

  lemma FirstClaimAccounting(r: Job, h: History, w: WorkerId, now: Time)
    requires Accounting(r, h) && r.status.Queued?
    ensures Accounting(ClaimedBy(r, w, now), AfterClaim(h, w, r))
  {
  }

  lemma TakeOverAccounting(r: Job, h: History, w: WorkerId, now: Time)
    requires Accounting(r, h) && r.status.Processing? && h.claims != []
    ensures Accounting(ClaimedBy(r, w, now), AfterClaim(h, w, r))
  {
    var claim := r.attempts + 1;
    assert claim !in h.reclaims;
    assert |h.reclaims + {claim}| == |h.reclaims| + 1;
  }

  lemma ClaimAccounting(r: Job, h: History, w: WorkerId, now: Time)
    requires Accounting(r, h) && (r.status.Queued? || r.status.Processing?) && (r.status.Processing? ==> h.claims != [])
    ensures Accounting(ClaimedBy(r, w, now), AfterClaim(h, w, r))
  {
    if r.status.Queued? {
      FirstClaimAccounting(r, h, w, now);
    } else {
      TakeOverAccounting(r, h, w, now);
    }
  }

  lemma ClaimPhase(cfg: Config, r: Job, h: History, j: JobId, w: WorkerId, now: Time)
    requires Accounting(r, h) && r.payload == Some(cfg.codec.encode(h.accepted))
    ensures PhaseInv(cfg, w, Claimed(j, r.attempts + 1, r.payload, now), ClaimedBy(r, w, now), AfterClaim(h, w, r))
  {
  }

  lemma ClaimRow(cfg: Config, clock: Time, r: Job, h: History, j: JobId, w: WorkerId, now: Time)
    requires RowInv(cfg, clock, r, h) && Eligible(r, now, cfg.lockTimeout) && now <= clock
    ensures RowInv(cfg, clock, ClaimedBy(r, w, now), AfterClaim(h, w, r))
    ensures PhaseInv(cfg, w, Claimed(j, r.attempts + 1, r.payload, now), ClaimedBy(r, w, now), AfterClaim(h, w, r))
  {
    ClaimLifecycle(cfg, clock, r, h, w, now);
    ClaimAccounting(r, h, w, now);
    ClaimPhase(cfg, r, h, j, w, now);
  }

  lemma ClaimKeepsOthers(cfg: Config, clock: Time, r: Job, h: History, w: WorkerId, now: Time, v: WorkerId, q: Phase)
    requires RowInv(cfg, clock, r, h) && Eligible(r, now, cfg.lockTimeout)
    requires v != w && PhaseInv(cfg, v, q, r, h)
    ensures PhaseInv(cfg, v, q, ClaimedBy(r, w, now), AfterClaim(h, w, r))
  {
  }

  lemma SendStartRow(cfg: Config, clock: Time, r: Job, h: History, p: Phase, w: WorkerId)
    requires RowInv(cfg, clock, r, h) && p.Claimed? && PhaseInv(cfg, w, p, r, h)
    ensures var g := h.(sends := h.sends[p.claim := h.accepted]);
            && RowInv(cfg, clock, r, g)
            && PhaseInv(cfg, w, Sending(p.job, p.claim, h.accepted, false, p.read), r, g)
  {
  }

  lemma SendStartKeepsOthers(cfg: Config, r: Job, h: History, p: Phase, w: WorkerId, v: WorkerId, q: Phase)
    requires p.Claimed? && PhaseInv(cfg, w, p, r, h)
    requires v != w && PhaseInv(cfg, v, q, r, h)
    ensures PhaseInv(cfg, v, q, r, h.(sends := h.sends[p.claim := h.accepted]))
  {
  }

  lemma RefreshRow(cfg: Config, clock: Time, r: Job, h: History, p: Phase, w: WorkerId, now: Time, lost: bool)
    requires RowInv(cfg, clock, r, h) && Beating(p) && PhaseInv(cfg, w, p, r, h)
    requires OwnedBy(r, w) && Reads(p, clock, now)
    ensures RowInv(cfg, clock, Refreshed(r, now), h)
    ensures PhaseInv(cfg, w, p.(lost := lost, read := now), Refreshed(r, now), h)
  {
  }

  lemma RefreshKeepsOthers(cfg: Config, r: Job, h: History, w: WorkerId, now: Time, v: WorkerId, q: Phase)
    requires OwnedBy(r, w) && v != w && PhaseInv(cfg, v, q, r, h)
    ensures PhaseInv(cfg, v, q, Refreshed(r, now), h)
  {
  }

  lemma ReturnRow(cfg: Config, clock: Time, r: Job, h: History, p: Phase, w: WorkerId, outcome: Outcome)
    requires RowInv(cfg, clock, r, h) && p.Sending? && PhaseInv(cfg, w, p, r, h)
    ensures RowInv(cfg, clock, r, AfterReturn(h, p.claim, outcome))
    ensures PhaseInv(cfg, w, Returned(p.job, p.claim, outcome, p.lost, p.read), r, AfterReturn(h, p.claim, outcome))
  {
  }

  lemma ReturnKeepsOthers(cfg: Config, r: Job, h: History, p: Phase, w: WorkerId, outcome: Outcome, v: WorkerId,
                          q: Phase)
    requires p.Sending? && PhaseInv(cfg, w, p, r, h)
    requires v != w && PhaseInv(cfg, v, q, r, h)
    ensures PhaseInv(cfg, v, q, r, AfterReturn(h, p.claim, outcome))
  {
  }

  lemma FinalRowKept(cfg: Config, clock: Time, r: Job, h: History, p: Phase, w: WorkerId, now: Time)
    requires RowInv(cfg, clock, r, h) && (p.Unreadable? || p.Finalising?)
    requires PhaseInv(cfg, w, p, r, h) && OwnedBy(r, w) && Reads(p, clock, now)
    ensures var row := FinalRow(p, r, now);
            && RowInv(cfg, clock, row, AfterFinal(h, p.claim, row))
            && PhaseInv(cfg, w, Logging(p.job, p.claim, row.status), row, AfterFinal(h, p.claim, row))
            && !h.logged
  {
    var row := FinalRow(p, r, now);
    BackoffIsBoundedExponential(r.attempts);
    if row.status.Queued? {
      assert |h.requeues + {p.claim}| == |h.requeues| + 1;
      EarliestRetryStep(|h.requeues|, r.attempts);
    }
  }

  lemma FinalKeepsOthers(cfg: Config, clock: Time, r: Job, h: History, p: Phase, w: WorkerId, now: Time,
                         v: WorkerId, q: Phase)
    requires RowInv(cfg, clock, r, h) && (p.Unreadable? || p.Finalising?)
    requires PhaseInv(cfg, w, p, r, h) && OwnedBy(r, w)
    requires v != w && PhaseInv(cfg, v, q, r, h)
    ensures var row := FinalRow(p, r, now);
            PhaseInv(cfg, v, q, row, AfterFinal(h, p.claim, row))
  {
  }

  lemma LogRowKept(cfg: Config, clock: Time, r: Job, h: History, p: Phase, w: WorkerId)
    requires RowInv(cfg, clock, r, h) && p.Logging? && PhaseInv(cfg, w, p, r, h)
    ensures RowInv(cfg, clock, r, AfterLog(h, p.status))
  {
  }

  lemma LogKeepsOthers(cfg: Config, r: Job, h: History, p: Phase, w: WorkerId, v: WorkerId, q: Phase)
    requires p.Logging? && PhaseInv(cfg, w, p, r, h)
    requires v != w && PhaseInv(cfg, v, q, r, h)
    ensures PhaseInv(cfg, v, q, r, AfterLog(h, p.status))
  {
  }

  lemma LogWritten(cfg: Config, clock: Time, log: LogRow, r: Job, h: History, p: Phase, w: WorkerId)
    requires RowInv(cfg, clock, r, h) && p.Logging? && PhaseInv(cfg, w, p, r, h)
    requires LogInv(log, r, h)
    ensures LogInv(log.(success := p.status.Delivered?, status := p.status), r, AfterLog(h, p.status))
  {
  }

  lemma LaterRow(cfg: Config, clock: Time, later: Time, r: Job, h: History)
    requires RowInv(cfg, clock, r, h) && clock <= later
    ensures RowInv(cfg, later, r, h)
  {
  }

  // ---- every action keeps the invariant ----

  lemma InitInv(cfg: Config, start: Time)
    ensures Inv(cfg, Init(start))
  {
  }

  lemma LaterJob(cfg: Config, s: State, t: State, j: JobId)
    requires WellKeyed(s) && j in s.history && JobInv(cfg, s, j)
    requires s.clock <= t.clock && t == s.(clock := t.clock)
    ensures WellKeyed(t) && JobInv(cfg, t, j)
  {
    LaterRow(cfg, s.clock, t.clock, Rows(s)[j], s.history[j]);
  }

  lemma TickInv(cfg: Config, s: State, elapsed: nat)
    requires Inv(cfg, s)
    ensures Inv(cfg, Apply(cfg, s, Tick(elapsed)))
  {
    var t := Apply(cfg, s, Tick(elapsed));
    forall j | j in t.history
      ensures JobInv(cfg, t, j)
    {
      assert JobInv(cfg, s, j);
      LaterJob(cfg, s, t, j);
    }
    forall w | w in t.workers
      ensures WorkerInv(cfg, t, w)
    {
      assert WorkerInv(cfg, s, w);
    }
  }

  lemma DrawnJob(cfg: Config, s: State, j: JobId)
    requires WellKeyed(s) && j in s.history && JobInv(cfg, s, j)
    ensures JobInv(cfg, Apply(cfg, s, Draw), j)
  {
    var t := Apply(cfg, s, Draw);
    assert Rows(t)[j] == Rows(s)[j];
    assert LogFits(t, j, Rows(s)[j], s.history[j]);
  }

  lemma DrawInv(cfg: Config, s: State)
    requires Inv(cfg, s)
    ensures Inv(cfg, Apply(cfg, s, Draw))
  {
    var t := Apply(cfg, s, Draw);
    forall j | j in t.history
      ensures JobInv(cfg, t, j)
    {
      assert JobInv(cfg, s, j);
      DrawnJob(cfg, s, j);
    }
    forall w | w in t.workers
      ensures WorkerInv(cfg, t, w)
    {
      assert WorkerInv(cfg, s, w);
    }
  }

  lemma ClaimOthersFit(cfg: Config, s: State, w: WorkerId, id: JobId, now: Time)
    requires Inv(cfg, s) && id in s.jobs && Eligible(s.jobs[id], now, cfg.lockTimeout)
    ensures OthersFit(cfg, s, w, id, ClaimedBy(s.jobs[id], w, now), AfterClaim(s.history[id], w, s.jobs[id]))
  {
    var r, h := s.jobs[id], s.history[id];
    assert JobInv(cfg, s, id) && Rows(s)[id] == r;
    forall v | v in s.workers && v != w && Active(s.workers[v]) && s.workers[v].job == id
      ensures PhaseInv(cfg, v, s.workers[v], ClaimedBy(r, w, now), AfterClaim(h, w, r))
    {
      assert WorkerInv(cfg, s, v);
      ClaimKeepsOthers(cfg, s.clock, r, h, w, now, v, s.workers[v]);
    }
  }

  lemma ClaimedInv(cfg: Config, s: State, w: WorkerId, id: JobId, now: Time, skipped: set<JobId>)
    requires Inv(cfg, s) && ClaimFires(cfg, s, w, id, now, skipped)
    ensures Inv(cfg, ApplyClaim(cfg, s, w, id, now, skipped))
  {
    var t := ApplyClaim(cfg, s, w, id, now, skipped);
    var r, h := s.jobs[id], s.history[id];
    var p, row, g := Claimed(id, r.attempts + 1, r.payload, now), ClaimedBy(r, w, now), AfterClaim(h, w, r);
    UpdateSteps(s, w, p, id, row, g);
    assert RowInv(cfg, s.clock, r, h) && LogFits(s, id, r, h) by {
      assert JobInv(cfg, s, id);
      assert Rows(s)[id] == r;
    }
    ClaimRow(cfg, s.clock, r, h, id, w, now);
    OpenLogFits(cfg, s, t, id, r, h, row, g);
    assert OthersFit(cfg, s, w, id, row, g) by {
      ClaimOthersFit(cfg, s, w, id, now);
    }
    InvLifts(cfg, s, t, w, p, id, row, g);
  }

  lemma ClaimInv(cfg: Config, s: State, w: WorkerId, id: JobId, now: Time, skipped: set<JobId>)
    requires Inv(cfg, s)
    ensures Inv(cfg, ApplyClaim(cfg, s, w, id, now, skipped))
  {
    if ClaimFires(cfg, s, w, id, now, skipped) {
      ClaimedInv(cfg, s, w, id, now, skipped);
    }
  }

  // A step of a worker that owes no log write leaves the log of its job fitting.
  lemma SameLogFits(s: State, t: State, w: WorkerId, p: Phase, j: JobId, r: Job, h: History, g: History)
    requires LogFits(s, j, r, h) && t.logs == s.logs && t.workers == s.workers[w := p]
    requires Active(PhaseOf(s, w)) && !PhaseOf(s, w).Logging?
    requires g.claims == h.claims && g.logged == h.logged && g.overwritten == h.overwritten
    ensures LogFits(t, j, r, g)
  {
    if Terminal(r.status) && !h.logged {
      var finisher := h.claims[|h.claims| - 1];
      assert finisher != w;
      assert PhaseOf(t, finisher) == PhaseOf(s, finisher);
    }
  }

  lemma SameOthersFit(cfg: Config, s: State, w: WorkerId, j: JobId)
    requires Inv(cfg, s) && j in s.history
    ensures OthersFit(cfg, s, w, j, Rows(s)[j], s.history[j])
  {
    forall v | v in s.workers && v != w && Active(s.workers[v]) && s.workers[v].job == j
      ensures PhaseInv(cfg, v, s.workers[v], Rows(s)[j], s.history[j])
    {
      assert WorkerInv(cfg, s, v);
    }
  }

  lemma PhaseChangeSteps(s: State, w: WorkerId, next: Phase, j: JobId)
    requires WellKeyed(s) && j in s.history && MayStepOn(next, j)
    ensures var t := s.(workers := s.workers[w := next]);
            WellKeyed(t) && StepsOn(s, t, w, next, j, Rows(s)[j], s.history[j])
  {
    var t := s.(workers := s.workers[w := next]);
    assert Rows(t) == Rows(s);
  }

  lemma RefreshSteps(s: State, w: WorkerId, now: Time, lost: bool)
    requires WellKeyed(s) && Beating(PhaseOf(s, w)) && PhaseOf(s, w).job in s.jobs
    ensures var p := PhaseOf(s, w);
            var t := AfterRefresh(s, w, now, lost);
            WellKeyed(t)
            && StepsOn(s, t, w, p.(lost := lost, read := now), p.job, Refreshed(s.jobs[p.job], now), s.history[p.job])
  {
    var j := PhaseOf(s, w).job;
    assert Rows(AfterRefresh(s, w, now, lost)) == Rows(s)[j := Refreshed(s.jobs[j], now)];
  }

  // A step that changes nothing but the phase of a worker on its own job.
  lemma PhaseStepInv(cfg: Config, s: State, w: WorkerId, next: Phase)
    requires Inv(cfg, s) && Active(PhaseOf(s, w)) && !PhaseOf(s, w).Logging?
    requires MayStepOn(next, PhaseOf(s, w).job)
    requires var j := PhaseOf(s, w).job; PhaseInv(cfg, w, next, Rows(s)[j], s.history[j])
    ensures WellKeyed(s.(workers := s.workers[w := next]))
    ensures Inv(cfg, s.(workers := s.workers[w := next]))
  {
    var j := PhaseOf(s, w).job;
    var r, h := Rows(s)[j], s.history[j];
    var t := s.(workers := s.workers[w := next]);
    PhaseChangeSteps(s, w, next, j);
    assert RowInv(cfg, s.clock, r, h) && LogFits(s, j, r, h) by {
      assert JobInv(cfg, s, j);
    }
    SameLogFits(s, t, w, next, j, r, h, h);
    SameOthersFit(cfg, s, w, j);
    InvLifts(cfg, s, t, w, next, j, r, h);
  }

  lemma StartOthersFit(cfg: Config, s: State, w: WorkerId, p: Phase, r: Job, h: History)
    requires p.Claimed? && PhaseInv(cfg, w, p, r, h) && OthersFit(cfg, s, w, p.job, r, h)
    ensures OthersFit(cfg, s, w, p.job, r, h.(sends := h.sends[p.claim := h.accepted]))
  {
    var g := h.(sends := h.sends[p.claim := h.accepted]);
    forall v | v in s.workers && v != w && Active(s.workers[v]) && s.workers[v].job == p.job
      ensures PhaseInv(cfg, v, s.workers[v], r, g)
    {
      SendStartKeepsOthers(cfg, r, h, p, w, v, s.workers[v]);
    }
  }

  lemma StartInv(cfg: Config, s: State, w: WorkerId)
    requires Inv(cfg, s) && PhaseOf(s, w).Claimed?
    ensures var p := PhaseOf(s, w);
            var h := s.history[p.job];
            var t := Update(s, w, Sending(p.job, p.claim, h.accepted, false, p.read), p.job, Rows(s)[p.job],
                            h.(sends := h.sends[p.claim := h.accepted]));
            WellKeyed(t) && Inv(cfg, t)
  {
    var p := PhaseOf(s, w);
    var j := p.job;
    var r, h := Rows(s)[j], s.history[j];
    assert PhaseInv(cfg, w, p, r, h) by {
      assert WorkerInv(cfg, s, w);
    }
    assert RowInv(cfg, s.clock, r, h) && LogFits(s, j, r, h) by {
      assert JobInv(cfg, s, j);
    }
    var next, g := Sending(j, p.claim, h.accepted, false, p.read), h.(sends := h.sends[p.claim := h.accepted]);
    var t := Update(s, w, next, j, r, g);
    UpdateSteps(s, w, next, j, r, g);
    SendStartRow(cfg, s.clock, r, h, p, w);
    SameLogFits(s, t, w, next, j, r, h, g);
    SameOthersFit(cfg, s, w, j);
    StartOthersFit(cfg, s, w, p, r, h);
    InvLifts(cfg, s, t, w, next, j, r, g);
  }

  // What the worker decodes is the snapshot accepted with the job.
  lemma DecodesAccepted(cfg: Config, s: State, w: WorkerId)
    requires Inv(cfg, s) && Reversible(cfg.codec) && PhaseOf(s, w).Claimed?
    ensures var p := PhaseOf(s, w); cfg.codec.decode(p.payload) == Ok(s.history[p.job].accepted)
  {
    var p := PhaseOf(s, w);
    assert WorkerInv(cfg, s, w) && JobInv(cfg, s, p.job);
  }

  lemma UnreadableInv(cfg: Config, s: State, w: WorkerId)
    requires Inv(cfg, s) && PhaseOf(s, w).Claimed?
    ensures var p := PhaseOf(s, w);
            var t := s.(workers := s.workers[w := Unreadable(p.job, p.claim, p.read)]);
            WellKeyed(t) && Inv(cfg, t)
  {
    var p := PhaseOf(s, w);
    assert WorkerInv(cfg, s, w);
    PhaseStepInv(cfg, s, w, Unreadable(p.job, p.claim, p.read));
  }

  lemma DecodeOutcome(cfg: Config, s: State, w: WorkerId, readable: bool)
    requires WellKeyed(s) && PhaseOf(s, w).Claimed?
    requires cfg.codec.decode(PhaseOf(s, w).payload) == Ok(s.history[PhaseOf(s, w).job].accepted)
    ensures var p := PhaseOf(s, w);
            var h := s.history[p.job];
            ApplyDecode(cfg, s, w, readable) ==
            if readable then
              Update(s, w, Sending(p.job, p.claim, h.accepted, false, p.read), p.job, Rows(s)[p.job],
                     h.(sends := h.sends[p.claim := h.accepted]))
            else
              s.(workers := s.workers[w := Unreadable(p.job, p.claim, p.read)])
  {
  }

  lemma DecodedInv(cfg: Config, s: State, w: WorkerId, readable: bool)
    requires Inv(cfg, s) && Reversible(cfg.codec) && PhaseOf(s, w).Claimed?
    ensures Inv(cfg, ApplyDecode(cfg, s, w, readable))
  {
    DecodesAccepted(cfg, s, w);
    DecodeOutcome(cfg, s, w, readable);
    if readable {
      StartInv(cfg, s, w);
    } else {
      UnreadableInv(cfg, s, w);
    }
  }

  lemma DecodeInv(cfg: Config, s: State, w: WorkerId, readable: bool)
    requires Inv(cfg, s) && Reversible(cfg.codec)
    ensures Inv(cfg, ApplyDecode(cfg, s, w, readable))
  {
    if PhaseOf(s, w).Claimed? {
      DecodedInv(cfg, s, w, readable);
    }
  }

  lemma RefreshOthersFit(cfg: Config, s: State, w: WorkerId, j: JobId, r: Job, h: History, now: Time)
    requires OthersFit(cfg, s, w, j, r, h) && OwnedBy(r, w)
    ensures OthersFit(cfg, s, w, j, Refreshed(r, now), h)
  {
    forall v | v in s.workers && v != w && Active(s.workers[v]) && s.workers[v].job == j
      ensures PhaseInv(cfg, v, s.workers[v], Refreshed(r, now), h)
    {
      RefreshKeepsOthers(cfg, r, h, w, now, v, s.workers[v]);
    }
  }

  lemma RefreshInv(cfg: Config, s: State, w: WorkerId, now: Time, lost: bool)
    requires Inv(cfg, s) && Beating(PhaseOf(s, w)) && GuardHolds(s, w, PhaseOf(s, w).job)
    requires Reads(PhaseOf(s, w), s.clock, now)
    ensures var t := AfterRefresh(s, w, now, lost); WellKeyed(t) && Inv(cfg, t)
  {
    var p := PhaseOf(s, w);
    var j := p.job;
    var r, h := s.jobs[j], s.history[j];
    assert Rows(s)[j] == r;
    var q, row := p.(lost := lost, read := now), Refreshed(r, now);
    var t := AfterRefresh(s, w, now, lost);
    RefreshSteps(s, w, now, lost);
    assert RowInv(cfg, s.clock, r, h) && LogFits(s, j, r, h) by {
      assert JobInv(cfg, s, j);
    }
    assert PhaseInv(cfg, w, p, r, h) by {
      assert WorkerInv(cfg, s, w);
    }
    RefreshRow(cfg, s.clock, r, h, p, w, now, lost);
    OpenLogFits(cfg, s, t, j, r, h, row, h);
    assert OthersFit(cfg, s, w, j, row, h) by {
      SameOthersFit(cfg, s, w, j);
      RefreshOthersFit(cfg, s, w, j, r, h, now);
    }
    InvLifts(cfg, s, t, w, q, j, row, h);
  }

  lemma LoseInv(cfg: Config, s: State, w: WorkerId)
    requires Inv(cfg, s) && Beating(PhaseOf(s, w))
    ensures var t := s.(workers := s.workers[w := PhaseOf(s, w).(lost := true)]); WellKeyed(t) && Inv(cfg, t)
  {
    assert WorkerInv(cfg, s, w);
    PhaseStepInv(cfg, s, w, PhaseOf(s, w).(lost := true));
  }

  lemma HeartbeatInv(cfg: Config, s: State, w: WorkerId, now: Time)
    requires Inv(cfg, s)
    ensures Inv(cfg, ApplyHeartbeat(s, w, now))
  {
    var p := PhaseOf(s, w);
    if Beating(p) {
      if !GuardHolds(s, w, p.job) {
        LoseInv(cfg, s, w);
      } else if Reads(p, s.clock, now) {
        RefreshInv(cfg, s, w, now, false);
      }
    }
  }

  lemma HeartbeatErrorInv(cfg: Config, s: State, w: WorkerId, committed: bool, now: Time)
    requires Inv(cfg, s)
    ensures Inv(cfg, ApplyHeartbeatError(s, w, committed, now))
  {
    var p := PhaseOf(s, w);
    if Beating(p) {
      if committed && GuardHolds(s, w, p.job) && Reads(p, s.clock, now) {
        RefreshInv(cfg, s, w, now, true);
      } else {
        LoseInv(cfg, s, w);
      }
    }
  }

  lemma ReturnedInv(cfg: Config, s: State, w: WorkerId, outcome: Outcome)
    requires Inv(cfg, s) && PhaseOf(s, w).Sending?
    ensures Inv(cfg, ApplySendReturns(s, w, outcome))
  {
    var p := PhaseOf(s, w);
    var j := p.job;
    var r, h := Rows(s)[j], s.history[j];
    var next, g := Returned(j, p.claim, outcome, p.lost, p.read), AfterReturn(h, p.claim, outcome);
    var t := Update(s, w, next, j, r, g);
    UpdateSteps(s, w, next, j, r, g);
    assert PhaseInv(cfg, w, p, r, h) by {
      assert WorkerInv(cfg, s, w);
    }
    assert RowInv(cfg, s.clock, r, h) && LogFits(s, j, r, h) by {
      assert JobInv(cfg, s, j);
    }
    ReturnRow(cfg, s.clock, r, h, p, w, outcome);
    SameLogFits(s, t, w, next, j, r, h, g);
    assert OthersFit(cfg, s, w, j, r, g) by {
      SameOthersFit(cfg, s, w, j);
      forall v | v in s.workers && v != w && Active(s.workers[v]) && s.workers[v].job == j
        ensures PhaseInv(cfg, v, s.workers[v], r, g)
      {
        ReturnKeepsOthers(cfg, r, h, p, w, outcome, v, s.workers[v]);
      }
    }
    InvLifts(cfg, s, t, w, next, j, r, g);
  }

  lemma SendReturnsInv(cfg: Config, s: State, w: WorkerId, outcome: Outcome)
    requires Inv(cfg, s)
    ensures Inv(cfg, ApplySendReturns(s, w, outcome))
  {
    if PhaseOf(s, w).Sending? {
      ReturnedInv(cfg, s, w, outcome);
    }
  }

  lemma JoinInv(cfg: Config, s: State, w: WorkerId)
    requires Inv(cfg, s)
    ensures Inv(cfg, ApplyJoin(s, w))
  {
    var p := PhaseOf(s, w);
    if p.Returned? {
      assert WorkerInv(cfg, s, w);
      PhaseStepInv(cfg, s, w, if p.lost then Idle else Finalising(p.job, p.claim, p.outcome, p.read));
    }
  }

  lemma FinalOthersFit(cfg: Config, s: State, w: WorkerId, p: Phase, r: Job, h: History, now: Time)
    requires p.Unreadable? || p.Finalising?
    requires RowInv(cfg, s.clock, r, h) && PhaseInv(cfg, w, p, r, h) && OwnedBy(r, w)
    requires OthersFit(cfg, s, w, p.job, r, h)
    ensures var row := FinalRow(p, r, now); OthersFit(cfg, s, w, p.job, row, AfterFinal(h, p.claim, row))
  {
    forall v | v in s.workers && v != w && Active(s.workers[v]) && s.workers[v].job == p.job
      ensures var row := FinalRow(p, r, now); PhaseInv(cfg, v, s.workers[v], row, AfterFinal(h, p.claim, row))
    {
      FinalKeepsOthers(cfg, s.clock, r, h, p, w, now, v, s.workers[v]);
    }
  }

  // The worker that ends a job is the one that owes the log write.
  lemma FinalLogFits(cfg: Config, s: State, w: WorkerId, p: Phase, r: Job, h: History, now: Time)
    requires p.Unreadable? || p.Finalising?
    requires RowInv(cfg, s.clock, r, h) && PhaseInv(cfg, w, p, r, h) && OwnedBy(r, w) && LogFits(s, p.job, r, h)
    ensures var row := FinalRow(p, r, now);
            var t := Update(s, w, Logging(p.job, p.claim, row.status), p.job, row, AfterFinal(h, p.claim, row));
            LogFits(t, p.job, row, AfterFinal(h, p.claim, row))
  {
  }

  lemma FinalisedInv(cfg: Config, s: State, w: WorkerId, now: Time)
    requires Inv(cfg, s) && (PhaseOf(s, w).Unreadable? || PhaseOf(s, w).Finalising?)
    requires GuardHolds(s, w, PhaseOf(s, w).job) && Reads(PhaseOf(s, w), s.clock, now)
    ensures Inv(cfg, ApplyFinalise(s, w, now))
  {
    var p := PhaseOf(s, w);
    var j := p.job;
    var r, h := s.jobs[j], s.history[j];
    assert Rows(s)[j] == r;
    var row := FinalRow(p, r, now);
    var next, g := Logging(j, p.claim, row.status), AfterFinal(h, p.claim, row);
    var t := Update(s, w, next, j, row, g);
    UpdateSteps(s, w, next, j, row, g);
    assert PhaseInv(cfg, w, p, r, h) by {
      assert WorkerInv(cfg, s, w);
    }
    assert RowInv(cfg, s.clock, r, h) && LogFits(s, j, r, h) by {
      assert JobInv(cfg, s, j);
    }
    FinalRowKept(cfg, s.clock, r, h, p, w, now);
    FinalLogFits(cfg, s, w, p, r, h, now);
    SameOthersFit(cfg, s, w, j);
    FinalOthersFit(cfg, s, w, p, r, h, now);
    InvLifts(cfg, s, t, w, next, j, row, g);
  }

  lemma FinaliseInv(cfg: Config, s: State, w: WorkerId, now: Time)
    requires Inv(cfg, s)
    ensures Inv(cfg, ApplyFinalise(s, w, now))
  {
    var p := PhaseOf(s, w);
    if p.Unreadable? || p.Finalising? {
      if !GuardHolds(s, w, p.job) {
        PhaseStepInv(cfg, s, w, Idle);
      } else if Reads(p, s.clock, now) {
        FinalisedInv(cfg, s, w, now);
      }
    }
  }

  lemma WriteLogSteps(s: State, w: WorkerId)
    requires WellKeyed(s) && PhaseOf(s, w).Logging?
    ensures var p := PhaseOf(s, w);
            StepsOn(s, ApplyWriteLog(s, w), w, Idle, p.job, Rows(s)[p.job], AfterLog(s.history[p.job], p.status))
  {
    var p := PhaseOf(s, w);
    UpdateSteps(s, w, Idle, p.job, Rows(s)[p.job], AfterLog(s.history[p.job], p.status));
    assert Rows(ApplyWriteLog(s, w)) == Rows(s)[p.job := Rows(s)[p.job]];
  }

  lemma WrittenLog(s: State, w: WorkerId)
    requires WellKeyed(s) && PhaseOf(s, w).Logging?
    ensures var p, t := PhaseOf(s, w), ApplyWriteLog(s, w);
            && (p.job in t.logs <==> p.job in s.logs)
            && (p.job in s.logs ==>
                  t.logs[p.job] == s.logs[p.job].(success := p.status.Delivered?, status := p.status))
            && t.workers == s.workers[w := Idle]
  {
  }

  // A requeue's log write leaves the final write to whoever owes it.
  lemma StillOwed(s: State, t: State, w: WorkerId, p: Phase, r: Job, h: History)
    requires PhaseOf(s, w) == p && p.Logging? && t.workers == s.workers[w := Idle]
    requires |h.claims| > 0 && OwesLog(PhaseOf(s, h.claims[|h.claims| - 1]), p.job, |h.claims|, r.status)
    requires Terminal(r.status) && !Terminal(p.status)
    ensures OwesLog(PhaseOf(t, h.claims[|h.claims| - 1]), p.job, |h.claims|, r.status)
  {
    var finisher := h.claims[|h.claims| - 1];
    assert finisher != w;
    assert PhaseOf(t, finisher) == PhaseOf(s, finisher);
  }

  lemma WrittenLogFits(cfg: Config, s: State, w: WorkerId, p: Phase, r: Job, h: History)
    requires WellKeyed(s) && p.Logging? && PhaseOf(s, w) == p && p.job in s.history && s.history[p.job] == h
    requires RowInv(cfg, s.clock, r, h) && PhaseInv(cfg, w, p, r, h) && LogFits(s, p.job, r, h)
    ensures LogFits(ApplyWriteLog(s, w), p.job, r, AfterLog(h, p.status))
  {
    WrittenLog(s, w);
    if p.job in s.logs {
      LogWritten(cfg, s.clock, s.logs[p.job], r, h, p, w);
    }
    if Terminal(r.status) && !h.logged && !Terminal(p.status) {
      StillOwed(s, ApplyWriteLog(s, w), w, p, r, h);
    }
  }

  lemma LoggedInv(cfg: Config, s: State, w: WorkerId)
    requires Inv(cfg, s) && PhaseOf(s, w).Logging?
    ensures Inv(cfg, ApplyWriteLog(s, w))
  {
    var p := PhaseOf(s, w);
    var j := p.job;
    var r, h := Rows(s)[j], s.history[j];
    var g := AfterLog(h, p.status);
    var t := ApplyWriteLog(s, w);
    WriteLogSteps(s, w);
    assert PhaseInv(cfg, w, p, r, h) by {
      assert WorkerInv(cfg, s, w);
    }
    assert RowInv(cfg, s.clock, r, h) && LogFits(s, j, r, h) by {
      assert JobInv(cfg, s, j);
    }
    LogRowKept(cfg, s.clock, r, h, p, w);
    WrittenLogFits(cfg, s, w, p, r, h);
    assert OthersFit(cfg, s, w, j, r, g) by {
      SameOthersFit(cfg, s, w, j);
      forall v | v in s.workers && v != w && Active(s.workers[v]) && s.workers[v].job == j
        ensures PhaseInv(cfg, v, s.workers[v], r, g)
      {
        LogKeepsOthers(cfg, r, h, p, w, v, s.workers[v]);
      }
    }
    InvLifts(cfg, s, t, w, Idle, j, r, g);
  }

  lemma WriteLogInv(cfg: Config, s: State, w: WorkerId)
    requires Inv(cfg, s)
    ensures Inv(cfg, ApplyWriteLog(s, w))
  {
    if PhaseOf(s, w).Logging? {
      LoggedInv(cfg, s, w);
    }
  }

  lemma CrashKeepsLog(s: State, w: WorkerId, j: JobId, r: Job, h: History)
    requires WellKeyed(s) && LogFits(s, j, r, h)
    ensures LogFits(ApplyCrash(s, w), j, r, h)
  {
  }

  lemma CrashKeepsJob(cfg: Config, s: State, w: WorkerId, j: JobId)
    requires WellKeyed(s) && j in s.history && JobInv(cfg, s, j)
    ensures JobInv(cfg, ApplyCrash(s, w), j)
  {
    var t := ApplyCrash(s, w);
    var r, h := Rows(s)[j], s.history[j];
    assert Rows(t)[j] == r;
    CrashKeepsLog(s, w, j, r, h);
  }

  lemma CrashKeepsWorker(cfg: Config, s: State, w: WorkerId, v: WorkerId)
    requires WellKeyed(s) && (v in s.workers ==> WorkerInv(cfg, s, v))
    ensures WorkerInv(cfg, ApplyCrash(s, w), v)
  {
    var t := ApplyCrash(s, w);
    assert Active(PhaseOf(t, v)) ==> PhaseOf(t, v) == PhaseOf(s, v);
  }

  lemma CrashInv(cfg: Config, s: State, w: WorkerId)
    requires Inv(cfg, s)
    ensures Inv(cfg, ApplyCrash(s, w))
  {
    var t := ApplyCrash(s, w);
    forall j | j in t.history
      ensures JobInv(cfg, t, j)
    {
      CrashKeepsJob(cfg, s, w, j);
    }
    forall v | v in t.workers
      ensures WorkerInv(cfg, t, v)
    {
      CrashKeepsWorker(cfg, s, w, v);
    }
  }

  lemma NewJobInv(cfg: Config, s: State, id: JobId, snapshot: Snapshot, now: Time)
    requires WellKeyed(s) && Accepts(cfg, s, id, snapshot, now)
    ensures JobInv(cfg, ApplyEnqueue(cfg, s, id, snapshot, now), id)
  {
    var t := ApplyEnqueue(cfg, s, id, snapshot, now);
    assert id !in s.history;
    assert Rows(t)[id] == t.jobs[id];
  }

  lemma EnqueueKeepsJob(cfg: Config, s: State, id: JobId, snapshot: Snapshot, now: Time, j: JobId)
    requires WellKeyed(s) && j in s.history && JobInv(cfg, s, j) && Accepts(cfg, s, id, snapshot, now)
    ensures JobInv(cfg, ApplyEnqueue(cfg, s, id, snapshot, now), j)
  {
    var t := ApplyEnqueue(cfg, s, id, snapshot, now);
    assert Rows(t)[j] == Rows(s)[j];
    assert LogFits(t, j, Rows(s)[j], s.history[j]);
  }

  lemma EnqueueKeepsWorker(cfg: Config, s: State, id: JobId, snapshot: Snapshot, now: Time, v: WorkerId)
    requires WellKeyed(s) && WorkerInv(cfg, s, v) && Accepts(cfg, s, id, snapshot, now)
    ensures WorkerInv(cfg, ApplyEnqueue(cfg, s, id, snapshot, now), v)
  {
    var t := ApplyEnqueue(cfg, s, id, snapshot, now);
    var p := PhaseOf(s, v);
    if Active(p) {
      assert Rows(t)[p.job] == Rows(s)[p.job] && t.history[p.job] == s.history[p.job];
    }
  }

  lemma EnqueuedInv(cfg: Config, s: State, id: JobId, snapshot: Snapshot, now: Time)
    requires Inv(cfg, s) && Accepts(cfg, s, id, snapshot, now)
    ensures Inv(cfg, ApplyEnqueue(cfg, s, id, snapshot, now))
  {
    var t := ApplyEnqueue(cfg, s, id, snapshot, now);
    forall j | j in t.history
      ensures JobInv(cfg, t, j)
    {
      if j in s.history {
        EnqueueKeepsJob(cfg, s, id, snapshot, now, j);
      } else {
        NewJobInv(cfg, s, id, snapshot, now);
      }
    }
    forall v | v in t.workers
      ensures WorkerInv(cfg, t, v)
    {
      EnqueueKeepsWorker(cfg, s, id, snapshot, now, v);
    }
  }

  lemma EnqueueInv(cfg: Config, s: State, id: JobId, snapshot: Snapshot, now: Time)
    requires Inv(cfg, s)
    ensures Inv(cfg, ApplyEnqueue(cfg, s, id, snapshot, now))
  {
    if Accepts(cfg, s, id, snapshot, now) {
      EnqueuedInv(cfg, s, id, snapshot, now);
    }
  }

  lemma MovedRows(jobs: map<JobId, Job>, purged: map<JobId, Job>, gone: map<JobId, Job>)
    requires jobs.Keys !! purged.Keys && gone.Keys <= jobs.Keys
    requires forall j :: j in gone ==> gone[j] == jobs[j]
    ensures (jobs - gone.Keys) + (purged + gone) == jobs + purged
  {
  }

  // Purging moves rows out of the table and changes none of them.
  lemma CleanupRows(cfg: Config, s: State, now: Time)
    requires WellKeyed(s)
    ensures Rows(ApplyCleanup(cfg, s, now)) == Rows(s)
  {
    MovedRows(s.jobs, s.purged, Gone(s.jobs, now, cfg.jobRetention));
  }

  lemma CleanupKeepsLog(cfg: Config, s: State, now: Time, j: JobId, r: Job, h: History)
    requires WellKeyed(s) && LogFits(s, j, r, h)
    ensures LogFits(ApplyCleanup(cfg, s, now), j, r, h)
  {
  }

  lemma CleanupPurgesInTime(cfg: Config, s: State, now: Time, j: JobId)
    requires WellKeyed(s) && PurgedInTime(cfg, s, j)
    ensures PurgedInTime(cfg, ApplyCleanup(cfg, s, now), j)
  {
  }

  lemma CleanupKeepsJob(cfg: Config, s: State, now: Time, j: JobId)
    requires WellKeyed(s) && j in s.history && JobInv(cfg, s, j)
    ensures JobInv(cfg, ApplyCleanup(cfg, s, now), j)
  {
    CleanupRows(cfg, s, now);
    CleanupKeepsLog(cfg, s, now, j, Rows(s)[j], s.history[j]);
    CleanupPurgesInTime(cfg, s, now, j);
  }

  lemma CleanupInv(cfg: Config, s: State, now: Time)
    requires Inv(cfg, s)
    ensures Inv(cfg, ApplyCleanup(cfg, s, now))
  {
    var t := ApplyCleanup(cfg, s, now);
    CleanupRows(cfg, s, now);
    forall j | j in t.history
      ensures JobInv(cfg, t, j)
    {
      assert JobInv(cfg, s, j);
      CleanupKeepsJob(cfg, s, now, j);
    }
    forall v | v in t.workers
      ensures WorkerInv(cfg, t, v)
    {
      assert WorkerInv(cfg, s, v);
    }
  }

  predicate InsidePass(a: Action) {
    !a.Tick? && !a.Draw? && !a.Enqueue? && !a.Claim? && !a.Cleanup? && !a.Crash?
  }

  // The steps of a worker between its claim and the end of its pass.
  lemma PassInv(cfg: Config, s: State, a: Action)
    requires Inv(cfg, s) && Reversible(cfg.codec) && InsidePass(a)
    ensures Inv(cfg, Apply(cfg, s, a))
  {
    match a
    case Decode(w, readable) => DecodeInv(cfg, s, w, readable);
    case Heartbeat(w, now) => HeartbeatInv(cfg, s, w, now);
    case HeartbeatError(w, committed, now) => HeartbeatErrorInv(cfg, s, w, committed, now);
    case SendReturns(w, outcome) => SendReturnsInv(cfg, s, w, outcome);
    case JoinHeartbeat(w) => JoinInv(cfg, s, w);
    case Finalise(w, now) => FinaliseInv(cfg, s, w, now);
    case WriteLog(w) => WriteLogInv(cfg, s, w);
  }

  lemma StepInv(cfg: Config, s: State, a: Action)
    requires Inv(cfg, s) && Reversible(cfg.codec)
    ensures Inv(cfg, Apply(cfg, s, a))
  {
    match a
    case Tick(elapsed) => TickInv(cfg, s, elapsed);
    case Draw => DrawInv(cfg, s);
    case Enqueue(id, snapshot, now) => EnqueueInv(cfg, s, id, snapshot, now);
    case Claim(w, id, now, skipped) => ClaimInv(cfg, s, w, id, now, skipped);
    case Cleanup(now) => CleanupInv(cfg, s, now);
    case Crash(w) => CrashInv(cfg, s, w);
    case _ => PassInv(cfg, s, a);
  }

  lemma {:induction false} RunInv(cfg: Config, s: State, actions: seq<Action>)
    requires Inv(cfg, s) && Reversible(cfg.codec)
    ensures Inv(cfg, Run(cfg, s, actions))
    decreases |actions|
  {
    if actions != [] {
      StepInv(cfg, s, actions[0]);
      RunInv(cfg, Apply(cfg, s, actions[0]), actions[1..]);
    }
  }

  // The states of the runs that start from an empty table.
  ghost predicate Reachable(cfg: Config, s: State) {
    WellKeyed(s) && exists start: Time, actions: seq<Action> :: s == Run(cfg, Init(start), actions)
  }

  lemma ReachableInv(cfg: Config, s: State)
    requires Reachable(cfg, s) && Reversible(cfg.codec)
    ensures Inv(cfg, s)
  {
    var start: Time, actions: seq<Action> :| s == Run(cfg, Init(start), actions);
    InitInv(cfg, start);
    RunInv(cfg, Init(start), actions);
  }
}
