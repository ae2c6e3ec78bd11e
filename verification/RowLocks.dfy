/**
 The claim and failure transactions at the level of row locks. A claim first
 selects and locks the oldest eligible row that no open transaction holds, and
 later writes it; a failure first locks the row it will change. Other statements
 wait for a row that is locked. What these transactions do to the table, seen
 when they commit, is exactly what the one-step actions of the protocol do.
 */
module RowLocks {
  import opened Common
  import opened JobRows
  import opened Snapshots
  import opened Protocol
  import opened ProtocolInvariant
  import opened ProtocolFrames

  // An open transaction and the row it holds. row is the row as loaded when it
  // was locked; table and locked are the table and the locked rows at that time,
  // since is the time of the lock.
  datatype Transaction =
    | ClaimTx(id: JobId, row: Job, now: Time, table: map<JobId, Job>, locked: set<JobId>)
    | FailTx(id: JobId, row: Job, since: Time)

  datatype TxState = TxState(base: State, open: map<WorkerId, Transaction>)

  datatype TxAction =
    | SelectForClaim(worker: WorkerId, id: JobId, now: Time)
    | CommitClaim(worker: WorkerId)
    | SelectForFail(worker: WorkerId)
    | CommitFail(worker: WorkerId, now: Time)
    | Abort(worker: WorkerId)
    | Statement(action: Action)

  function Locked(t: TxState): set<JobId> {
    set w | w in t.open :: t.open[w].id
  }

  predicate Failing(p: Phase) {
    p.Unreadable? || (p.Finalising? && !p.outcome.Accepted?)
  }

  // The single-statement actions; a claim and a failure take two steps instead.
  predicate IsStatement(s: State, a: Action) {
    && !a.Claim? && !a.Crash?
    && !(a.Finalise? && Failing(PhaseOf(s, a.worker)))
  }

  // The statement would write a row that another transaction holds.
  predicate Waits(t: TxState, a: Action) {
    && (a.Heartbeat? || a.HeartbeatError? || a.Finalise?)
    && Active(PhaseOf(t.base, a.worker)) && PhaseOf(t.base, a.worker).job in Locked(t)
  }

  ghost predicate Proceeds(t: TxState, a: Action) {
    IsStatement(t.base, a) && !Waits(t, a) && !(exists w :: w in t.open && ActsFor(a, w))
  }

  ghost predicate CanSelect(cfg: Config, t: TxState, w: WorkerId, id: JobId, now: Time) {
    && w !in t.open && PhaseOf(t.base, w).Idle? && now <= t.base.clock
    && IsChoice(t.base.jobs, now, cfg.lockTimeout, Locked(t), id)
  }

  // The claim writes what it computed from the row it loaded.
  function CommittedClaim(s: State, w: WorkerId, tx: Transaction): State
    requires tx.ClaimTx? && tx.id in s.history
  {
    Update(s, w, Claimed(tx.id, tx.row.attempts + 1, tx.row.payload, tx.now), tx.id,
           ClaimedBy(tx.row, w, tx.now), AfterClaim(s.history[tx.id], w, tx.row))
  }

  // So does the failure, which reads the clock after it has locked the row.
  function CommittedFailure(s: State, w: WorkerId, tx: Transaction, now: Time): State
    requires tx.FailTx? && tx.id in s.history && Failing(PhaseOf(s, w))
  {
    var p := PhaseOf(s, w);
    var row := FinalRow(p, tx.row, now);
    Update(s, w, Logging(tx.id, p.claim, row.status), tx.id, row, AfterFinal(s.history[tx.id], p.claim, row))
  }

  // An open transaction still holds the row it loaded, and its worker waits for it.
  ghost predicate Holding(cfg: Config, s: State, w: WorkerId, tx: Transaction) {
    && tx.id in s.jobs && s.jobs[tx.id] == tx.row
    && (tx.ClaimTx? ==>
          && PhaseOf(s, w).Idle? && tx.now <= s.clock
          && IsChoice(tx.table, tx.now, cfg.lockTimeout, tx.locked, tx.id) && tx.table[tx.id] == tx.row)
    && (tx.FailTx? ==>
          && Failing(PhaseOf(s, w)) && PhaseOf(s, w).job == tx.id && OwnedBy(tx.row, w)
          && PhaseOf(s, w).read <= tx.since)
  }

  ghost predicate Exclusive(open: map<WorkerId, Transaction>) {
    forall v, w :: v in open && w in open && v != w ==> open[v].id != open[w].id
  }

  // No row is held by two open transactions.
  ghost predicate TxInv(cfg: Config, t: TxState) {
    && Inv(cfg, t.base)
    && (forall w :: w in t.open ==> Holding(cfg, t.base, w, t.open[w]))
    && Exclusive(t.open)
  }

  // What the steps need in order to be defined.
  ghost predicate TxKeyed(t: TxState) {
    && WellKeyed(t.base)
    && (forall w :: w in t.open ==> t.open[w].id in t.base.jobs && (t.open[w].FailTx? ==> Failing(PhaseOf(t.base, w))))
  }

  predicate FailureReady(t: TxState, w: WorkerId, now: Time) {
    w in t.open && t.open[w].FailTx? && t.open[w].since <= now <= t.base.clock
  }

  ghost function TxApply(cfg: Config, t: TxState, x: TxAction): TxState
    requires TxKeyed(t)
  {
    match x
    case SelectForClaim(w, id, now) =>
      if CanSelect(cfg, t, w, id, now) then
        t.(open := t.open[w := ClaimTx(id, t.base.jobs[id], now, t.base.jobs, Locked(t))])
      else t
    case CommitClaim(w) =>
      if w in t.open && t.open[w].ClaimTx? then
        TxState(CommittedClaim(t.base, w, t.open[w]), t.open - {w})
      else t
    case SelectForFail(w) =>
      var p := PhaseOf(t.base, w);
      if w !in t.open && Failing(p) then
        if !GuardHolds(t.base, w, p.job) then t.(base := t.base.(workers := t.base.workers[w := Idle]))
        else if p.job in Locked(t) then t
        else t.(open := t.open[w := FailTx(p.job, t.base.jobs[p.job], t.base.clock)])
      else t
    case CommitFail(w, now) =>
      if FailureReady(t, w, now) then
        TxState(CommittedFailure(t.base, w, t.open[w], now), t.open - {w})
      else t
    case Abort(w) =>
      TxState(Apply(cfg, t.base, Crash(w)), t.open - {w})
    case Statement(a) =>
      if Proceeds(t, a) then
        t.(base := Apply(cfg, t.base, a))
      else t
  }

  // The eligible rows that precede id when its claim commits: they were locked,
  // or became eligible, after the claim selected its row.
  function Overtaken(cfg: Config, s: State, id: JobId, now: Time): set<JobId>
    requires id in s.jobs
  {
    set k | k in s.jobs && k != id && Eligible(s.jobs[k], now, cfg.lockTimeout)
            && !Before(s.jobs[id].availableAt, id, s.jobs[k].availableAt, k)
  }

  // The protocol actions a transaction-level action amounts to.
  ghost function Abstract(cfg: Config, t: TxState, x: TxAction): seq<Action>
    requires TxKeyed(t)
  {
    match x
    case SelectForClaim(_, _, _) => []
    case CommitClaim(w) =>
      if w in t.open && t.open[w].ClaimTx? then
        [Claim(w, t.open[w].id, t.open[w].now, Overtaken(cfg, t.base, t.open[w].id, t.open[w].now))]
      else []
    case SelectForFail(w) =>
      var p := PhaseOf(t.base, w);
      if w !in t.open && Failing(p) && !GuardHolds(t.base, w, p.job) then [Finalise(w, t.base.clock)] else []
    case CommitFail(w, now) => if FailureReady(t, w, now) then [Finalise(w, now)] else []
    case Abort(w) => [Crash(w)]
    case Statement(a) =>
      if Proceeds(t, a) then [a] else []
  }

  // A committed claim is the protocol's claim of the row it selected: the row is
  // still eligible and unclaimed, because it was locked all the time.
  lemma CommitClaimRefines(cfg: Config, s: State, w: WorkerId, tx: Transaction)
    requires WellKeyed(s) && tx.ClaimTx? && Holding(cfg, s, w, tx)
    ensures ClaimFires(cfg, s, w, tx.id, tx.now, Overtaken(cfg, s, tx.id, tx.now))
    ensures CommittedClaim(s, w, tx) == ApplyClaim(cfg, s, w, tx.id, tx.now, Overtaken(cfg, s, tx.id, tx.now))
  {
    assert IsChoice(s.jobs, tx.now, cfg.lockTimeout, Overtaken(cfg, s, tx.id, tx.now), tx.id);
  }

  lemma CommitFailRefines(cfg: Config, s: State, w: WorkerId, tx: Transaction, now: Time)
    requires WellKeyed(s) && tx.FailTx? && Holding(cfg, s, w, tx) && tx.since <= now <= s.clock
    ensures CommittedFailure(s, w, tx, now) == ApplyFinalise(s, w, now) && GuardHolds(s, w, tx.id)
  {
  }

  // The action does not write the row that v's transaction holds.
  ghost predicate Spares(cfg: Config, s: State, a: Action, v: WorkerId, tx: Transaction) {
    !ActsFor(a, v) && !Claims(cfg, s, a, tx.id) && !Refreshes(s, a, tx.id) && !Ends(s, a, tx.id)
  }

  lemma HoldingKept(cfg: Config, s: State, a: Action, v: WorkerId, tx: Transaction)
    requires Inv(cfg, s) && Holding(cfg, s, v, tx) && Spares(cfg, s, a, v, tx)
    ensures Holding(cfg, Apply(cfg, s, a), v, tx)
  {
    var t := Apply(cfg, s, a);
    OthersKeepPhase(cfg, s, a, v);
    assert Rows(s)[tx.id] == tx.row;
    assert tx.row.terminalAt.None? by {
      assert JobInv(cfg, s, tx.id);
    }
    StepFrame(cfg, s, a, tx.id);
    assert tx.id in t.jobs && Rows(t)[tx.id] == t.jobs[tx.id];
  }

  // What a transaction-level action leaves behind in the table and among the open transactions.
  lemma TxInvFrom(cfg: Config, t: TxState, a: Action, open: map<WorkerId, Transaction>)
    requires TxInv(cfg, t) && Reversible(cfg.codec)
    requires forall v :: v in open ==> v in t.open && open[v] == t.open[v] && Spares(cfg, t.base, a, v, open[v])
    ensures TxInv(cfg, TxState(Apply(cfg, t.base, a), open))
  {
    StepInv(cfg, t.base, a);
    forall v | v in open
      ensures Holding(cfg, Apply(cfg, t.base, a), v, open[v])
    {
      HoldingKept(cfg, t.base, a, v, open[v]);
    }
  }

  lemma OneMoreLock(t: TxState, w: WorkerId, tx: Transaction)
    requires Exclusive(t.open) && tx.id !in Locked(t)
    ensures Exclusive(t.open[w := tx])
  {
    assert forall v :: v in t.open ==> t.open[v].id in Locked(t);
  }

  lemma SelectKeeps(cfg: Config, t: TxState, w: WorkerId, tx: Transaction)
    requires TxInv(cfg, t) && w !in t.open && tx.id !in Locked(t) && Holding(cfg, t.base, w, tx)
    ensures TxInv(cfg, t.(open := t.open[w := tx]))
  {
    OneMoreLock(t, w, tx);
  }

  lemma ClaimSelectRefines(cfg: Config, t: TxState, w: WorkerId, id: JobId, now: Time)
    requires TxInv(cfg, t)
    ensures TxInv(cfg, TxApply(cfg, t, SelectForClaim(w, id, now)))
    ensures TxApply(cfg, t, SelectForClaim(w, id, now)).base == t.base
  {
    if CanSelect(cfg, t, w, id, now) {
      SelectKeeps(cfg, t, w, ClaimTx(id, t.base.jobs[id], now, t.base.jobs, Locked(t)));
    }
  }

  lemma CrashSpares(cfg: Config, t: TxState, w: WorkerId)
    ensures forall v :: v in t.open - {w} ==> Spares(cfg, t.base, Crash(w), v, t.open[v])
  {
  }

  lemma AbortKeepsInv(cfg: Config, t: TxState, w: WorkerId)
    requires TxInv(cfg, t) && Reversible(cfg.codec)
    ensures TxInv(cfg, TxState(Apply(cfg, t.base, Crash(w)), t.open - {w}))
  {
    CrashSpares(cfg, t, w);
    TxInvFrom(cfg, t, Crash(w), t.open - {w});
  }

  lemma AbortDone(cfg: Config, t: TxState, w: WorkerId)
    requires TxKeyed(t)
    ensures TxApply(cfg, t, Abort(w)) == TxState(Apply(cfg, t.base, Crash(w)), t.open - {w})
    ensures Run(cfg, t.base, [Crash(w)]) == Apply(cfg, t.base, Crash(w))
  {
    RunSingle(cfg, t.base, Crash(w));
  }

  lemma AbortRefines(cfg: Config, t: TxState, w: WorkerId)
    requires TxInv(cfg, t) && Reversible(cfg.codec)
    ensures TxInv(cfg, TxApply(cfg, t, Abort(w)))
    ensures TxApply(cfg, t, Abort(w)).base == Run(cfg, t.base, [Crash(w)])
  {
    AbortKeepsInv(cfg, t, w);
    AbortDone(cfg, t, w);
  }

  lemma ClaimCommitted(cfg: Config, t: TxState, w: WorkerId)
    requires TxKeyed(t) && w in t.open && t.open[w].ClaimTx? && Holding(cfg, t.base, w, t.open[w])
    ensures var tx := t.open[w];
            TxApply(cfg, t, CommitClaim(w)) ==
            TxState(Apply(cfg, t.base, Claim(w, tx.id, tx.now, Overtaken(cfg, t.base, tx.id, tx.now))), t.open - {w})
  {
    CommitClaimRefines(cfg, t.base, w, t.open[w]);
  }

  // A committing worker writes its own row, which no other transaction holds.
  lemma CommitSparesOthers(cfg: Config, t: TxState, a: Action, w: WorkerId)
    requires w in t.open && Exclusive(t.open)
    requires (a.Claim? && a.worker == w && a.id == t.open[w].id)
             || (a.Finalise? && a.worker == w
                 && (Active(PhaseOf(t.base, w)) ==> PhaseOf(t.base, w).job == t.open[w].id))
    ensures forall v :: v in t.open - {w} ==> Spares(cfg, t.base, a, v, t.open[v])
  {
    forall v | v in t.open - {w}
      ensures Spares(cfg, t.base, a, v, t.open[v])
    {
      assert t.open[v].id != t.open[w].id;
    }
  }

  lemma ClaimStepRefines(cfg: Config, t: TxState, w: WorkerId)
    requires TxInv(cfg, t) && Reversible(cfg.codec) && w in t.open && t.open[w].ClaimTx?
    ensures TxInv(cfg, TxApply(cfg, t, CommitClaim(w)))
    ensures TxApply(cfg, t, CommitClaim(w)).base == Run(cfg, t.base, Abstract(cfg, t, CommitClaim(w)))
  {
    var tx := t.open[w];
    var a := Claim(w, tx.id, tx.now, Overtaken(cfg, t.base, tx.id, tx.now));
    ClaimCommitted(cfg, t, w);
    assert TxInv(cfg, TxState(Apply(cfg, t.base, a), t.open - {w})) by {
      CommitSparesOthers(cfg, t, a, w);
      TxInvFrom(cfg, t, a, t.open - {w});
    }
    RunSingle(cfg, t.base, a);
  }

  lemma FailKeepsInv(cfg: Config, t: TxState, w: WorkerId, now: Time)
    requires TxInv(cfg, t) && Reversible(cfg.codec) && FailureReady(t, w, now)
    ensures TxInv(cfg, TxState(Apply(cfg, t.base, Finalise(w, now)), t.open - {w}))
  {
    CommitSparesOthers(cfg, t, Finalise(w, now), w);
    TxInvFrom(cfg, t, Finalise(w, now), t.open - {w});
  }

  lemma FailCommitted(cfg: Config, t: TxState, w: WorkerId, now: Time)
    requires TxKeyed(t) && FailureReady(t, w, now) && Holding(cfg, t.base, w, t.open[w])
    ensures TxApply(cfg, t, CommitFail(w, now)) == TxState(Apply(cfg, t.base, Finalise(w, now)), t.open - {w})
    ensures TxApply(cfg, t, CommitFail(w, now)).base == Run(cfg, t.base, Abstract(cfg, t, CommitFail(w, now)))
  {
    CommitFailRefines(cfg, t.base, w, t.open[w], now);
    RunSingle(cfg, t.base, Finalise(w, now));
  }

  lemma FailStepRefines(cfg: Config, t: TxState, w: WorkerId, now: Time)
    requires TxInv(cfg, t) && Reversible(cfg.codec) && FailureReady(t, w, now)
    ensures TxInv(cfg, TxApply(cfg, t, CommitFail(w, now)))
    ensures TxApply(cfg, t, CommitFail(w, now)).base == Run(cfg, t.base, Abstract(cfg, t, CommitFail(w, now)))
  {
    FailKeepsInv(cfg, t, w, now);
    FailCommitted(cfg, t, w, now);
  }

  // The owner's latest reading is the time of its lock, which is past.
  lemma ReadIsPast(cfg: Config, s: State, w: WorkerId)
    requires Inv(cfg, s) && Failing(PhaseOf(s, w)) && GuardHolds(s, w, PhaseOf(s, w).job)
    ensures PhaseOf(s, w).read <= s.clock
  {
    var j := PhaseOf(s, w).job;
    var r, h := s.jobs[j], s.history[j];
    assert Rows(s)[j] == r;
    assert PhaseInv(cfg, w, PhaseOf(s, w), r, h) by {
      assert WorkerInv(cfg, s, w);
    }
    assert Lifecycle(cfg, s.clock, r, h) by {
      assert JobInv(cfg, s, j);
    }
  }

  lemma MissSparesAll(cfg: Config, t: TxState, w: WorkerId)
    requires w !in t.open && Failing(PhaseOf(t.base, w)) && !GuardHolds(t.base, w, PhaseOf(t.base, w).job)
    ensures forall v :: v in t.open ==> Spares(cfg, t.base, Finalise(w, t.base.clock), v, t.open[v])
  {
  }

  lemma MissKeepsInv(cfg: Config, t: TxState, w: WorkerId)
    requires TxInv(cfg, t) && Reversible(cfg.codec)
    requires w !in t.open && Failing(PhaseOf(t.base, w)) && !GuardHolds(t.base, w, PhaseOf(t.base, w).job)
    ensures TxInv(cfg, TxState(Apply(cfg, t.base, Finalise(w, t.base.clock)), t.open))
  {
    MissSparesAll(cfg, t, w);
    TxInvFrom(cfg, t, Finalise(w, t.base.clock), t.open);
  }

  lemma GuardMissed(cfg: Config, t: TxState, w: WorkerId)
    requires TxKeyed(t)
    requires w !in t.open && Failing(PhaseOf(t.base, w)) && !GuardHolds(t.base, w, PhaseOf(t.base, w).job)
    ensures TxApply(cfg, t, SelectForFail(w)) == TxState(Apply(cfg, t.base, Finalise(w, t.base.clock)), t.open)
  {
  }

  // The row no longer matches: nothing is locked and the pass is over.
  lemma GuardMissRefines(cfg: Config, t: TxState, w: WorkerId)
    requires TxInv(cfg, t) && Reversible(cfg.codec)
    requires w !in t.open && Failing(PhaseOf(t.base, w)) && !GuardHolds(t.base, w, PhaseOf(t.base, w).job)
    ensures TxInv(cfg, TxApply(cfg, t, SelectForFail(w)))
    ensures TxApply(cfg, t, SelectForFail(w)).base == Run(cfg, t.base, [Finalise(w, t.base.clock)])
  {
    GuardMissed(cfg, t, w);
    MissKeepsInv(cfg, t, w);
    RunSingle(cfg, t.base, Finalise(w, t.base.clock));
  }

  lemma FailLocked(cfg: Config, t: TxState, w: WorkerId)
    requires TxKeyed(t) && w !in t.open && Failing(PhaseOf(t.base, w))
    requires GuardHolds(t.base, w, PhaseOf(t.base, w).job)
    ensures var j := PhaseOf(t.base, w).job;
            TxApply(cfg, t, SelectForFail(w)) ==
            if j in Locked(t) then t else t.(open := t.open[w := FailTx(j, t.base.jobs[j], t.base.clock)])
    ensures Abstract(cfg, t, SelectForFail(w)) == []
  {
  }

  lemma FailLockRefines(cfg: Config, t: TxState, w: WorkerId)
    requires TxInv(cfg, t) && w !in t.open && Failing(PhaseOf(t.base, w))
    requires GuardHolds(t.base, w, PhaseOf(t.base, w).job)
    ensures TxInv(cfg, TxApply(cfg, t, SelectForFail(w)))
    ensures TxApply(cfg, t, SelectForFail(w)).base == t.base
  {
    var j := PhaseOf(t.base, w).job;
    FailLocked(cfg, t, w);
    if j !in Locked(t) {
      ReadIsPast(cfg, t.base, w);
      SelectKeeps(cfg, t, w, FailTx(j, t.base.jobs[j], t.base.clock));
    }
  }

  lemma FailSelectRefines(cfg: Config, t: TxState, w: WorkerId)
    requires TxInv(cfg, t) && Reversible(cfg.codec)
    ensures TxInv(cfg, TxApply(cfg, t, SelectForFail(w)))
    ensures TxApply(cfg, t, SelectForFail(w)).base == Run(cfg, t.base, Abstract(cfg, t, SelectForFail(w)))
  {
    var p := PhaseOf(t.base, w);
    if w !in t.open && Failing(p) {
      if GuardHolds(t.base, w, p.job) {
        FailLockRefines(cfg, t, w);
      } else {
        GuardMissRefines(cfg, t, w);
      }
    }
  }

  lemma StatementWaits(cfg: Config, t: TxState, a: Action)
    requires TxKeyed(t) && !Proceeds(t, a)
    ensures TxApply(cfg, t, Statement(a)) == t && Run(cfg, t.base, Abstract(cfg, t, Statement(a))) == t.base
  {
  }

  lemma StatementSpares(cfg: Config, t: TxState, a: Action)
    requires Proceeds(t, a)
    ensures forall v :: v in t.open ==> Spares(cfg, t.base, a, v, t.open[v])
  {
    forall v | v in t.open
      ensures Spares(cfg, t.base, a, v, t.open[v])
    {
      assert t.open[v].id in Locked(t);
    }
  }

  lemma StatementKeepsInv(cfg: Config, t: TxState, a: Action)
    requires TxInv(cfg, t) && Reversible(cfg.codec) && Proceeds(t, a)
    ensures TxInv(cfg, TxState(Apply(cfg, t.base, a), t.open))
  {
    StatementSpares(cfg, t, a);
    TxInvFrom(cfg, t, a, t.open);
  }

  lemma StatementDone(cfg: Config, t: TxState, a: Action)
    requires TxKeyed(t) && Proceeds(t, a)
    ensures TxApply(cfg, t, Statement(a)) == TxState(Apply(cfg, t.base, a), t.open)
    ensures Run(cfg, t.base, Abstract(cfg, t, Statement(a))) == Apply(cfg, t.base, a)
  {
    RunSingle(cfg, t.base, a);
  }

  lemma StatementRefines(cfg: Config, t: TxState, a: Action)
    requires TxInv(cfg, t) && Reversible(cfg.codec)
    ensures TxInv(cfg, TxApply(cfg, t, Statement(a)))
    ensures TxApply(cfg, t, Statement(a)).base == Run(cfg, t.base, Abstract(cfg, t, Statement(a)))
  {
    if Proceeds(t, a) {
      StatementKeepsInv(cfg, t, a);
      StatementDone(cfg, t, a);
    } else {
      StatementWaits(cfg, t, a);
    }
  }

  // Every transaction-level step keeps the locks exclusive and does to the table
  // exactly what its protocol actions do.
  lemma TxStepRefines(cfg: Config, t: TxState, x: TxAction)
    requires TxInv(cfg, t) && Reversible(cfg.codec)
    ensures TxInv(cfg, TxApply(cfg, t, x))
    ensures TxApply(cfg, t, x).base == Run(cfg, t.base, Abstract(cfg, t, x))
  {
    match x
    case SelectForClaim(w, id, now) => ClaimSelectRefines(cfg, t, w, id, now);
    case CommitClaim(w) =>
      if w in t.open && t.open[w].ClaimTx? {
        ClaimStepRefines(cfg, t, w);
      }
    case SelectForFail(w) => FailSelectRefines(cfg, t, w);
    case CommitFail(w, now) =>
      if FailureReady(t, w, now) {
        FailStepRefines(cfg, t, w, now);
      }
    case Abort(w) => AbortRefines(cfg, t, w);
    case Statement(a) => StatementRefines(cfg, t, a);
  }

  ghost function TxRun(cfg: Config, t: TxState, steps: seq<TxAction>): TxState
    requires TxInv(cfg, t) && Reversible(cfg.codec)
    decreases |steps|
  {
    if steps == [] then t
    else
      TxStepRefines(cfg, t, steps[0]);
      TxRun(cfg, TxApply(cfg, t, steps[0]), steps[1..])
  }

  ghost function AbstractRun(cfg: Config, t: TxState, steps: seq<TxAction>): seq<Action>
    requires TxInv(cfg, t) && Reversible(cfg.codec)
    decreases |steps|
  {
    if steps == [] then []
    else
      TxStepRefines(cfg, t, steps[0]);
      Abstract(cfg, t, steps[0]) + AbstractRun(cfg, TxApply(cfg, t, steps[0]), steps[1..])
  }

  // The table after any transaction-level run is the table after a run of the
  // protocol, so everything proved of the protocol's runs holds here too; and no
  // row is ever held by two open transactions.
  lemma {:induction false} RowLocksRefineProtocol(cfg: Config, t: TxState, steps: seq<TxAction>)
    requires TxInv(cfg, t) && Reversible(cfg.codec)
    ensures TxInv(cfg, TxRun(cfg, t, steps))
    ensures TxRun(cfg, t, steps).base == Run(cfg, t.base, AbstractRun(cfg, t, steps))
    decreases |steps|
  {
    if steps != [] {
      TxStepRefines(cfg, t, steps[0]);
      var next := TxApply(cfg, t, steps[0]);
      RowLocksRefineProtocol(cfg, next, steps[1..]);
      RunAppend(cfg, t.base, Abstract(cfg, t, steps[0]), AbstractRun(cfg, next, steps[1..]));
    }
  }

  // None of the steps commits or aborts the transaction of w.
  predicate LeavesOpen(w: WorkerId, steps: seq<TxAction>) {
    steps == [] || (steps[0] != CommitClaim(w) && steps[0] != Abort(w) && LeavesOpen(w, steps[1..]))
  }

  lemma TxRunStep(cfg: Config, t: TxState, steps: seq<TxAction>)
    requires TxInv(cfg, t) && Reversible(cfg.codec) && steps != []
    requires TxInv(cfg, TxApply(cfg, t, steps[0]))
    ensures TxRun(cfg, t, steps) == TxRun(cfg, TxApply(cfg, t, steps[0]), steps[1..])
  {
  }

  lemma StepStaysOpen(cfg: Config, t: TxState, w: WorkerId, x: TxAction)
    requires TxKeyed(t) && w in t.open && t.open[w].ClaimTx? && x != CommitClaim(w) && x != Abort(w)
    ensures w in TxApply(cfg, t, x).open && TxApply(cfg, t, x).open[w] == t.open[w]
  {
  }

  lemma {:induction false} StaysOpen(cfg: Config, t: TxState, w: WorkerId, steps: seq<TxAction>)
    requires TxInv(cfg, t) && Reversible(cfg.codec) && w in t.open && t.open[w].ClaimTx?
    requires LeavesOpen(w, steps)
    ensures w in TxRun(cfg, t, steps).open && TxRun(cfg, t, steps).open[w] == t.open[w]
    decreases |steps|
  {
    if steps != [] {
      var next := TxApply(cfg, t, steps[0]);
      var rest := steps[1..];
      assert TxInv(cfg, next) by {
        TxStepRefines(cfg, t, steps[0]);
      }
      StepStaysOpen(cfg, t, w, steps[0]);
      StaysOpen(cfg, next, w, rest);
      TxRunStep(cfg, t, steps);
    }
  }

  // The claim that commits takes the oldest row that was eligible and unlocked
  // when it selected, and nobody wrote that row in between.
  lemma CommittedClaimWasOldest(cfg: Config, before: TxState, w: WorkerId, id: JobId, now: Time, steps: seq<TxAction>)
    requires TxInv(cfg, before) && Reversible(cfg.codec) && CanSelect(cfg, before, w, id, now)
    requires LeavesOpen(w, steps)
    ensures TxInv(cfg, TxApply(cfg, before, SelectForClaim(w, id, now)))
    ensures var selected := TxApply(cfg, before, SelectForClaim(w, id, now));
            var after := TxRun(cfg, selected, steps);
            && IsChoice(before.base.jobs, now, cfg.lockTimeout, Locked(before), id)
            && id in after.base.jobs && after.base.jobs[id] == before.base.jobs[id]
            && ClaimFires(cfg, after.base, w, id, now, Overtaken(cfg, after.base, id, now))
  {
    TxStepRefines(cfg, before, SelectForClaim(w, id, now));
    var selected := TxApply(cfg, before, SelectForClaim(w, id, now));
    StaysOpen(cfg, selected, w, steps);
    var after := TxRun(cfg, selected, steps);
    RowLocksRefineProtocol(cfg, selected, steps);
    CommitClaimRefines(cfg, after.base, w, selected.open[w]);
  }
}
