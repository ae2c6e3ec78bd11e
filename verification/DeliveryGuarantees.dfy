/** What holds of every job in every run of the delivery protocol. */
module DeliveryGuarantees {
  import opened Common
  import opened JobRows
  import opened Snapshots
  import opened Protocol
  import opened ProtocolInvariant
  import opened ProtocolFrames

  // ---- lifecycle ----

  // The stored payload is the accepted snapshot exactly while the job can still
  // be sent; lock and terminal fields are set exactly in their states.
  lemma LifecycleHolds(cfg: Config, s: State, j: JobId)
    requires Reachable(cfg, s) && Reversible(cfg.codec) && j in s.jobs
    ensures var r := s.jobs[j];
            && (r.payload.Some? <==> r.status.Queued? || r.status.Processing?)
            && (r.payload.Some? ==> cfg.codec.decode(r.payload) == Ok(s.history[j].accepted))
            && (r.lockedAt.Some? <==> r.status.Processing?) && (r.lockedBy.Some? <==> r.status.Processing?)
            && (r.terminalAt.Some? <==> Terminal(r.status))
            && (r.deliveredAt.Some? <==> r.status.Delivered?)
  {
    ReachableInv(cfg, s);
    assert JobInv(cfg, s, j) && Rows(s)[j] == s.jobs[j];
  }

  // Every send that any worker ever started, or is about to finish, carries the
  // snapshot accepted with the job.
  lemma SendsUseAcceptedSnapshot(cfg: Config, s: State, j: JobId, claim: nat)
    requires Reachable(cfg, s) && Reversible(cfg.codec) && j in s.history
    requires claim in s.history[j].sends
    ensures s.history[j].sends[claim] == s.history[j].accepted && 1 <= claim <= |s.history[j].claims|
  {
    ReachableInv(cfg, s);
    assert JobInv(cfg, s, j);
  }

  lemma {:induction false} HistoryGrows(cfg: Config, s: State, actions: seq<Action>, j: JobId)
    requires WellKeyed(s) && j in s.history
    ensures Grows(s.history[j], Run(cfg, s, actions).history[j])
    decreases |actions|
  {
    if actions != [] {
      StepFrame(cfg, s, actions[0], j);
      HistoryGrows(cfg, Apply(cfg, s, actions[0]), actions[1..], j);
    }
  }

  // A final row never changes again; purging only moves it.
  lemma {:induction false} FinalStatesAbsorb(cfg: Config, s: State, actions: seq<Action>, j: JobId)
    requires WellKeyed(s) && j in s.history && Terminal(Rows(s)[j].status)
    ensures Rows(Run(cfg, s, actions))[j] == Rows(s)[j]
    decreases |actions|
  {
    if actions != [] {
      FinalRowFixed(cfg, s, actions[0], j);
      FinalStatesAbsorb(cfg, Apply(cfg, s, actions[0]), actions[1..], j);
    }
  }

  // ---- sends ----

  lemma SendsWithinClaims(r: Job, h: History)
    requires Accounting(r, h)
    ensures |h.returned| <= 1 + |h.reclaims| && |h.sends.Keys| <= |h.claims|
  {
    BoundedSetSize(h.returned + h.requeues, 1, r.attempts);
    assert h.returned !! h.requeues;
    BoundedSetSize(h.sends.Keys, 1, r.attempts);
  }

  // A job's normally returning sends number at most one more than the stale locks
  // taken over; a delivered job was sent under its last claim, the one that
  // completed it.
  lemma SendMultiplicity(cfg: Config, s: State, j: JobId)
    requires Reachable(cfg, s) && Reversible(cfg.codec) && j in s.history
    ensures var h := s.history[j];
            && |h.returned| <= 1 + |h.reclaims|
            && |h.sends.Keys| <= |h.claims|
            && (Rows(s)[j].status.Delivered? ==> |h.claims| in h.returned && |h.claims| in h.sends)
  {
    ReachableInv(cfg, s);
    assert JobInv(cfg, s, j);
    SendsWithinClaims(Rows(s)[j], s.history[j]);
  }

  // ---- sends and take-overs, counted over the actions ----

  // A send of job j that returns normally.
  predicate Returns(s: State, a: Action, j: JobId) {
    a.SendReturns? && PhaseOf(s, a.worker).Sending? && PhaseOf(s, a.worker).job == j && a.outcome.Accepted?
  }

  // A claim of job j that finds it processing.
  ghost predicate TakesOver(cfg: Config, s: State, a: Action, j: JobId) {
    Claims(cfg, s, a, j) && s.jobs[j].status.Processing?
  }

  ghost function ReturnCount(cfg: Config, s: State, actions: seq<Action>, j: JobId): nat
    requires WellKeyed(s)
    decreases |actions|
  {
    if actions == [] then 0
    else (if Returns(s, actions[0], j) then 1 else 0) + ReturnCount(cfg, Apply(cfg, s, actions[0]), actions[1..], j)
  }

  ghost function TakeOverCount(cfg: Config, s: State, actions: seq<Action>, j: JobId): nat
    requires WellKeyed(s)
    decreases |actions|
  {
    if actions == [] then 0
    else
      (if TakesOver(cfg, s, actions[0], j) then 1 else 0)
        + TakeOverCount(cfg, Apply(cfg, s, actions[0]), actions[1..], j)
  }

  function ReturnedOf(s: State, j: JobId): set<nat> {
    if j in s.history then s.history[j].returned else {}
  }

  function ReclaimsOf(s: State, j: JobId): set<nat> {
    if j in s.history then s.history[j].reclaims else {}
  }

  lemma FreshCounts(cfg: Config, s: State, a: Action, j: JobId)
    requires WellKeyed(s) && j !in s.history
    ensures ReturnedOf(Apply(cfg, s, a), j) == {} && ReclaimsOf(Apply(cfg, s, a), j) == {}
    ensures !Returns(s, a, j) && !Claims(cfg, s, a, j)
  {
    if j in Apply(cfg, s, a).history {
      KeysStep(cfg, s, a);
      EnteredRow(cfg, s, a);
    }
  }

  lemma ReturnRecorded(s: State, w: WorkerId, outcome: Outcome, j: JobId)
    requires WellKeyed(s) && j in s.history
    ensures ApplySendReturns(s, w, outcome).history[j].returned ==
            s.history[j].returned + if Returns(s, SendReturns(w, outcome), j) then {PhaseOf(s, w).claim} else {}
  {
  }

  lemma SendingClaim(cfg: Config, w: WorkerId, p: Phase, r: Job, h: History)
    requires p.Sending? && PhaseInv(cfg, w, p, r, h)
    ensures p.claim !in h.returned
  {
  }

  // The claim of a send under way has not returned before.
  lemma SendsReturnOnce(cfg: Config, s: State, w: WorkerId)
    requires Inv(cfg, s) && PhaseOf(s, w).Sending?
    ensures PhaseOf(s, w).claim !in s.history[PhaseOf(s, w).job].returned
  {
    var p := PhaseOf(s, w);
    assert WorkerInv(cfg, s, w);
    SendingClaim(cfg, w, p, Rows(s)[p.job], s.history[p.job]);
  }

  lemma OneMoreMember(a: set<nat>, x: nat)
    requires x !in a
    ensures |a + {x}| == |a| + 1
  {
  }

  lemma ReturnRecordedCount(cfg: Config, s: State, a: Action, j: JobId)
    requires WellKeyed(s) && j in s.history && a.SendReturns?
    requires Returns(s, a, j) ==> PhaseOf(s, a.worker).claim !in s.history[j].returned
    ensures |ReturnedOf(Apply(cfg, s, a), j)| == |ReturnedOf(s, j)| + (if Returns(s, a, j) then 1 else 0)
  {
    ReturnRecorded(s, a.worker, a.outcome, j);
    assert Apply(cfg, s, a) == ApplySendReturns(s, a.worker, a.outcome);
    if Returns(s, a, j) {
      OneMoreMember(s.history[j].returned, PhaseOf(s, a.worker).claim);
    }
  }

  lemma OthersRecordNoReturn(cfg: Config, s: State, a: Action, j: JobId)
    requires WellKeyed(s) && j in s.history && !a.SendReturns?
    ensures ReturnedOf(Apply(cfg, s, a), j) == ReturnedOf(s, j)
  {
    StepFrame(cfg, s, a, j);
  }

  lemma ReturnStepCounts(cfg: Config, s: State, a: Action, j: JobId)
    requires Inv(cfg, s)
    ensures |ReturnedOf(Apply(cfg, s, a), j)| == |ReturnedOf(s, j)| + (if Returns(s, a, j) then 1 else 0)
  {
    if j !in s.history {
      FreshCounts(cfg, s, a, j);
    } else if a.SendReturns? {
      if Returns(s, a, j) {
        SendsReturnOnce(cfg, s, a.worker);
      }
      ReturnRecordedCount(cfg, s, a, j);
    } else {
      OthersRecordNoReturn(cfg, s, a, j);
    }
  }

  lemma ClaimRecorded(cfg: Config, s: State, a: Action, j: JobId)
    requires WellKeyed(s) && Claims(cfg, s, a, j)
    ensures Apply(cfg, s, a).history[j] == AfterClaim(s.history[j], a.worker, s.jobs[j])
  {
  }

  lemma NextClaimIsNew(cfg: Config, s: State, j: JobId)
    requires Inv(cfg, s) && j in s.jobs
    ensures s.jobs[j].attempts + 1 !in s.history[j].reclaims
  {
    assert JobInv(cfg, s, j) && Rows(s)[j] == s.jobs[j];
  }

  lemma ClaimRecordedCount(cfg: Config, s: State, a: Action, j: JobId)
    requires WellKeyed(s) && Claims(cfg, s, a, j) && s.jobs[j].attempts + 1 !in s.history[j].reclaims
    ensures |ReclaimsOf(Apply(cfg, s, a), j)| == |ReclaimsOf(s, j)| + (if TakesOver(cfg, s, a, j) then 1 else 0)
  {
    ClaimRecorded(cfg, s, a, j);
    if s.jobs[j].status.Processing? {
      OneMoreMember(s.history[j].reclaims, s.jobs[j].attempts + 1);
    }
  }

  lemma OthersRecordNoTakeOver(cfg: Config, s: State, a: Action, j: JobId)
    requires WellKeyed(s) && j in s.history && !Claims(cfg, s, a, j)
    ensures ReclaimsOf(Apply(cfg, s, a), j) == ReclaimsOf(s, j)
  {
    StepFrame(cfg, s, a, j);
  }

  lemma TakeOverStepCounts(cfg: Config, s: State, a: Action, j: JobId)
    requires Inv(cfg, s)
    ensures |ReclaimsOf(Apply(cfg, s, a), j)| == |ReclaimsOf(s, j)| + (if TakesOver(cfg, s, a, j) then 1 else 0)
  {
    if j !in s.history {
      FreshCounts(cfg, s, a, j);
    } else if Claims(cfg, s, a, j) {
      NextClaimIsNew(cfg, s, j);
      ClaimRecordedCount(cfg, s, a, j);
    } else {
      OthersRecordNoTakeOver(cfg, s, a, j);
    }
  }

  lemma {:induction false} CountsExactly(cfg: Config, s: State, actions: seq<Action>, j: JobId)
    requires Inv(cfg, s) && Reversible(cfg.codec)
    ensures var t := Run(cfg, s, actions);
            && |ReturnedOf(t, j)| == |ReturnedOf(s, j)| + ReturnCount(cfg, s, actions, j)
            && |ReclaimsOf(t, j)| == |ReclaimsOf(s, j)| + TakeOverCount(cfg, s, actions, j)
    decreases |actions|
  {
    if actions != [] {
      ReturnStepCounts(cfg, s, actions[0], j);
      TakeOverStepCounts(cfg, s, actions[0], j);
      StepInv(cfg, s, actions[0]);
      CountsExactly(cfg, Apply(cfg, s, actions[0]), actions[1..], j);
    }
  }

  // In any run, the sends of a job that return normally number at most one more than
  // the claims that find it processing.
  lemma SendsInRun(cfg: Config, start: Time, actions: seq<Action>, j: JobId)
    requires Reversible(cfg.codec)
    ensures ReturnCount(cfg, Init(start), actions, j) <= 1 + TakeOverCount(cfg, Init(start), actions, j)
  {
    var t := Run(cfg, Init(start), actions);
    InitInv(cfg, start);
    CountsExactly(cfg, Init(start), actions, j);
    if j in t.history {
      assert Reachable(cfg, t);
      SendMultiplicity(cfg, t, j);
    }
  }

  // Without a stale take-over no job is ever sent twice.
  lemma AtMostOneSendWithoutReclaim(cfg: Config, s: State, j: JobId)
    requires Reachable(cfg, s) && Reversible(cfg.codec) && j in s.history
    requires s.history[j].reclaims == {}
    ensures forall c, d :: c in s.history[j].returned && d in s.history[j].returned ==> c == d
  {
    SendMultiplicity(cfg, s, j);
    var h := s.history[j];
    forall c, d | c in h.returned && d in h.returned
      ensures c == d
    {
      if c != d {
        SubsetSize({c, d}, h.returned);
      }
    }
  }

  // ---- fencing without a token ----

  lemma HeldExactly(cfg: Config, w: WorkerId, p: Phase, r: Job, h: History)
    requires Active(p) && !p.Logging? && PhaseInv(cfg, w, p, r, h)
    ensures OwnedBy(r, w) <==> p.claim == |h.claims|
  {
  }

  lemma PurgedIsFinal(cfg: Config, t: State, j: JobId)
    requires Inv(cfg, t) && j in t.history
    ensures j in t.purged ==> Terminal(t.purged[j].status)
  {
    assert JobInv(cfg, t, j);
  }

  lemma GuardOnRow(t: State, w: WorkerId, j: JobId)
    requires WellKeyed(t) && j in t.history
    requires j in t.purged ==> Terminal(t.purged[j].status)
    ensures GuardHolds(t, w, j) <==> OwnedBy(Rows(t)[j], w)
  {
  }

  lemma GuardMeansCurrentClaim(cfg: Config, t: State, w: WorkerId)
    requires Inv(cfg, t) && Active(PhaseOf(t, w)) && !PhaseOf(t, w).Logging?
    ensures var p := PhaseOf(t, w); GuardHolds(t, w, p.job) <==> p.claim == |t.history[p.job].claims|
  {
    var p := PhaseOf(t, w);
    var r, h := Rows(t)[p.job], t.history[p.job];
    assert PhaseInv(cfg, w, p, r, h) by {
      assert WorkerInv(cfg, t, w);
    }
    HeldExactly(cfg, w, p, r, h);
    PurgedIsFinal(cfg, t, p.job);
    GuardOnRow(t, w, p.job);
  }

  // w has just claimed job j, as the action that led to s. As long as it is in
  // the same pass, the guard of its heartbeat, completion or failure passes
  // exactly when nobody has claimed the job since - although the guard looks at
  // status and lock owner only.
  lemma Fencing(cfg: Config, before: State, w: WorkerId, j: JobId, now: Time, skipped: set<JobId>, later: seq<Action>)
    requires Reachable(cfg, before) && Reversible(cfg.codec)
    requires ClaimFires(cfg, before, w, j, now, skipped)
    ensures var s := Apply(cfg, before, Claim(w, j, now, skipped));
            var t := Run(cfg, s, later);
            var p := PhaseOf(t, w);
            Active(p) && !p.Logging? && p.job == j && p.claim == |s.history[j].claims| ==>
              (GuardHolds(t, w, j) <==> t.history[j].claims == s.history[j].claims)
  {
    ReachableInv(cfg, before);
    var s := Apply(cfg, before, Claim(w, j, now, skipped));
    StepInv(cfg, before, Claim(w, j, now, skipped));
    var t := Run(cfg, s, later);
    RunInv(cfg, s, later);
    HistoryGrows(cfg, s, later, j);
    var p := PhaseOf(t, w);
    if Active(p) && !p.Logging? && p.job == j && p.claim == |s.history[j].claims| {
      GuardMeansCurrentClaim(cfg, t, w);
    }
  }

  // w made the claim of this pass, and it is the latest one and not ended yet.
  ghost predicate OwnLatestClaim(p: Phase, w: WorkerId, h: History)
    requires p.Unreadable? || p.Finalising?
  {
    p.claim == |h.claims| && p.claim > 0 && h.claims[p.claim - 1] == w && p.claim !in h.requeues
  }

  lemma OpenClaimIsLatest(cfg: Config, w: WorkerId, p: Phase, r: Job, h: History, now: Time)
    requires p.Unreadable? || p.Finalising?
    requires PhaseInv(cfg, w, p, r, h) && Accounting(r, h) && OwnedBy(r, w)
    ensures OwnLatestClaim(p, w, h)
    ensures FinalRow(p, r, now).status.Delivered? ==> p.claim in h.returned
  {
  }

  // A completion or failure that goes through ends the worker's own claim, which
  // is the latest one, and a completion follows a send that returned under it.
  lemma FinalisationIsOwnClaim(cfg: Config, s: State, w: WorkerId, now: Time)
    requires Reachable(cfg, s) && Reversible(cfg.codec)
    requires PhaseOf(s, w).Unreadable? || PhaseOf(s, w).Finalising?
    requires GuardHolds(s, w, PhaseOf(s, w).job)
    ensures OwnLatestClaim(PhaseOf(s, w), w, s.history[PhaseOf(s, w).job])
    ensures var p := PhaseOf(s, w);
            FinalRow(p, s.jobs[p.job], now).status.Delivered? ==> p.claim in s.history[p.job].returned
  {
    ReachableInv(cfg, s);
    var p := PhaseOf(s, w);
    var r, h := s.jobs[p.job], s.history[p.job];
    assert Accounting(r, h) by {
      assert JobInv(cfg, s, p.job) && Rows(s)[p.job] == r;
    }
    assert PhaseInv(cfg, w, p, r, h) by {
      assert WorkerInv(cfg, s, w) && Rows(s)[p.job] == r;
    }
    OpenClaimIsLatest(cfg, w, p, r, h, now);
  }

  // ---- conservation ----

  // How many of the actions accept a submission.
  ghost function AcceptedCount(cfg: Config, s: State, actions: seq<Action>): nat
    requires WellKeyed(s)
    decreases |actions|
  {
    if actions == [] then 0
    else (if Enters(cfg, s, actions[0]) then 1 else 0) + AcceptedCount(cfg, Apply(cfg, s, actions[0]), actions[1..])
  }

  lemma OneMoreJob(before: set<JobId>, after: set<JobId>, id: JobId)
    requires id !in before && after == before + {id}
    ensures |after| == |before| + 1
  {
  }

  // Every accepted submission is kept under an id of its own: there are as many
  // jobs as submissions were accepted, however many ids were drawn.
  lemma {:induction false} EveryAcceptedJobIsKept(cfg: Config, s: State, actions: seq<Action>)
    requires WellKeyed(s)
    ensures var t := Run(cfg, s, actions);
            |t.history| == |s.history| + AcceptedCount(cfg, s, actions) && s.history.Keys <= t.history.Keys
    decreases |actions|
  {
    if actions != [] {
      var a := actions[0];
      var t := Apply(cfg, s, a);
      KeysStep(cfg, s, a);
      if Enters(cfg, s, a) {
        OneMoreJob(s.history.Keys, t.history.Keys, a.id);
      }
      assert |t.history| == |t.history.Keys| && |s.history| == |s.history.Keys|;
      EveryAcceptedJobIsKept(cfg, t, actions[1..]);
    }
  }

  function InStatus(s: State, status: Status): set<JobId> {
    set j | j in s.jobs && s.jobs[j].status == status
  }

  lemma StatusesCover(t: State)
    ensures InStatus(t, Queued) + InStatus(t, Processing) + InStatus(t, Delivered) + InStatus(t, Failed) == t.jobs.Keys
    ensures InStatus(t, Queued) !! InStatus(t, Processing) !! InStatus(t, Delivered) !! InStatus(t, Failed)
  {
  }

  lemma DisjointSizes(a: set<JobId>, b: set<JobId>, c: set<JobId>, d: set<JobId>)
    requires a !! b !! c !! d
    ensures |a + b + c + d| == |a| + |b| + |c| + |d|
  {
    assert |a + b| == |a| + |b| && |a + b + c| == |a + b| + |c|;
  }

  lemma GroupsPartition(t: State)
    requires WellKeyed(t)
    ensures |InStatus(t, Queued)| + |InStatus(t, Processing)| + |InStatus(t, Delivered)| + |InStatus(t, Failed)|
              + |t.purged| == |t.history|
  {
    var q, p, d, f := InStatus(t, Queued), InStatus(t, Processing), InStatus(t, Delivered), InStatus(t, Failed);
    StatusesCover(t);
    DisjointSizes(q, p, d, f);
    assert |t.jobs.Keys + t.purged.Keys| == |t.jobs.Keys| + |t.purged.Keys|;
    assert |t.history.Keys| == |t.history| && |t.purged.Keys| == |t.purged|;
  }

  // After any run the accepted jobs are exactly the queued, processing, delivered,
  // failed and purged ones, each in one group; a purged job was final, had lost
  // its payload, and was past its retention age when it went.
  lemma Conservation(cfg: Config, start: Time, actions: seq<Action>)
    requires Reversible(cfg.codec)
    ensures var t := Run(cfg, Init(start), actions);
            && |InStatus(t, Queued)| + |InStatus(t, Processing)| + |InStatus(t, Delivered)| + |InStatus(t, Failed)|
                 + |t.purged| == AcceptedCount(cfg, Init(start), actions)
            && (forall j :: j in t.purged ==>
                  && Terminal(t.purged[j].status) && t.purged[j].payload.None?
                  && t.purgedAt[j] <= t.clock
                  && t.purged[j].terminalAt.Some? && t.purged[j].terminalAt.value < t.purgedAt[j] - cfg.jobRetention)
  {
    var t := Run(cfg, Init(start), actions);
    EveryAcceptedJobIsKept(cfg, Init(start), actions);
    GroupsPartition(t);
    ReachableInv(cfg, t);
    forall j | j in t.purged
      ensures && Terminal(t.purged[j].status) && t.purged[j].payload.None? && t.purgedAt[j] <= t.clock
              && t.purged[j].terminalAt.Some? && t.purged[j].terminalAt.value < t.purgedAt[j] - cfg.jobRetention
    {
      assert JobInv(cfg, t, j) && Rows(t)[j] == t.purged[j];
    }
  }

  // ---- attempts and termination ----

  lemma AttemptsBoundedIn(cfg: Config, s: State, j: JobId)
    requires Inv(cfg, s) && j in s.history
    ensures var r, h := Rows(s)[j], s.history[j];
            && r.attempts == |h.claims|
            && r.attempts <= Max(1, cfg.maxAttempts) + |h.reclaims|
            && |h.requeues| <= Max(0, cfg.maxAttempts - 1)
  {
    assert JobInv(cfg, s, j);
    BoundedSetSize(s.history[j].requeues, 1, Max(0, cfg.maxAttempts - 1));
  }

  // Attempts count the claims. They exceed the configured maximum at most by the
  // number of stale locks taken over, and a job is requeued fewer times than that maximum.
  lemma AttemptsBounded(cfg: Config, s: State, j: JobId)
    requires Reachable(cfg, s) && Reversible(cfg.codec) && j in s.history
    ensures var r, h := Rows(s)[j], s.history[j];
            && r.attempts == |h.claims|
            && r.attempts <= Max(1, cfg.maxAttempts) + |h.reclaims|
            && |h.requeues| <= Max(0, cfg.maxAttempts - 1)
  {
    ReachableInv(cfg, s);
    AttemptsBoundedIn(cfg, s, j);
  }

  // The claims and final transactions a job still has before it, when at most
  // reclaims stale locks are taken over in all.
  function RemainingWork(cfg: Config, reclaims: nat, r: Job): int {
    2 * (Max(1, cfg.maxAttempts) + reclaims - r.attempts) + (if r.status.Processing? then 1 else 0)
  }

  // The number of steps of a run that claim job j or end a claim of it.
  ghost function MoveCount(cfg: Config, s: State, actions: seq<Action>, j: JobId): nat
    requires WellKeyed(s) && j in s.history
    decreases |actions|
  {
    if actions == [] then 0
    else
      var t := Apply(cfg, s, actions[0]);
      (if Rows(t)[j].attempts != Rows(s)[j].attempts || Rows(t)[j].status != Rows(s)[j].status then 1 else 0)
        + MoveCount(cfg, t, actions[1..], j)
  }

  lemma {:induction false} EveryMoveUsesWork(cfg: Config, reclaims: nat, s: State, actions: seq<Action>, j: JobId)
    requires WellKeyed(s) && j in s.history
    ensures MoveCount(cfg, s, actions, j) <=
            RemainingWork(cfg, reclaims, Rows(s)[j]) - RemainingWork(cfg, reclaims, Rows(Run(cfg, s, actions))[j])
    decreases |actions|
  {
    if actions != [] {
      StatusSteps(cfg, s, actions[0], j);
      EveryMoveUsesWork(cfg, reclaims, Apply(cfg, s, actions[0]), actions[1..], j);
    }
  }

  lemma AttemptsBoundedAfter(cfg: Config, s: State, actions: seq<Action>, j: JobId)
    requires Reachable(cfg, s) && Reversible(cfg.codec) && j in s.history
    ensures var t := Run(cfg, s, actions);
            Rows(t)[j].attempts <= Max(1, cfg.maxAttempts) + |t.history[j].reclaims|
  {
    ReachableInv(cfg, s);
    RunInv(cfg, s, actions);
    AttemptsBoundedIn(cfg, Run(cfg, s, actions), j);
  }

  // However long a run goes on, if it takes over at most reclaims stale locks of
  // job j, it claims j or ends a claim of it only a bounded number of times.
  lemma JobsTerminate(cfg: Config, s: State, actions: seq<Action>, j: JobId)
    requires Reachable(cfg, s) && Reversible(cfg.codec) && j in s.history
    ensures var reclaims := |Run(cfg, s, actions).history[j].reclaims|;
            && MoveCount(cfg, s, actions, j) <= RemainingWork(cfg, reclaims, Rows(s)[j])
            && RemainingWork(cfg, reclaims, Rows(s)[j]) <= 2 * (Max(1, cfg.maxAttempts) + reclaims) + 1
  {
    var t := Run(cfg, s, actions);
    EveryMoveUsesWork(cfg, |t.history[j].reclaims|, s, actions, j);
    AttemptsBoundedAfter(cfg, s, actions, j);
  }
}
