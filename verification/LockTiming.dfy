/** Time: how long an owner keeps its job, and when another worker can take it over. */
module LockTiming {
  import opened Common
  import opened JobRows
  import opened Snapshots
  import opened Protocol
  import opened ProtocolInvariant
  import opened ProtocolFrames
  import opened DeliveryGuarantees
  import opened QueueOrder

  // ---- timed exclusion ----

  // A statement of w commits that writes its lock or ends its claim, if w still owns the job.
  predicate OwnWrite(s: State, a: Action, w: WorkerId) {
    && (a.Heartbeat? || (a.HeartbeatError? && a.committed) || a.Finalise?) && a.worker == w
    && (if a.Finalise? then PhaseOf(s, w).Unreadable? || PhaseOf(s, w).Finalising? else Beating(PhaseOf(s, w)))
    && Reads(PhaseOf(s, w), s.clock, a.now)
  }

  predicate InPass(s: State, w: WorkerId, j: JobId) {
    Active(PhaseOf(s, w)) && !PhaseOf(s, w).Logging? && PhaseOf(s, w).job == j
  }

  // Through its pass on job j, up to and including the last of these actions, w
  // commits a write at most the lock timeout after the reading it wrote before;
  // last is the latest reading written so far.
  ghost predicate Diligent(cfg: Config, s: State, actions: seq<Action>, w: WorkerId, j: JobId, last: Time)
    requires WellKeyed(s)
    decreases |actions|
  {
    && actions != [] && InPass(s, w, j)
    && if OwnWrite(s, actions[0], w) then
         && s.clock - last <= cfg.lockTimeout
         && (|actions| == 1 || Diligent(cfg, Apply(cfg, s, actions[0]), actions[1..], w, j, actions[0].now))
       else
         Diligent(cfg, Apply(cfg, s, actions[0]), actions[1..], w, j, last)
  }

  // The guard of w on job j holds before each of these actions, and none of them claims j.
  ghost predicate StaysOwned(cfg: Config, s: State, actions: seq<Action>, w: WorkerId, j: JobId)
    requires WellKeyed(s)
    decreases |actions|
  {
    actions == []
    || (&& GuardHolds(s, w, j) && !Claims(cfg, s, actions[0], j)
        && (|actions| == 1 || StaysOwned(cfg, Apply(cfg, s, actions[0]), actions[1..], w, j)))
  }

  // Held by w with last as the time of its lock.
  predicate HeldSince(s: State, w: WorkerId, j: JobId, last: Time) {
    GuardHolds(s, w, j) && s.jobs[j].lockedAt == Some(last)
  }

  lemma {:induction false} DiligentIsOnTime(cfg: Config, s: State, actions: seq<Action>, w: WorkerId, j: JobId,
                                            last: Time)
    requires WellKeyed(s) && Diligent(cfg, s, actions, w, j, last)
    ensures s.clock - last <= cfg.lockTimeout
    decreases |actions|
  {
    if !OwnWrite(s, actions[0], w) {
      DiligentIsOnTime(cfg, Apply(cfg, s, actions[0]), actions[1..], w, j, last);
    }
  }

  // Only the owner itself can change a row that is not stale.
  lemma HeldRow(cfg: Config, s: State, a: Action, w: WorkerId, j: JobId, last: Time, n: Job)
    requires HeldSince(s, w, j, last) && s.clock - last <= cfg.lockTimeout
    requires RowEffect(cfg, s, a, j, s.jobs[j], n)
    ensures !Claims(cfg, s, a, j)
    ensures n == s.jobs[j] || OwnWrite(s, a, w)
  {
  }

  lemma WriteLands(cfg: Config, s: State, a: Action, w: WorkerId, j: JobId)
    requires WellKeyed(s) && GuardHolds(s, w, j) && InPass(s, w, j) && OwnWrite(s, a, w) && !a.Finalise?
    ensures var t := Apply(cfg, s, a); j in t.jobs && t.jobs[j] == Refreshed(s.jobs[j], a.now)
  {
  }

  lemma HeldStep(cfg: Config, s: State, a: Action, w: WorkerId, j: JobId, last: Time)
    requires Inv(cfg, s) && HeldSince(s, w, j, last) && InPass(s, w, j) && s.clock - last <= cfg.lockTimeout
    requires !(a.Finalise? && OwnWrite(s, a, w))
    ensures !Claims(cfg, s, a, j)
    ensures HeldSince(Apply(cfg, s, a), w, j, if OwnWrite(s, a, w) then a.now else last)
  {
    var t := Apply(cfg, s, a);
    assert Rows(s)[j] == s.jobs[j];
    assert s.jobs[j].terminalAt.None? by {
      assert JobInv(cfg, s, j);
    }
    StepFrame(cfg, s, a, j);
    assert j in t.jobs && Rows(t)[j] == t.jobs[j];
    HeldRow(cfg, s, a, w, j, last, t.jobs[j]);
    if OwnWrite(s, a, w) {
      WriteLands(cfg, s, a, w, j);
    }
  }

  lemma PassOver(cfg: Config, s: State, w: WorkerId, now: Time, j: JobId)
    requires WellKeyed(s) && OwnWrite(s, Finalise(w, now), w)
    ensures !InPass(Apply(cfg, s, Finalise(w, now)), w, j)
  {
  }

  // As long as each write of an owner, up to the transaction that ends its claim,
  // commits at most the lock timeout after the reading written before, nobody else
  // can claim its job and each of those writes goes through.
  lemma {:induction false} TimedExclusion(cfg: Config, s: State, actions: seq<Action>, w: WorkerId, j: JobId,
                                          last: Time)
    requires Inv(cfg, s) && Reversible(cfg.codec) && HeldSince(s, w, j, last)
    requires Diligent(cfg, s, actions, w, j, last)
    ensures StaysOwned(cfg, s, actions, w, j)
    decreases |actions|
  {
    var a := actions[0];
    DiligentIsOnTime(cfg, s, actions, w, j, last);
    if a.Finalise? && OwnWrite(s, a, w) {
      PassOver(cfg, s, w, a.now, j);
    } else {
      HeldStep(cfg, s, a, w, j, last);
      if |actions| > 1 {
        StepInv(cfg, s, a);
        TimedExclusion(cfg, Apply(cfg, s, a), actions[1..], w, j, if OwnWrite(s, a, w) then a.now else last);
      }
    }
  }

  // The bound is exact: an idle worker whose clock reads now can take the job
  // over if and only if more than the lock timeout has passed since the last write.
  lemma TakeOverExactlyWhenStale(cfg: Config, s: State, w: WorkerId, j: JobId, last: Time, v: WorkerId, now: Time)
    requires HeldSince(s, w, j, last) && s.jobs[j].availableAt <= now <= s.clock && PhaseOf(s, v).Idle?
    ensures (exists skipped :: ClaimFires(cfg, s, v, j, now, skipped)) <==> now - last > cfg.lockTimeout
  {
    if now - last > cfg.lockTimeout {
      assert ClaimFires(cfg, s, v, j, now, s.jobs.Keys - {j});
    }
  }

  // ---- no take-over in a whole run ----

  // From here on w stays in its pass on job j and its lock never becomes stale, until
  // its final transaction or the end of the run; last is the latest reading it wrote.
  ghost predicate KeepsLock(cfg: Config, s: State, actions: seq<Action>, w: WorkerId, j: JobId, last: Time)
    requires WellKeyed(s)
    decreases |actions|
  {
    && InPass(s, w, j) && s.clock - last <= cfg.lockTimeout
    && (|| actions == []
        || (actions[0].Finalise? && OwnWrite(s, actions[0], w))
        || KeepsLock(cfg, Apply(cfg, s, actions[0]), actions[1..], w, j,
                     if OwnWrite(s, actions[0], w) then actions[0].now else last))
  }

  lemma KeepsLockNext(cfg: Config, s: State, actions: seq<Action>, w: WorkerId, j: JobId, last: Time)
    requires WellKeyed(s) && InPass(s, w, j) && s.clock - last <= cfg.lockTimeout && actions != []
    requires (actions[0].Finalise? && OwnWrite(s, actions[0], w))
             || KeepsLock(cfg, Apply(cfg, s, actions[0]), actions[1..], w, j,
                          if OwnWrite(s, actions[0], w) then actions[0].now else last)
    ensures KeepsLock(cfg, s, actions, w, j, last)
  {
  }

  lemma DiligentNext(cfg: Config, s: State, actions: seq<Action>, w: WorkerId, j: JobId, last: Time)
    requires WellKeyed(s) && Diligent(cfg, s, actions, w, j, last) && actions[|actions| - 1].Finalise?
    requires !(actions[0].Finalise? && OwnWrite(s, actions[0], w))
    ensures |actions| > 1 && actions[1..][|actions| - 2].Finalise?
    ensures Diligent(cfg, Apply(cfg, s, actions[0]), actions[1..], w, j,
                     if OwnWrite(s, actions[0], w) then actions[0].now else last)
  {
  }

  // An owner that is diligent to its final transaction keeps its lock, however the run goes on.
  lemma {:induction false} DiligentKeepsLock(cfg: Config, s: State, actions: seq<Action>, whole: seq<Action>,
                                             w: WorkerId, j: JobId, last: Time)
    requires WellKeyed(s) && Diligent(cfg, s, actions, w, j, last) && actions[|actions| - 1].Finalise?
    requires actions <= whole
    ensures KeepsLock(cfg, s, whole, w, j, last)
    decreases |actions|
  {
    assert s.clock - last <= cfg.lockTimeout && InPass(s, w, j) by {
      DiligentIsOnTime(cfg, s, actions, w, j, last);
    }
    if !(actions[0].Finalise? && OwnWrite(s, actions[0], w)) {
      DiligentNext(cfg, s, actions, w, j, last);
      DiligentKeepsLock(cfg, Apply(cfg, s, actions[0]), actions[1..], whole[1..], w, j,
                        if OwnWrite(s, actions[0], w) then actions[0].now else last);
    }
    KeepsLockNext(cfg, s, whole, w, j, last);
  }

  // Every worker that claims job j keeps its lock from then on.
  ghost predicate OwnersKeepLock(cfg: Config, s: State, actions: seq<Action>, j: JobId)
    requires WellKeyed(s)
    decreases |actions|
  {
    actions == []
    || (var a, t := actions[0], Apply(cfg, s, actions[0]);
        && (Claims(cfg, s, a, j) ==> KeepsLock(cfg, t, actions[1..], a.worker, j, a.now))
        && OwnersKeepLock(cfg, t, actions[1..], j))
  }

  predicate IsHeld(s: State, j: JobId) {
    j in s.jobs && s.jobs[j].status.Processing?
  }

  // If somebody holds job j, it will keep its lock.
  ghost predicate HolderKeepsLock(cfg: Config, s: State, actions: seq<Action>, j: JobId)
    requires WellKeyed(s)
  {
    IsHeld(s, j) ==> exists w, last :: HeldSince(s, w, j, last) && KeepsLock(cfg, s, actions, w, j, last)
  }

  lemma ClaimHolds(cfg: Config, s: State, a: Action, j: JobId)
    requires WellKeyed(s) && Claims(cfg, s, a, j)
    ensures HeldSince(Apply(cfg, s, a), a.worker, j, a.now)
  {
  }

  lemma StaysUnheld(cfg: Config, s: State, a: Action, j: JobId)
    requires WellKeyed(s) && !IsHeld(s, j) && !Claims(cfg, s, a, j)
    ensures !IsHeld(Apply(cfg, s, a), j)
  {
    var t := Apply(cfg, s, a);
    if j in s.history && j in t.jobs {
      OnlyKnownRows(cfg, s, a, j);
      StatusSteps(cfg, s, a, j);
      assert Rows(s)[j] == s.jobs[j] && Rows(t)[j] == t.jobs[j];
    } else if j in t.jobs {
      FreshRow(cfg, s, a, j);
    }
  }

  lemma NoOtherClaims(cfg: Config, s: State, a: Action, j: JobId)
    requires WellKeyed(s) && !Claims(cfg, s, a, j)
    ensures ReclaimsOf(Apply(cfg, s, a), j) == ReclaimsOf(s, j)
  {
    if j in s.history {
      OthersRecordNoTakeOver(cfg, s, a, j);
    } else {
      FreshCounts(cfg, s, a, j);
    }
  }

  lemma EndUnholds(cfg: Config, s: State, a: Action, w: WorkerId, j: JobId)
    requires WellKeyed(s) && GuardHolds(s, w, j) && InPass(s, w, j) && a.Finalise? && OwnWrite(s, a, w)
    ensures !IsHeld(Apply(cfg, s, a), j)
  {
    FinaliseRows(s, w, a.now, j);
    assert Rows(s)[j] == s.jobs[j] && j in Apply(cfg, s, a).jobs;
    assert Rows(Apply(cfg, s, a))[j] == Apply(cfg, s, a).jobs[j];
  }

  // One step of the holder, or of anybody else, leaves job j held and kept, or unheld.
  lemma HolderStep(cfg: Config, s: State, actions: seq<Action>, w: WorkerId, j: JobId, last: Time)
    requires Inv(cfg, s) && HeldSince(s, w, j, last) && actions != [] && KeepsLock(cfg, s, actions, w, j, last)
    ensures !Claims(cfg, s, actions[0], j) && HolderKeepsLock(cfg, Apply(cfg, s, actions[0]), actions[1..], j)
  {
    var a := actions[0];
    if a.Finalise? && OwnWrite(s, a, w) {
      EndUnholds(cfg, s, a, w, j);
    } else {
      HeldStep(cfg, s, a, w, j, last);
    }
  }

  lemma HeldKept(cfg: Config, s: State, actions: seq<Action>, j: JobId)
    requires Inv(cfg, s) && actions != [] && HolderKeepsLock(cfg, s, actions, j) && IsHeld(s, j)
    ensures !Claims(cfg, s, actions[0], j) && HolderKeepsLock(cfg, Apply(cfg, s, actions[0]), actions[1..], j)
  {
    var w, last :| HeldSince(s, w, j, last) && KeepsLock(cfg, s, actions, w, j, last);
    HolderStep(cfg, s, actions, w, j, last);
  }

  lemma ClaimKept(cfg: Config, s: State, actions: seq<Action>, j: JobId)
    requires WellKeyed(s) && actions != [] && OwnersKeepLock(cfg, s, actions, j)
    requires !IsHeld(s, j) && Claims(cfg, s, actions[0], j)
    ensures HolderKeepsLock(cfg, Apply(cfg, s, actions[0]), actions[1..], j)
    ensures ReclaimsOf(Apply(cfg, s, actions[0]), j) == ReclaimsOf(s, j)
  {
    ClaimHolds(cfg, s, actions[0], j);
    ClaimRecorded(cfg, s, actions[0], j);
  }

  lemma KeptStep(cfg: Config, s: State, actions: seq<Action>, j: JobId)
    requires Inv(cfg, s) && actions != [] && OwnersKeepLock(cfg, s, actions, j) && HolderKeepsLock(cfg, s, actions, j)
    ensures HolderKeepsLock(cfg, Apply(cfg, s, actions[0]), actions[1..], j)
    ensures ReclaimsOf(Apply(cfg, s, actions[0]), j) == ReclaimsOf(s, j)
  {
    if IsHeld(s, j) {
      HeldKept(cfg, s, actions, j);
      NoOtherClaims(cfg, s, actions[0], j);
    } else if Claims(cfg, s, actions[0], j) {
      ClaimKept(cfg, s, actions, j);
    } else {
      StaysUnheld(cfg, s, actions[0], j);
      NoOtherClaims(cfg, s, actions[0], j);
    }
  }

  lemma {:induction false} NoTakeOverIn(cfg: Config, s: State, actions: seq<Action>, j: JobId)
    requires Inv(cfg, s) && Reversible(cfg.codec)
    requires OwnersKeepLock(cfg, s, actions, j) && HolderKeepsLock(cfg, s, actions, j)
    ensures ReclaimsOf(Run(cfg, s, actions), j) == ReclaimsOf(s, j)
    decreases |actions|
  {
    if actions != [] {
      KeptStep(cfg, s, actions, j);
      StepInv(cfg, s, actions[0]);
      NoTakeOverIn(cfg, Apply(cfg, s, actions[0]), actions[1..], j);
    }
  }

  // If every owner of job j keeps its lock to its final transaction, no run takes the
  // job over, and at most one send of it returns normally.
  lemma KeptLocksMeanOneSend(cfg: Config, start: Time, actions: seq<Action>, j: JobId)
    requires Reversible(cfg.codec) && OwnersKeepLock(cfg, Init(start), actions, j)
    ensures var t := Run(cfg, Init(start), actions);
            j in t.history ==>
              && t.history[j].reclaims == {}
              && forall c, d :: c in t.history[j].returned && d in t.history[j].returned ==> c == d
  {
    var t := Run(cfg, Init(start), actions);
    InitInv(cfg, start);
    NoTakeOverIn(cfg, Init(start), actions, j);
    if j in t.history {
      assert Reachable(cfg, t);
      AtMostOneSendWithoutReclaim(cfg, t, j);
    }
  }
}
