/** How often a job is attempted: when exactly the count passes the configured maximum. */
module Attempts {
  import opened Common
  import opened JobRows
  import opened Snapshots
  import opened Protocol
  import opened ProtocolInvariant
  import opened Passes

  // Every job may be attempted once, whatever the configuration says.
  function Limit(cfg: Config): int {
    Max(1, cfg.maxAttempts)
  }

  // A claim takes a job past its maximum exactly when it takes over the stale lock
  // of a job that has used all its attempts: the claim does not look at the maximum,
  // and a job in that position is never queued again.
  lemma ClaimExceedsExactly(cfg: Config, s: State, w: WorkerId, j: JobId, now: Time, skipped: set<JobId>)
    requires Reachable(cfg, s) && Reversible(cfg.codec) && ClaimFires(cfg, s, w, j, now, skipped)
    ensures ClaimedBy(s.jobs[j], w, now).attempts > Limit(cfg) <==>
            s.jobs[j].status.Processing? && s.jobs[j].attempts >= Limit(cfg)
  {
    ReachableInv(cfg, s);
    assert Accounting(s.jobs[j], s.history[j]) && s.jobs[j].maxAttempts == cfg.maxAttempts by {
      assert JobInv(cfg, s, j) && Rows(s)[j] == s.jobs[j];
    }
  }

  lemma LateClaimsAreTakeOvers(r: Job, h: History, limit: int)
    requires Accounting(r, h) && limit == Max(1, r.maxAttempts)
    ensures r.attempts > limit <==> exists c :: c in h.reclaims && c > limit
  {
    if r.attempts > limit {
      assert r.attempts in h.reclaims;
    }
  }

  // Over any run: the attempts of a job exceed the maximum exactly when one of its
  // claims beyond the maximum took over a stale lock.
  lemma AttemptsExceedExactly(cfg: Config, s: State, j: JobId)
    requires Reachable(cfg, s) && Reversible(cfg.codec) && j in s.history
    ensures Rows(s)[j].attempts > Limit(cfg) <==> exists c :: c in s.history[j].reclaims && c > Limit(cfg)
  {
    ReachableInv(cfg, s);
    assert Accounting(Rows(s)[j], s.history[j]) && Rows(s)[j].maxAttempts == cfg.maxAttempts by {
      assert JobInv(cfg, s, j);
    }
    LateClaimsAreTakeOvers(Rows(s)[j], s.history[j], Limit(cfg));
  }

  // ---- it happens, without any bound ----

  // The n-th of a sequence of worker ids.
  function Worker(n: nat): (w: WorkerId)
    ensures |w| == n
  {
    seq(n, i => 'w')
  }

  // Job 1 is held by the n-th worker after n claims; nobody else has come so far.
  ghost predicate ClaimedTimes(s: State, n: nat) {
    && WellKeyed(s) && 1 in s.jobs && s.jobs[1].status.Processing? && s.jobs[1].attempts == n
    && s.jobs[1].lockedAt.Some? && s.jobs[1].lockedAt.value <= s.clock && s.jobs[1].availableAt <= s.clock
    && forall w :: w in s.workers ==> |w| <= n
  }

  // Enough time for the lock to become stale.
  function Wait(cfg: Config): nat {
    Max(0, cfg.lockTimeout + 1)
  }

  lemma StaleAfterWait(cfg: Config, s: State, n: nat)
    requires ClaimedTimes(s, n)
    ensures var t := Apply(cfg, s, Tick(Wait(cfg)));
            PhaseOf(t, Worker(n + 1)).Idle? && t.jobs == s.jobs && t.workers == s.workers
            && Eligible(t.jobs[1], t.clock, cfg.lockTimeout)
  {
  }

  lemma NextTakesOver(cfg: Config, s: State, n: nat)
    requires ClaimedTimes(s, n)
    ensures var t := Apply(cfg, s, Tick(Wait(cfg)));
            ClaimedTimes(Apply(cfg, t, Claim(Worker(n + 1), 1, t.clock, t.jobs.Keys - {1})), n + 1)
  {
    var t := Apply(cfg, s, Tick(Wait(cfg)));
    StaleAfterWait(cfg, s, n);
    ClaimStep(cfg, t, Worker(n + 1), 1);
  }

  lemma FirstClaim(cfg: Config, start: Time, snapshot: Snapshot) returns (actions: seq<Action>)
    requires cfg.codec.accepts(snapshot)
    ensures ClaimedTimes(Run(cfg, Init(start), actions), 1)
  {
    var entry := Submission(1, snapshot, start);
    var s := Run(cfg, Init(start), entry);
    FirstSubmission(cfg, start, snapshot);
    ClaimStep(cfg, s, Worker(1), 1);
    var claim := Claim(Worker(1), 1, start, s.jobs.Keys - {1});
    actions := entry + [claim];
    RunAppend(cfg, Init(start), entry, [claim]);
    RunSingle(cfg, s, claim);
  }

  lemma OneMoreTakeOver(cfg: Config, s: State, n: nat) returns (actions: seq<Action>)
    requires ClaimedTimes(s, n)
    ensures ClaimedTimes(Run(cfg, s, actions), n + 1)
  {
    var t := Apply(cfg, s, Tick(Wait(cfg)));
    NextTakesOver(cfg, s, n);
    actions := [Tick(Wait(cfg)), Claim(Worker(n + 1), 1, t.clock, t.jobs.Keys - {1})];
    RunPair(cfg, s, actions[0], actions[1]);
  }

  // One worker after the other claims the job and disappears.
  lemma {:induction false} TakeOvers(cfg: Config, start: Time, snapshot: Snapshot, n: nat)
    returns (actions: seq<Action>)
    requires cfg.codec.accepts(snapshot) && n >= 1
    ensures ClaimedTimes(Run(cfg, Init(start), actions), n)
    decreases n
  {
    if n == 1 {
      actions := FirstClaim(cfg, start, snapshot);
    } else {
      var before := TakeOvers(cfg, start, snapshot, n - 1);
      var more := OneMoreTakeOver(cfg, Run(cfg, Init(start), before), n - 1);
      RunAppend(cfg, Init(start), before, more);
      actions := before + more;
    }
  }

  // Whatever the maximum and the lock timeout, some run attempts a job any number of times.
  lemma AttemptsUnbounded(cfg: Config, start: Time, snapshot: Snapshot, n: nat)
    requires cfg.codec.accepts(snapshot) && n >= 1
    ensures exists actions: seq<Action> ::
              var t := Run(cfg, Init(start), actions); 1 in t.jobs && t.jobs[1].attempts == n
  {
    var actions := TakeOvers(cfg, start, snapshot, n);
  }
}
