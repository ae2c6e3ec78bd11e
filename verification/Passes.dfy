/** Short runs in which nobody interferes: a submission, and one pass of one worker. */
module Passes {
  import opened Common
  import opened JobRows
  import opened Snapshots
  import opened Protocol
  import opened ProtocolFrames

  // A submission that commits right after it drew its id.
  function Submission(id: JobId, snapshot: Snapshot, now: Time): seq<Action> {
    [Draw, Enqueue(id, snapshot, now)]
  }

  lemma FirstSubmission(cfg: Config, start: Time, snapshot: Snapshot)
    requires cfg.codec.accepts(snapshot)
    ensures var s := Run(cfg, Init(start), Submission(1, snapshot, start));
            && s.jobs == map[1 := NewJob(cfg.codec.encode(snapshot), cfg.maxAttempts, start)]
            && s.history.Keys == {1} && s.nextId == 2 && s.clock == start
            && s.logs == map[1 := LogRow(true, Queued, start)] && s.workers == map[] && s.purged == map[]
  {
    RunPair(cfg, Init(start), Draw, Enqueue(1, snapshot, start));
  }

  lemma SecondSubmission(cfg: Config, s: State, snapshot: Snapshot, now: Time)
    requires WellKeyed(s) && cfg.codec.accepts(snapshot) && s.nextId == 2 && s.history.Keys == {1} && now <= s.clock
    ensures var t := Run(cfg, s, Submission(2, snapshot, now));
            && t.jobs == s.jobs[2 := NewJob(cfg.codec.encode(snapshot), cfg.maxAttempts, now)]
            && t.workers == s.workers && t.clock == s.clock
  {
    RunPair(cfg, s, Draw, Enqueue(2, snapshot, now));
  }

  // A pass up to the transaction that ends it; every other row is skipped.
  function SendActions(s: State, w: WorkerId, j: JobId, outcome: Outcome): seq<Action> {
    [Claim(w, j, s.clock, s.jobs.Keys - {j}), Decode(w, true), SendReturns(w, outcome), JoinHeartbeat(w)]
  }

  function PassActions(s: State, w: WorkerId, j: JobId, outcome: Outcome): seq<Action> {
    SendActions(s, w, j, outcome) + [Finalise(w, s.clock)]
  }

  lemma RunFour(cfg: Config, s: State, a: Action, b: Action, c: Action, d: Action)
    requires WellKeyed(s)
    ensures Run(cfg, s, [a, b, c, d]) == Apply(cfg, Apply(cfg, Apply(cfg, Apply(cfg, s, a), b), c), d)
  {
    RunTwo(cfg, s, a, b, [c, d]);
    assert [a, b] + [c, d] == [a, b, c, d];
    RunPair(cfg, Apply(cfg, Apply(cfg, s, a), b), c, d);
  }

  // t is s with worker w in phase p and row for job j, at the same time.
  ghost predicate Midway(s: State, t: State, w: WorkerId, p: Phase, j: JobId, row: Job) {
    && WellKeyed(t) && j in t.jobs
    && t.jobs == s.jobs[j := row] && t.workers == s.workers[w := p]
    && t.logs == s.logs && t.clock == s.clock && t.history.Keys == s.history.Keys && t.purged == s.purged
    && t.nextId == s.nextId
  }

  lemma UpdateStep(s: State, t: State, w: WorkerId, p: Phase, q: Phase, j: JobId, row: Job, next: Job, h: History)
    requires Midway(s, t, w, p, j, row) && Active(p) && Active(q) && q.job == j
    ensures Rows(t)[j] == row && PhaseOf(t, w) == p && t.jobs[j] == row
    ensures WellKeyed(Update(t, w, q, j, next, h)) && Midway(s, Update(t, w, q, j, next, h), w, q, j, next)
  {
    assert t.workers[w := q] == s.workers[w := q];
    assert t.jobs[j := next] == s.jobs[j := next];
  }

  lemma ClaimStep(cfg: Config, s: State, w: WorkerId, j: JobId)
    requires WellKeyed(s) && PhaseOf(s, w).Idle? && j in s.jobs && Eligible(s.jobs[j], s.clock, cfg.lockTimeout)
    ensures var row := ClaimedBy(s.jobs[j], w, s.clock);
            Midway(s, Apply(cfg, s, Claim(w, j, s.clock, s.jobs.Keys - {j})), w,
                   Claimed(j, row.attempts, row.payload, s.clock), j, row)
  {
    assert ClaimFires(cfg, s, w, j, s.clock, s.jobs.Keys - {j});
  }

  lemma DecodeStep(cfg: Config, s: State, t: State, w: WorkerId, p: Phase, j: JobId, row: Job)
    requires Midway(s, t, w, p, j, row) && p.Claimed? && p.job == j && cfg.codec.decode(p.payload).Ok?
    ensures Midway(s, Apply(cfg, t, Decode(w, true)), w,
                   Sending(j, p.claim, cfg.codec.decode(p.payload).value, false, p.read), j, row)
  {
    var read := cfg.codec.decode(p.payload).value;
    UpdateStep(s, t, w, p, Sending(j, p.claim, read, false, p.read), j, row, row,
               t.history[j].(sends := t.history[j].sends[p.claim := read]));
  }

  lemma ReturnStep(cfg: Config, s: State, t: State, w: WorkerId, p: Phase, j: JobId, row: Job, outcome: Outcome)
    requires Midway(s, t, w, p, j, row) && p.Sending? && p.job == j && !p.lost
    ensures Midway(s, Apply(cfg, t, SendReturns(w, outcome)), w, Returned(j, p.claim, outcome, false, p.read), j, row)
  {
    var q, h := Returned(j, p.claim, outcome, false, p.read), AfterReturn(t.history[j], p.claim, outcome);
    UpdateStep(s, t, w, p, q, j, row, row, h);
    assert ApplySendReturns(t, w, outcome) == Update(t, w, q, j, row, h);
  }

  lemma JoinStep(cfg: Config, s: State, t: State, w: WorkerId, p: Phase, j: JobId, row: Job)
    requires Midway(s, t, w, p, j, row) && p.Returned? && p.job == j && !p.lost
    ensures Midway(s, Apply(cfg, t, JoinHeartbeat(w)), w, Finalising(j, p.claim, p.outcome, p.read), j, row)
  {
  }

  lemma FinaliseStep(cfg: Config, s: State, t: State, w: WorkerId, p: Phase, j: JobId, row: Job)
    requires Midway(s, t, w, p, j, row) && p.Finalising? && p.job == j && OwnedBy(row, w) && p.read <= s.clock
    ensures var final := FinalRow(p, row, s.clock);
            Midway(s, Apply(cfg, t, Finalise(w, s.clock)), w, Logging(j, p.claim, final.status), j, final)
  {
    var final := FinalRow(p, row, s.clock);
    var q, h := Logging(j, p.claim, final.status), AfterFinal(t.history[j], p.claim, final);
    UpdateStep(s, t, w, p, q, j, row, final, h);
    assert ApplyFinalise(t, w, s.clock) == Update(t, w, q, j, final, h);
  }

  // Nobody disturbs the pass until its message is sent.
  lemma UndisturbedSend(cfg: Config, s: State, w: WorkerId, j: JobId, outcome: Outcome)
    requires WellKeyed(s) && PhaseOf(s, w).Idle? && j in s.jobs && Eligible(s.jobs[j], s.clock, cfg.lockTimeout)
    requires cfg.codec.decode(s.jobs[j].payload).Ok?
    ensures var row := ClaimedBy(s.jobs[j], w, s.clock);
            Midway(s, Run(cfg, s, SendActions(s, w, j, outcome)), w, Finalising(j, row.attempts, outcome, s.clock), j,
                row)
  {
    var a := SendActions(s, w, j, outcome);
    RunFour(cfg, s, a[0], a[1], a[2], a[3]);
    var row := ClaimedBy(s.jobs[j], w, s.clock);
    var s1 := Apply(cfg, s, a[0]);
    ClaimStep(cfg, s, w, j);
    var snapshot := cfg.codec.decode(row.payload).value;
    DecodeStep(cfg, s, s1, w, Claimed(j, row.attempts, row.payload, s.clock), j, row);
    var s2 := Apply(cfg, s1, a[1]);
    ReturnStep(cfg, s, s2, w, Sending(j, row.attempts, snapshot, false, s.clock), j, row, outcome);
    var s3 := Apply(cfg, s2, a[2]);
    JoinStep(cfg, s, s3, w, Returned(j, row.attempts, outcome, false, s.clock), j, row);
  }

  // At the end of such a pass the row differs from the one before in one more attempt
  // and in what the end of a claim changes.
  lemma PassSettles(before: Job, w: WorkerId, p: Phase, now: Time)
    requires p.Finalising?
    ensures IsSettled(p, before.(attempts := before.attempts + 1), FinalRow(p, ClaimedBy(before, w, now), now), now)
  {
    FinalRowSettles(p, ClaimedBy(before, w, now), now);
  }

  // A pass that nobody disturbs ends the job as the outcome of the send says.
  lemma UndisturbedPass(cfg: Config, s: State, w: WorkerId, j: JobId, outcome: Outcome)
    requires WellKeyed(s) && PhaseOf(s, w).Idle? && j in s.jobs && Eligible(s.jobs[j], s.clock, cfg.lockTimeout)
    requires cfg.codec.decode(s.jobs[j].payload).Ok?
    ensures var claimed := ClaimedBy(s.jobs[j], w, s.clock);
            var row := FinalRow(Finalising(j, claimed.attempts, outcome, s.clock), claimed, s.clock);
            Midway(s, Run(cfg, s, PassActions(s, w, j, outcome)), w, Logging(j, claimed.attempts, row.status), j, row)
  {
    UndisturbedSend(cfg, s, w, j, outcome);
    var sent := SendActions(s, w, j, outcome);
    var t := Run(cfg, s, sent);
    var row := ClaimedBy(s.jobs[j], w, s.clock);
    RunAppend(cfg, s, sent, [Finalise(w, s.clock)]);
    RunSingle(cfg, t, Finalise(w, s.clock));
    FinaliseStep(cfg, s, t, w, Finalising(j, row.attempts, outcome, s.clock), j, row);
  }
}
