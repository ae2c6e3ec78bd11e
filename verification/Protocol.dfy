/**
 The delivery queue as a transition system: a table of jobs shared by any
 number of workers, each of which runs one processing pass at a time.

 Every action is one transaction or one local step of a worker. An action whose
 guard does not hold leaves the state as it is, so every sequence of actions is a
 run, and a statement about all sequences is a statement about all interleavings.
 */
module Protocol {
  import opened Common
  import opened JobRows
  import opened Snapshots

  datatype Config = Config(
    codec: Codec,
    lockTimeout: int,
    maxAttempts: int,
    logRetention: int,
    jobRetention: int)

  // How the call that sends the message ended. Every exception other than a
  // permanent one is retried.
  datatype Outcome = Accepted | Temporary(error: string) | Permanent(error: string)

  // Where a worker stands in one processing pass. claim is the number of its
  // claim among all claims of the job; the program itself never sees it. read is
  // the clock reading the worker last wrote as the time of its lock.
  datatype Phase =
    | Idle
    | Claimed(job: JobId, claim: nat, payload: Option<string>, read: Time)
    | Unreadable(job: JobId, claim: nat, read: Time)
    | Sending(job: JobId, claim: nat, snapshot: Snapshot, lost: bool, read: Time)
    | Returned(job: JobId, claim: nat, outcome: Outcome, lost: bool, read: Time)
    | Finalising(job: JobId, claim: nat, outcome: Outcome, read: Time)
    | Logging(job: JobId, claim: nat, status: Status)
    | Crashed(last: Phase)

  predicate Active(p: Phase) {
    !p.Idle? && !p.Crashed?
  }

  // A reading that a worker takes later than the one it last wrote, and not
  // later than the moment its statement takes effect.
  predicate Reads(p: Phase, clock: Time, now: Time)
    requires Active(p) && !p.Logging?
  {
    p.read <= now <= clock
  }

  // What happened to one job so far. The program does not store it.
  datatype History = History(
    accepted: Snapshot,
    enqueuedAt: Time,
    claims: seq<WorkerId>,     // the claiming workers, in order
    reclaims: set<nat>,        // claims that took over a stale lock
    sends: map<nat, Snapshot>, // sends started, by claim
    returned: set<nat>,        // claims whose send returned normally
    requeues: set<nat>,        // claims that ended by queueing the job again
    logged: bool,              // the log write of the final status has landed
    overwritten: bool)         // a later log write replaced it

  datatype State = State(
    clock: Time,
    nextId: JobId,
    jobs: map<JobId, Job>,
    logs: map<JobId, LogRow>,
    workers: map<WorkerId, Phase>,
    history: map<JobId, History>,
    purged: map<JobId, Job>,
    purgedAt: map<JobId, Time>)

  // A process reads its clock first and its transaction commits later: now is the
  // reading, the clock of the state is the time of the commit. A submission also
  // draws its id before it commits, or is rolled back and leaves it unused.
  datatype Action =
    | Tick(elapsed: nat)
    | Draw
    | Enqueue(id: JobId, snapshot: Snapshot, now: Time)
    | Claim(worker: WorkerId, id: JobId, now: Time, skipped: set<JobId>)
    | Decode(worker: WorkerId, readable: bool)
    | Heartbeat(worker: WorkerId, now: Time)
    | HeartbeatError(worker: WorkerId, committed: bool, now: Time)
    | SendReturns(worker: WorkerId, outcome: Outcome)
    | JoinHeartbeat(worker: WorkerId)
    | Finalise(worker: WorkerId, now: Time)
    | WriteLog(worker: WorkerId)
    | Crash(worker: WorkerId)
    | Cleanup(now: Time)

  function Init(start: Time): State {
    State(start, 1, map[], map[], map[], map[], map[], map[])
  }

  function PhaseOf(s: State, w: WorkerId): Phase {
    if w in s.workers then s.workers[w] else Idle
  }

  // Every job ever accepted is in the table or was purged from it, never both.
  ghost predicate WellKeyed(s: State) {
    && s.jobs.Keys !! s.purged.Keys
    && s.history.Keys == s.jobs.Keys + s.purged.Keys
    && s.purgedAt.Keys == s.purged.Keys
    && s.logs.Keys <= s.history.Keys
    && (forall j :: j in s.history ==> j < s.nextId)
    && (forall w :: w in s.workers && Active(s.workers[w]) ==> s.workers[w].job in s.history)
  }

  // Time does not go back, no id is drawn twice, no accepted job is forgotten.
  ghost predicate Follows(s: State, t: State) {
    WellKeyed(t) && s.clock <= t.clock && s.nextId <= t.nextId && s.history.Keys <= t.history.Keys
  }

  // And no id is drawn, no job accepted.
  ghost predicate Keeps(s: State, t: State) {
    WellKeyed(t) && s.clock <= t.clock && s.nextId == t.nextId && s.history.Keys == t.history.Keys
  }

  // The rows of all jobs ever accepted; a purged row as it was when purged.
  function Rows(s: State): map<JobId, Job> {
    s.jobs + s.purged
  }

  // One worker's step on one job. A purged row is gone and stays as it was.
  function Update(s: State, w: WorkerId, p: Phase, j: JobId, row: Job, h: History): State {
    s.(workers := s.workers[w := p],
       jobs := if j in s.jobs then s.jobs[j := row] else s.jobs,
       history := s.history[j := h])
  }

  ghost predicate ClaimFires(cfg: Config, s: State, w: WorkerId, id: JobId, now: Time, skipped: set<JobId>) {
    PhaseOf(s, w).Idle? && now <= s.clock && IsChoice(s.jobs, now, cfg.lockTimeout, skipped, id)
  }

  // The row a worker's guarded update would change: present, processing, locked by it.
  predicate GuardHolds(s: State, w: WorkerId, j: JobId) {
    j in s.jobs && OwnedBy(s.jobs[j], w)
  }

  predicate Beating(p: Phase) {
    (p.Sending? || p.Returned?) && !p.lost
  }

  // The id was drawn from the sequence and not used by another submission.
  predicate Accepts(cfg: Config, s: State, id: JobId, snapshot: Snapshot, now: Time) {
    cfg.codec.accepts(snapshot) && now <= s.clock && 1 <= id < s.nextId && id !in s.history
  }

  function NewHistory(snapshot: Snapshot, now: Time): History {
    History(snapshot, now, [], {}, map[], {}, {}, false, false)
  }

  function ApplyEnqueue(cfg: Config, s: State, id: JobId, snapshot: Snapshot, now: Time): (t: State)
    requires WellKeyed(s)
    ensures Follows(s, t)
  {
    if Accepts(cfg, s, id, snapshot, now) then
      s.(jobs := s.jobs[id := NewJob(cfg.codec.encode(snapshot), cfg.maxAttempts, now)],
         logs := s.logs[id := LogRow(true, Queued, now)],
         history := s.history[id := NewHistory(snapshot, now)])
    else s
  }

  // A claim of a row that was still processing takes over a stale lock.
  function AfterClaim(h: History, w: WorkerId, row: Job): History {
    h.(claims := h.claims + [w],
       reclaims := if row.status.Processing? then h.reclaims + {row.attempts + 1} else h.reclaims)
  }

  ghost function ApplyClaim(cfg: Config, s: State, w: WorkerId, id: JobId, now: Time, skipped: set<JobId>): (t: State)
    requires WellKeyed(s)
    ensures Keeps(s, t)
  {
    if ClaimFires(cfg, s, w, id, now, skipped) then
      var row, h := s.jobs[id], s.history[id];
      var claim := row.attempts + 1;
      Update(s, w, Claimed(id, claim, row.payload, now), id, ClaimedBy(row, w, now), AfterClaim(h, w, row))
    else s
  }

  function ApplyDecode(cfg: Config, s: State, w: WorkerId, readable: bool): (t: State)
    requires WellKeyed(s)
    ensures Keeps(s, t)
  {
    match PhaseOf(s, w)
    case Claimed(j, claim, payload, read) =>
      (match cfg.codec.decode(payload)
       case Ok(snapshot) =>
         if readable then
           var h := s.history[j];
           Update(s, w, Sending(j, claim, snapshot, false, read), j, Rows(s)[j],
                  h.(sends := h.sends[claim := snapshot]))
         else
           s.(workers := s.workers[w := Unreadable(j, claim, read)])
       case Err(_) => s.(workers := s.workers[w := Unreadable(j, claim, read)]))
    case _ => s
  }

  // One refresh of the lock. A refresh that finds the job no longer owned ends
  // the heartbeat and marks ownership as lost.
  function AfterRefresh(s: State, w: WorkerId, now: Time, lost: bool): State
    requires Beating(PhaseOf(s, w)) && PhaseOf(s, w).job in s.jobs
  {
    var p := PhaseOf(s, w);
    s.(jobs := s.jobs[p.job := Refreshed(s.jobs[p.job], now)],
       workers := s.workers[w := p.(lost := lost, read := now)])
  }

  function ApplyHeartbeat(s: State, w: WorkerId, now: Time): (t: State)
    requires WellKeyed(s)
    ensures Keeps(s, t)
  {
    var p := PhaseOf(s, w);
    if Beating(p) then
      if !GuardHolds(s, w, p.job) then s.(workers := s.workers[w := p.(lost := true)])
      else if Reads(p, s.clock, now) then AfterRefresh(s, w, now, false)
      else s
    else s
  }

  // A refresh that raised, before or after its transaction committed.
  function ApplyHeartbeatError(s: State, w: WorkerId, committed: bool, now: Time): (t: State)
    requires WellKeyed(s)
    ensures Keeps(s, t)
  {
    var p := PhaseOf(s, w);
    if Beating(p) then
      if committed && GuardHolds(s, w, p.job) && Reads(p, s.clock, now) then AfterRefresh(s, w, now, true)
      else s.(workers := s.workers[w := p.(lost := true)])
    else s
  }

  function AfterReturn(h: History, claim: nat, outcome: Outcome): History {
    if outcome.Accepted? then h.(returned := h.returned + {claim}) else h
  }

  function ApplySendReturns(s: State, w: WorkerId, outcome: Outcome): (t: State)
    requires WellKeyed(s)
    ensures Keeps(s, t)
  {
    match PhaseOf(s, w)
    case Sending(j, claim, _, lost, read) =>
      var h := s.history[j];
      Update(s, w, Returned(j, claim, outcome, lost, read), j, Rows(s)[j],
             AfterReturn(h, claim, outcome))
    case _ => s
  }

  function ApplyJoin(s: State, w: WorkerId): (t: State)
    requires WellKeyed(s)
    ensures Keeps(s, t)
  {
    match PhaseOf(s, w)
    case Returned(j, claim, outcome, lost, read) =>
      s.(workers := s.workers[w := if lost then Idle else Finalising(j, claim, outcome, read)])
    case _ => s
  }

  const UNREADABLE_SNAPSHOT: string := "Queued delivery snapshot could not be decrypted or validated."

  // The row after the transaction that ends the pass.
  function FinalRow(p: Phase, row: Job, now: Time): Job
    requires p.Unreadable? || p.Finalising?
  {
    if p.Unreadable? then
      FailedJob(row, UNREADABLE_SNAPSHOT, false, now)
    else
      match p.outcome
      case Accepted => Completed(row, now)
      case Temporary(error) => FailedJob(row, error, true, now)
      case Permanent(error) => FailedJob(row, error, false, now)
  }

  function AfterFinal(h: History, claim: nat, row: Job): History {
    if row.status.Queued? then h.(requeues := h.requeues + {claim}) else h
  }

  function ApplyFinalise(s: State, w: WorkerId, now: Time): (t: State)
    requires WellKeyed(s)
    ensures Keeps(s, t)
  {
    var p := PhaseOf(s, w);
    if p.Unreadable? || p.Finalising? then
      if !GuardHolds(s, w, p.job) then s.(workers := s.workers[w := Idle])
      else if Reads(p, s.clock, now) then
        var row := FinalRow(p, s.jobs[p.job], now);
        Update(s, w, Logging(p.job, p.claim, row.status), p.job, row,
               AfterFinal(s.history[p.job], p.claim, row))
      else s
    else s
  }

  function AfterLog(h: History, status: Status): History {
    if Terminal(status) then h.(logged := true) else h.(overwritten := h.overwritten || h.logged)
  }

  function ApplyWriteLog(s: State, w: WorkerId): (t: State)
    requires WellKeyed(s)
    ensures Keeps(s, t)
  {
    match PhaseOf(s, w)
    case Logging(j, _, status) =>
      var h := s.history[j];
      Update(s, w, Idle, j, Rows(s)[j],
             AfterLog(h, status))
        .(logs := if j in s.logs then s.logs[j := s.logs[j].(success := status.Delivered?, status := status)]
            else s.logs)
    case _ => s
  }

  function ApplyCrash(s: State, w: WorkerId): (t: State)
    requires WellKeyed(s)
    ensures Keeps(s, t)
  {
    if PhaseOf(s, w).Crashed? then s
    else s.(workers := s.workers[w := Crashed(PhaseOf(s, w))])
  }

  // The rows a cleanup with this reading deletes.
  function Gone(jobs: map<JobId, Job>, now: Time, retention: int): map<JobId, Job> {
    map j | j in jobs && Expired(jobs[j], now, retention) :: jobs[j]
  }

  function KeptLogs(rows: map<JobId, LogRow>, now: Time, retention: int): (kept: map<JobId, LogRow>)
    ensures kept.Keys <= rows.Keys
  {
    map k | k in rows && !(rows[k].createdAt < now - retention) :: rows[k]
  }

  function ApplyCleanup(cfg: Config, s: State, now: Time): (t: State)
    requires WellKeyed(s)
    ensures Keeps(s, t)
  {
    if now <= s.clock then
      var gone := Gone(s.jobs, now, cfg.jobRetention);
      s.(jobs := s.jobs - gone.Keys,
         purged := s.purged + gone,
         purgedAt := s.purgedAt + map j | j in gone :: now,
         logs := KeptLogs(s.logs, now, cfg.logRetention))
    else s
  }

  ghost function Apply(cfg: Config, s: State, a: Action): (t: State)
    requires WellKeyed(s)
    ensures Follows(s, t)
  {
    match a
    case Tick(elapsed) => s.(clock := s.clock + elapsed)
    case Draw => s.(nextId := s.nextId + 1)
    case Enqueue(id, snapshot, now) => ApplyEnqueue(cfg, s, id, snapshot, now)
    case Claim(w, id, now, skipped) => ApplyClaim(cfg, s, w, id, now, skipped)
    case Decode(w, readable) => ApplyDecode(cfg, s, w, readable)
    case Heartbeat(w, now) => ApplyHeartbeat(s, w, now)
    case HeartbeatError(w, committed, now) => ApplyHeartbeatError(s, w, committed, now)
    case SendReturns(w, outcome) => ApplySendReturns(s, w, outcome)
    case JoinHeartbeat(w) => ApplyJoin(s, w)
    case Finalise(w, now) => ApplyFinalise(s, w, now)
    case WriteLog(w) => ApplyWriteLog(s, w)
    case Crash(w) => ApplyCrash(s, w)
    case Cleanup(now) => ApplyCleanup(cfg, s, now)
  }

  ghost function Run(cfg: Config, s: State, actions: seq<Action>): (t: State)
    requires WellKeyed(s)
    ensures WellKeyed(t) && s.clock <= t.clock && s.history.Keys <= t.history.Keys
    decreases |actions|
  {
    if actions == [] then s else Run(cfg, Apply(cfg, s, actions[0]), actions[1..])
  }

  lemma {:induction false} RunAppend(cfg: Config, s: State, first: seq<Action>, second: seq<Action>)
    requires WellKeyed(s)
    ensures Run(cfg, s, first + second) == Run(cfg, Run(cfg, s, first), second)
    decreases |first|
  {
    if first == [] {
      assert first + second == second;
    } else {
      assert (first + second)[1..] == first[1..] + second;
      RunAppend(cfg, Apply(cfg, s, first[0]), first[1..], second);
    }
  }

  lemma RunSingle(cfg: Config, s: State, a: Action)
    requires WellKeyed(s)
    ensures Run(cfg, s, [a]) == Apply(cfg, s, a)
  {
    assert Run(cfg, s, [a]) == Run(cfg, Apply(cfg, s, a), [a][1..]);
  }

  lemma RunOne(cfg: Config, s: State, a: Action, rest: seq<Action>)
    requires WellKeyed(s)
    ensures Run(cfg, s, [a] + rest) == Run(cfg, Apply(cfg, s, a), rest)
  {
    assert ([a] + rest)[1..] == rest;
  }

  lemma RunTwo(cfg: Config, s: State, a: Action, b: Action, rest: seq<Action>)
    requires WellKeyed(s)
    ensures Run(cfg, s, [a, b] + rest) == Run(cfg, Apply(cfg, Apply(cfg, s, a), b), rest)
  {
    assert [a, b] + rest == [a] + ([b] + rest);
    RunOne(cfg, s, a, [b] + rest);
    RunOne(cfg, Apply(cfg, s, a), b, rest);
  }

  lemma RunPair(cfg: Config, s: State, a: Action, b: Action)
    requires WellKeyed(s)
    ensures Run(cfg, s, [a, b]) == Apply(cfg, Apply(cfg, s, a), b)
  {
    RunTwo(cfg, s, a, b, []);
    assert [a, b] + [] == [a, b];
  }
}
