/**
 The worker program, run against the shared tables while every other process
 goes on. Each of its transactions is one action of the protocol; what the other
 processes do in between is any sequence of their actions.
 */
module Worker {
  import opened Common
  import opened JobRows
  import opened Snapshots
  import opened Protocol
  import opened ProtocolInvariant
  import opened ProtocolFrames
  import opened DeliveryGuarantees
  import opened PassShape
  import opened Database
  import opened DeliveryQueue

  // ---- what the local steps leave of the tables ----

  ghost predicate SameRows(s: State, t: State) {
    t.jobs == s.jobs && t.logs == s.logs && t.clock == s.clock
  }

  ghost predicate SameTables(s: State, t: State) {
    t.jobs == s.jobs && t.logs == s.logs && t.clock == s.clock && t.nextId == s.nextId
  }

  lemma DecodeTables(cfg: Config, s: State, w: WorkerId, readable: bool)
    requires WellKeyed(s) && PhaseOf(s, w).Claimed?
    ensures var t := ApplyDecode(cfg, s, w, readable);
            var p := PhaseOf(s, w);
            var snapshot := cfg.codec.decode(p.payload);
            && SameTables(s, t)
            && PhaseOf(t, w) == if readable && snapshot.Ok? then Sending(p.job, p.claim, snapshot.value, false, p.read)
                                else Unreadable(p.job, p.claim, p.read)
  {
    var j := PhaseOf(s, w).job;
    assert j in s.jobs ==> s.jobs[j := Rows(s)[j]] == s.jobs;
  }

  lemma ReturnTables(s: State, w: WorkerId, outcome: Outcome)
    requires WellKeyed(s) && PhaseOf(s, w).Sending?
    ensures var t := ApplySendReturns(s, w, outcome);
            var p := PhaseOf(s, w);
            SameTables(s, t) && PhaseOf(t, w) == Returned(p.job, p.claim, outcome, p.lost, p.read)
  {
    var j := PhaseOf(s, w).job;
    assert j in s.jobs ==> s.jobs[j := Rows(s)[j]] == s.jobs;
  }

  lemma JoinTables(s: State, w: WorkerId)
    requires WellKeyed(s) && PhaseOf(s, w).Returned?
    ensures var t := ApplyJoin(s, w);
            var p := PhaseOf(s, w);
            SameTables(s, t) && PhaseOf(t, w) == if p.lost then Idle else Finalising(p.job, p.claim, p.outcome, p.read)
  {
  }

  lemma LogTables(s: State, w: WorkerId)
    requires WellKeyed(s) && PhaseOf(s, w).Logging?
    ensures var t := ApplyWriteLog(s, w);
            var p := PhaseOf(s, w);
            && t.jobs == s.jobs && t.clock == s.clock && t.nextId == s.nextId && PhaseOf(t, w).Idle?
            && t.logs == if p.job in s.logs
                         then s.logs[p.job := s.logs[p.job].(success := p.status.Delivered?, status := p.status)]
                         else s.logs
  {
    var j := PhaseOf(s, w).job;
    assert j in s.jobs ==> s.jobs[j := Rows(s)[j]] == s.jobs;
  }

  lemma ClaimTables(cfg: Config, s: State, w: WorkerId, id: JobId, now: Time, skipped: set<JobId>)
    requires WellKeyed(s) && ClaimFires(cfg, s, w, id, now, skipped)
    ensures var t := ApplyClaim(cfg, s, w, id, now, skipped);
            var row := ClaimedBy(s.jobs[id], w, now);
            && t.jobs == s.jobs[id := row] && t.logs == s.logs && t.clock == s.clock && t.nextId == s.nextId
            && PhaseOf(t, w) == Claimed(id, row.attempts, row.payload, now)
  {
  }

  // Drawing the id and committing the submission are two actions of the protocol.
  lemma SubmissionTables(cfg: Config, s: State, id: JobId, snapshot: Snapshot, now: Time)
    requires WellKeyed(s)
    ensures SameRows(s, Apply(cfg, s, Draw)) && Apply(cfg, s, Draw).nextId == s.nextId + 1
    ensures Accepts(cfg, s, id, snapshot, now) ==>
              var t := ApplyEnqueue(cfg, s, id, snapshot, now);
              && id !in s.jobs && id !in s.logs && t.nextId == s.nextId
              && t.jobs == s.jobs[id := NewJob(cfg.codec.encode(snapshot), cfg.maxAttempts, now)]
              && t.logs == s.logs[id := LogRow(true, Queued, now)]
  {
  }

  lemma NoClaimTables(cfg: Config, s: State, w: WorkerId, now: Time, skipped: set<JobId>)
    requires WellKeyed(s) && NothingEligible(cfg, s.jobs, now, skipped)
    ensures !ClaimFires(cfg, s, w, 0, now, skipped) && ApplyClaim(cfg, s, w, 0, now, skipped) == s
  {
  }

  lemma RefreshTables(s: State, w: WorkerId, now: Time)
    requires WellKeyed(s) && Beating(PhaseOf(s, w)) && InTime(s, w, now)
    ensures var t := ApplyHeartbeat(s, w, now);
            var p := PhaseOf(s, w);
            && t.logs == s.logs && t.clock == s.clock && t.nextId == s.nextId
            && if GuardHolds(s, w, p.job) then
                 t.jobs == s.jobs[p.job := Refreshed(s.jobs[p.job], now)]
                     && PhaseOf(t, w) == p.(lost := false, read := now)
               else
                 t.jobs == s.jobs && PhaseOf(t, w) == p.(lost := true)
  {
  }

  lemma ErrorTables(s: State, w: WorkerId, committed: bool, now: Time)
    requires WellKeyed(s) && Beating(PhaseOf(s, w)) && InTime(s, w, now)
    ensures var t := ApplyHeartbeatError(s, w, committed, now);
            var p := PhaseOf(s, w);
            && t.logs == s.logs && t.clock == s.clock && t.nextId == s.nextId
            && t.jobs == (if committed && GuardHolds(s, w, p.job)
                          then s.jobs[p.job := Refreshed(s.jobs[p.job], now)] else s.jobs)
            && PhaseOf(t, w) == (if committed && GuardHolds(s, w, p.job) then p.(lost := true, read := now)
                                 else p.(lost := true))
  {
  }

  lemma FinaliseTables(s: State, w: WorkerId, now: Time)
    requires WellKeyed(s) && (PhaseOf(s, w).Unreadable? || PhaseOf(s, w).Finalising?) && InTime(s, w, now)
    ensures var t := ApplyFinalise(s, w, now);
            var p := PhaseOf(s, w);
            && t.logs == s.logs && t.clock == s.clock && t.nextId == s.nextId
            && if GuardHolds(s, w, p.job) then
                 var row := FinalRow(p, s.jobs[p.job], now);
                 t.jobs == s.jobs[p.job := row] && PhaseOf(t, w) == Logging(p.job, p.claim, row.status)
               else
                 t.jobs == s.jobs && PhaseOf(t, w).Idle?
  {
  }

  class Deployment {
    const cfg: Config
    const db: Tables
    // The protocol state the tables belong to, and the actions that led to it.
    ghost const start: Time
    ghost var model: State
    ghost var trace: seq<Action>

    // The tables are those of a run of the protocol.
    ghost predicate Valid()
      reads this, db
    {
      && Leads(cfg, start, trace, model)
      && db.clock == model.clock && db.nextJobId == model.nextId
      && db.jobs == model.jobs && db.logs == model.logs
    }

    // And w has kept to its program so far, with these events.
    ghost predicate Running(w: WorkerId, own: seq<Event>)
      reads this, db
    {
      Valid() && Performed(cfg, start, trace, w, own) && ReadBefore(PhaseOf(model, w), model.clock)
    }

    constructor (cfg: Config, now: Time)
      ensures Valid() && trace == [] && this.cfg == cfg && fresh(db)
    {
      this.cfg := cfg;
      db := new Tables(now);
      start, model, trace := now, Init(now), [];
      LeadsNowhere(cfg, now);
    }

    // So everything that holds of reachable states holds of the tables.
    lemma ValidIsReachable()
      requires Valid()
      ensures Reachable(cfg, model) && db.jobs == model.jobs && db.logs == model.logs
    {
      LeadsIsRun(cfg, start, trace, model);
    }

    // For example: no row can lose its snapshot while it can still be sent, and its
    // attempts are accounted for.
    lemma TablesKeepSnapshots(id: JobId)
      requires Valid() && Reversible(cfg.codec) && id in db.jobs
      ensures var r := db.jobs[id];
              && id in model.history
              && (r.payload.Some? <==> r.status.Queued? || r.status.Processing?)
              && (r.payload.Some? ==> cfg.codec.decode(r.payload) == Ok(model.history[id].accepted))
              && r.attempts <= Max(1, cfg.maxAttempts) + |model.history[id].reclaims|
    {
      ValidIsReachable();
      LifecycleHolds(cfg, model, id);
      AttemptsBounded(cfg, model, id);
      assert Rows(model)[id] == db.jobs[id];
    }

    // The other processes run for a while. Callers may rely on the contract only,
    // which allows every sequence of actions that are not actions of w.
    method OthersRun(ghost w: WorkerId)
      requires Valid()
      modifies this`model, this`trace, db
      ensures Valid() && old(trace) <= trace
      ensures forall i :: |old(trace)| <= i < |trace| ==> !ActsFor(trace[i], w)
    {
    }

    // w waits; meanwhile its phase and its own actions stay as they are.
    method Pause(ghost w: WorkerId, ghost own: seq<Event>)
      requires Running(w, own)
      modifies this`model, this`trace, db
      ensures Running(w, own) && PhaseOf(model, w) == PhaseOf(old(model), w) && old(model).clock <= model.clock
    {
      OthersRun(w);
      Paused(cfg, start, old(trace), old(model), trace, model, w, own);
    }

    // The bookkeeping of an action of w that the tables have just been through.
    ghost method Record(w: WorkerId, own: seq<Event>, a: Action)
      requires Leads(cfg, start, trace, model) && WellKeyed(model) && Performed(cfg, start, trace, w, own)
      requires ActsFor(a, w) && Performs(cfg, model, a)
      modifies this`model, this`trace
      ensures Leads(cfg, start, trace, model)
      ensures Performed(cfg, start, trace, w, own + [EventOf(cfg, old(model), w, a)])
      ensures model == Apply(cfg, old(model), a)
    {
      LeadsIsRun(cfg, start, trace, model);
      PerformedNext(cfg, start, trace, w, own, a);
      LeadsOn(cfg, start, trace, model, a);
      model := Apply(cfg, model, a);
      trace := trace + [a];
    }

    method Refresh(w: WorkerId, id: JobId, now: Time, ghost own: seq<Event>) returns (lost: bool)
      requires Running(w, own) && Beating(PhaseOf(model, w)) && PhaseOf(model, w).job == id
      requires Reads(PhaseOf(model, w), model.clock, now)
      modifies this`model, this`trace, db
      ensures Running(w, own + [Event(Heartbeat(w, now), PhaseOf(old(model), w), !lost)])
      ensures Beaten(PhaseOf(old(model), w), PhaseOf(model, w), lost)
    {
      LeadsIsRun(cfg, start, trace, model);
      RefreshTables(model, w, now);
      var stillOwned := RefreshJobHeartbeat(db, id, w, now);
      Record(w, own, Heartbeat(w, now));
      lost := !stillOwned;
    }

    // The bookkeeping of a heartbeat turn that raised, with or without its refresh.
    ghost method ErrorRecorded(w: WorkerId, own: seq<Event>, committed: bool, now: Time)
      requires Leads(cfg, start, trace, model) && Performed(cfg, start, trace, w, own)
      requires Beating(PhaseOf(model, w)) && Reads(PhaseOf(model, w), model.clock, now)
      requires db.clock == model.clock && db.nextJobId == model.nextId && db.logs == model.logs
      requires var id := PhaseOf(model, w).job;
               db.jobs == if committed && GuardHolds(model, w, id)
                          then model.jobs[id := Refreshed(model.jobs[id], now)] else model.jobs
      modifies this`model, this`trace
      ensures var p := PhaseOf(old(model), w);
              Running(w, own + [Event(HeartbeatError(w, committed, now), p, GuardHolds(old(model), w, p.job))])
      ensures Beaten(PhaseOf(old(model), w), PhaseOf(model, w), true)
    {
      LeadsIsRun(cfg, start, trace, model);
      ErrorTables(model, w, committed, now);
      Record(w, own, HeartbeatError(w, committed, now));
    }

    method FailingRefresh(w: WorkerId, id: JobId, committed: bool, now: Time, ghost own: seq<Event>)
      returns (ghost found: bool)
      requires Running(w, own) && Beating(PhaseOf(model, w)) && PhaseOf(model, w).job == id
      requires Reads(PhaseOf(model, w), model.clock, now)
      modifies this`model, this`trace, db
      ensures Running(w, own + [Event(HeartbeatError(w, committed, now), PhaseOf(old(model), w), found)])
      ensures Beaten(PhaseOf(old(model), w), PhaseOf(model, w), true)
    {
      LeadsIsRun(cfg, start, trace, model);
      found := GuardHolds(model, w, id);
      if committed {
        var _ := RefreshJobHeartbeat(db, id, w, now);
      }
      ErrorRecorded(w, own, committed, now);
    }

    // One turn of the heartbeat loop. Ownership is lost exactly when it raises or does
    // not find the job owned.
    method Beat(w: WorkerId, id: JobId, beat: Beat, ghost own: seq<Event>) returns (lost: bool, ghost e: Event)
      requires Running(w, own) && Beating(PhaseOf(model, w)) && PhaseOf(model, w).job == id
      modifies this`model, this`trace, db
      ensures Running(w, own + [e]) && IsBeat(e, w, beat) && e.phase == PhaseOf(old(model), w)
      ensures lost <==> Loses(e)
      ensures Beaten(PhaseOf(old(model), w), PhaseOf(model, w), lost)
    {
      var now := db.clock;
      Pause(w, own);
      match beat
      case Refreshes =>
        lost := Refresh(w, id, now, own);
        e := Event(Heartbeat(w, now), PhaseOf(old(model), w), !lost);
      case Raises(committed) =>
        ghost var found := FailingRefresh(w, id, committed, now, own);
        lost, e := true, Event(HeartbeatError(w, committed, now), PhaseOf(old(model), w), found);
    }

    // The heartbeat loop over these turns; it ends early when ownership is lost.
    method HeartbeatJob(w: WorkerId, id: JobId, beats: seq<Beat>, ghost own: seq<Event>)
      returns (lost: bool, ghost done: seq<Event>)
      requires Running(w, own) && Beating(PhaseOf(model, w)) && PhaseOf(model, w).job == id
      modifies this`model, this`trace, db
      ensures Running(w, own + done) && IsHeartbeat(done, w, beats, id, PhaseOf(old(model), w).claim)
      ensures lost <==> LostIn(done)
      ensures Beaten(PhaseOf(old(model), w), PhaseOf(model, w), lost)
    {
      lost, done := false, [];
      assert own + [] == own;
      ghost var claim := PhaseOf(model, w).claim;
      var i := 0;
      while i < |beats| && !lost
        invariant 0 <= i == |done| <= |beats|
        invariant Running(w, own + done) && IsHeartbeat(done, w, beats[..i], id, claim)
        invariant lost <==> LostIn(done)
        invariant Beaten(PhaseOf(old(model), w), PhaseOf(model, w), lost)
      {
        ghost var e;
        lost, e := Beat(w, id, beats[i], own + done);
        assert own + done + [e] == own + (done + [e]);
        OneMoreBeat(done, e, w, beats, i, id, claim);
        done, i := done + [e], i + 1;
      }
    }

    method Claim(w: WorkerId, now: Time, locked: set<JobId>, ghost own: seq<Event>)
      returns (claimed: Option<(JobId, Job)>)
      requires Running(w, own) && PhaseOf(model, w).Idle? && now <= model.clock
      modifies this`model, this`trace, db
      ensures claimed.None? ==>
                && Running(w, own + [Event(Action.Claim(w, 0, now, locked), Idle, false)]) && PhaseOf(model, w).Idle?
                && db.jobs == old(db.jobs) && NothingEligible(cfg, db.jobs, now, locked)
      ensures claimed.Some? ==>
                var (id, job) := claimed.value;
                && Running(w, own + [Event(Action.Claim(w, id, now, locked), Idle, true)])
                && PhaseOf(model, w) == Claimed(id, job.attempts, job.payload, now)
    {
      claimed := ClaimJob(db, w, now, cfg.lockTimeout, locked);
      LeadsIsRun(cfg, start, trace, model);
      if claimed.Some? {
        ClaimTables(cfg, model, w, claimed.value.0, now, locked);
        Record(w, own, Action.Claim(w, claimed.value.0, now, locked));
      } else {
        NoClaimTables(cfg, model, w, now, locked);
        Record(w, own, Action.Claim(w, 0, now, locked));
      }
    }

    method Decrypt(w: WorkerId, id: JobId, payload: Option<string>, readable: bool, ghost own: seq<Event>)
      returns (snapshot: Option<Snapshot>, ghost e: Event)
      requires Running(w, own) && PhaseOf(model, w).Claimed?
      requires PhaseOf(model, w).job == id && PhaseOf(model, w).payload == payload
      modifies this`model, this`trace, db
      ensures Running(w, own + [e]) && e.action == Decode(w, readable) && e.phase == PhaseOf(old(model), w)
      ensures snapshot.Some? <==> readable && cfg.codec.decode(payload).Ok?
      ensures snapshot.Some? ==> Ok(snapshot.value) == cfg.codec.decode(payload)
      ensures var p := PhaseOf(old(model), w);
              PhaseOf(model, w) == if snapshot.Some? then Sending(id, p.claim, snapshot.value, false, p.read)
                                   else Unreadable(id, p.claim, p.read)
    {
      var decoded := cfg.codec.decode(payload);
      LeadsIsRun(cfg, start, trace, model);
      DecodeTables(cfg, model, w, readable);
      e := EventOf(cfg, model, w, Decode(w, readable));
      Record(w, own, Decode(w, readable));
      snapshot := if readable && decoded.Ok? then Some(decoded.value) else None;
    }

    method FinishSend(w: WorkerId, id: JobId, outcome: Outcome, ghost own: seq<Event>) returns (ghost e: Event)
      requires Running(w, own) && PhaseOf(model, w).Sending? && PhaseOf(model, w).job == id
      modifies this`model, this`trace, db
      ensures Running(w, own + [e]) && e.action == SendReturns(w, outcome)
      ensures var p := PhaseOf(old(model), w); PhaseOf(model, w) == Returned(id, p.claim, outcome, p.lost, p.read)
    {
      LeadsIsRun(cfg, start, trace, model);
      ReturnTables(model, w, outcome);
      e := EventOf(cfg, model, w, SendReturns(w, outcome));
      Record(w, own, SendReturns(w, outcome));
    }

    method StopHeartbeat(w: WorkerId, ghost own: seq<Event>) returns (ghost e: Event)
      requires Running(w, own) && PhaseOf(model, w).Returned?
      modifies this`model, this`trace, db
      ensures Running(w, own + [e]) && e.action == JoinHeartbeat(w)
      ensures var p := PhaseOf(old(model), w);
              PhaseOf(model, w) == if p.lost then Idle else Finalising(p.job, p.claim, p.outcome, p.read)
    {
      LeadsIsRun(cfg, start, trace, model);
      JoinTables(model, w);
      e := EventOf(cfg, model, w, JoinHeartbeat(w));
      Record(w, own, JoinHeartbeat(w));
    }

    // The bookkeeping of the transaction that ends a claim.
    ghost method EndRecorded(w: WorkerId, own: seq<Event>, now: Time)
      requires Leads(cfg, start, trace, model) && Performed(cfg, start, trace, w, own)
      requires PhaseOf(model, w).Unreadable? || PhaseOf(model, w).Finalising?
      requires Reads(PhaseOf(model, w), model.clock, now)
      requires db.clock == model.clock && db.nextJobId == model.nextId && db.logs == model.logs
      requires var p := PhaseOf(model, w);
               db.jobs == if GuardHolds(model, w, p.job) then
                            model.jobs[p.job := FinalRow(p, model.jobs[p.job], now)] else model.jobs
      modifies this`model, this`trace
      ensures var p := PhaseOf(old(model), w);
              var found := GuardHolds(old(model), w, p.job);
              && Running(w, own + [Event(Finalise(w, now), p, found)])
              && PhaseOf(model, w) == if found then Logging(p.job, p.claim, db.jobs[p.job].status) else Idle
    {
      LeadsIsRun(cfg, start, trace, model);
      FinaliseTables(model, w, now);
      Record(w, own, Finalise(w, now));
    }

    method Complete(w: WorkerId, id: JobId, now: Time, ghost own: seq<Event>) returns (status: Option<Status>)
      requires Running(w, own) && PhaseOf(model, w).Finalising? && PhaseOf(model, w).job == id
      requires PhaseOf(model, w).outcome.Accepted? && Reads(PhaseOf(model, w), model.clock, now)
      modifies this`model, this`trace, db
      ensures Running(w, own + [Event(Finalise(w, now), PhaseOf(old(model), w), status.Some?)])
      ensures PhaseOf(model, w) ==
              if status.Some? then Logging(id, PhaseOf(old(model), w).claim, status.value) else Idle
      ensures status.Some? ==>
                && status == Some(Delivered) && id in old(db.jobs) && id in db.jobs
                && IsDelivered(old(db.jobs)[id], db.jobs[id], now)
    {
      var ok := CompleteJob(db, id, w, now);
      EndRecorded(w, own, now);
      status := if ok then Some(Delivered) else None;
    }

    method Fail(w: WorkerId, id: JobId, error: string, retryable: bool, now: Time, ghost own: seq<Event>)
      returns (status: Option<Status>)
      requires Running(w, own) && Fails(PhaseOf(model, w), id, error, retryable)
      requires Reads(PhaseOf(model, w), model.clock, now)
      modifies this`model, this`trace, db
      ensures Running(w, own + [Event(Finalise(w, now), PhaseOf(old(model), w), status.Some?)])
      ensures PhaseOf(model, w) ==
              if status.Some? then Logging(id, PhaseOf(old(model), w).claim, status.value) else Idle
      ensures status.Some? ==> status.value.Failed? || (status.value.Queued? && retryable)
      ensures status.Some? ==>
                && id in old(db.jobs) && id in db.jobs && db.jobs[id].status == status.value
                && IsEnded(old(db.jobs)[id], db.jobs[id], error, retryable, now)
    {
      if id in db.jobs {
        FailingRow(PhaseOf(model, w), id, error, retryable, db.jobs[id], now);
      }
      status := FailJob(db, id, w, error, retryable, now);
      EndRecorded(w, own, now);
    }

    // The log of the job, if it still exists, shows this status.
    predicate Shows(id: JobId, status: Status)
      reads this, db
    {
      id in db.logs ==> db.logs[id].status == status && db.logs[id].success == status.Delivered?
    }

    method WriteOutcome(w: WorkerId, id: JobId, status: Status, ghost own: seq<Event>) returns (ghost e: Event)
      requires Running(w, own) && PhaseOf(model, w).Logging?
      requires PhaseOf(model, w).job == id && PhaseOf(model, w).status == status
      modifies this`model, this`trace, db
      ensures Running(w, own + [e]) && e.action == WriteLog(w) && PhaseOf(model, w).Idle? && Shows(id, status)
    {
      LeadsIsRun(cfg, start, trace, model);
      LogTables(model, w);
      UpdateDeliveryLog(db, id, status.Delivered?, status);
      e := EventOf(cfg, model, w, WriteLog(w));
      Record(w, own, WriteLog(w));
    }

    // The log write, if there is a status to log.
    method LogOutcome(w: WorkerId, id: JobId, status: Option<Status>, ghost own: seq<Event>)
      returns (ghost done: seq<Event>)
      requires Running(w, own) && (status.None? ==> PhaseOf(model, w).Idle?)
      requires status.Some? ==>
                 PhaseOf(model, w).Logging? && PhaseOf(model, w).job == id && PhaseOf(model, w).status == status.value
      modifies this`model, this`trace, db
      ensures Running(w, own + done) && PhaseOf(model, w).Idle?
      ensures if status.Some? then |done| == 1 && done[0].action == WriteLog(w) else done == []
      ensures status.Some? ==> Shows(id, status.value)
    {
      done := [];
      assert own + done == own;
      if status.Some? {
        Pause(w, own);
        ghost var e := WriteOutcome(w, id, status.value, own);
        done := [e];
      }
    }

    // The transaction that ends the claim after a send.
    method EndClaim(w: WorkerId, id: JobId, outcome: Outcome, now: Time, ghost own: seq<Event>)
      returns (status: Option<Status>)
      requires Running(w, own) && PhaseOf(model, w).Finalising?
      requires PhaseOf(model, w).job == id && PhaseOf(model, w).outcome == outcome
      requires Reads(PhaseOf(model, w), model.clock, now)
      modifies this`model, this`trace, db
      ensures Running(w, own + [Event(Finalise(w, now), PhaseOf(old(model), w), status.Some?)])
      ensures PhaseOf(model, w) ==
              if status.Some? then Logging(id, PhaseOf(old(model), w).claim, status.value) else Idle
      ensures status.Some? ==>
                && Settles(outcome, status.value) && id in old(db.jobs) && id in db.jobs
                && IsSettled(PhaseOf(old(model), w), old(db.jobs)[id], db.jobs[id], now)
    {
      if outcome.Accepted? {
        status := Complete(w, id, now, own);
      } else {
        status := Fail(w, id, outcome.error, !outcome.Permanent?, now, own);
      }
    }

    // That transaction, and the log write after it: the outcome of the send decides
    // the status, and the log shows it.
    method Settle(w: WorkerId, id: JobId, outcome: Outcome, ghost own: seq<Event>)
      returns (ghost ending: seq<Event>, ghost status: Option<Status>)
      requires Running(w, own) && PhaseOf(model, w).Finalising?
      requires PhaseOf(model, w).job == id && PhaseOf(model, w).outcome == outcome
      modifies this`model, this`trace, db
      ensures Running(w, own + ending) && PhaseOf(model, w).Idle?
      ensures IsEnding(ending, w, id, PhaseOf(old(model), w).claim) && (status.Some? <==> |ending| == 2)
      ensures status.Some? ==> Settles(outcome, status.value) && Shows(id, status.value)
    {
      ghost var p := PhaseOf(model, w);
      var now := db.clock;
      Pause(w, own);
      var settled := EndClaim(w, id, outcome, now, own);
      ghost var end := Event(Finalise(w, now), p, settled.Some?);
      ghost var logged := LogOutcome(w, id, settled, own + [end]);
      ending, status := [end] + logged, settled;
      assert own + [end] + logged == own + ending;
    }

    // The heartbeats while the message is sent, and the return of the send.
    method Send(w: WorkerId, id: JobId, script: Script, ghost own: seq<Event>)
      returns (lost: bool, ghost beats: seq<Event>, ghost sent: Event)
      requires Running(w, own) && PhaseOf(model, w).Sending? && PhaseOf(model, w).job == id && !PhaseOf(model, w).lost
      modifies this`model, this`trace, db
      ensures Running(w, own + beats + [sent]) && sent.action == SendReturns(w, script.outcome)
      ensures IsHeartbeat(beats, w, script.beats, id, PhaseOf(old(model), w).claim) && (lost <==> LostIn(beats))
      ensures var p := PhaseOf(model, w);
              && p.Returned? && p.job == id && p.claim == PhaseOf(old(model), w).claim
              && p.outcome == script.outcome && p.lost == lost
    {
      lost, beats := HeartbeatJob(w, id, script.beats, own);
      Pause(w, own + beats);
      sent := FinishSend(w, id, script.outcome, own + beats);
    }

    // The heartbeat still under way when the send returned, and the end of the heartbeat.
    method Join(w: WorkerId, id: JobId, lastBeat: Option<Beat>, lostBefore: bool, ghost own: seq<Event>)
      returns (lost: bool, ghost last: seq<Event>, ghost joined: Event)
      requires Running(w, own) && PhaseOf(model, w).Returned? && PhaseOf(model, w).job == id
      requires PhaseOf(model, w).lost == lostBefore
      modifies this`model, this`trace, db
      ensures Running(w, own + last + [joined]) && joined.action == JoinHeartbeat(w)
      ensures if lostBefore || lastBeat.None? then last == []
              else IsHeartbeat(last, w, [lastBeat.value], id, PhaseOf(old(model), w).claim)
      ensures lost <==> lostBefore || LostIn(last)
      ensures var p := PhaseOf(old(model), w);
              if lost then PhaseOf(model, w).Idle?
              else PhaseOf(model, w).Finalising? && PhaseOf(model, w).job == id && PhaseOf(model, w).claim == p.claim
                   && PhaseOf(model, w).outcome == p.outcome
    {
      lost, last := lostBefore, [];
      assert own + [] == own;
      if lastBeat.Some? && !lost {
        lost, last := HeartbeatJob(w, id, [lastBeat.value], own);
      }
      joined := StopHeartbeat(w, own + last);
    }

    // From the start of the send to the end of the pass.
    method Deliver(w: WorkerId, id: JobId, script: Script, ghost own: seq<Event>)
      returns (ghost d: Delivery, ghost status: Option<Status>)
      requires Running(w, own) && PhaseOf(model, w).Sending? && PhaseOf(model, w).job == id && !PhaseOf(model, w).lost
      modifies this`model, this`trace, db
      ensures Running(w, own + DeliveryEvents(d)) && PhaseOf(model, w).Idle?
      ensures IsDelivery(d, w, script, id, PhaseOf(old(model), w).claim) && (status.Some? <==> |d.ending| == 2)
      ensures status.Some? ==> Settles(script.outcome, status.value) && Shows(id, status.value)
    {
      ghost var beats, sent, last, joined, ending;
      var lost;
      lost, beats, sent := Send(w, id, script, own);
      ghost var upToSend := own + beats + [sent];
      lost, last, joined := Join(w, id, script.lastBeat, lost, upToSend);
      ghost var upToJoin := upToSend + last + [joined];
      ending, status := [], None;
      assert upToJoin + [] == upToJoin;
      if !lost {
        ending, status := Settle(w, id, script.outcome, upToJoin);
      }
      d := Delivery(beats, sent, last, joined, ending);
      DeliveryInOrder(own, d);
    }

    // A pass whose snapshot cannot be read.
    method GiveUp(w: WorkerId, id: JobId, ghost own: seq<Event>)
      returns (ghost ending: seq<Event>, ghost status: Option<Status>)
      requires Running(w, own) && PhaseOf(model, w).Unreadable? && PhaseOf(model, w).job == id
      modifies this`model, this`trace, db
      ensures Running(w, own + ending) && PhaseOf(model, w).Idle?
      ensures IsEnding(ending, w, id, PhaseOf(old(model), w).claim) && (status.Some? <==> |ending| == 2)
      ensures status.Some? ==> status.value.Failed? && Shows(id, Failed)
    {
      ghost var p := PhaseOf(model, w);
      var now := db.clock;
      Pause(w, own);
      var failed := Fail(w, id, UNREADABLE_SNAPSHOT, false, now, own);
      ghost var end := Event(Finalise(w, now), p, failed.Some?);
      ghost var logged := LogOutcome(w, id, failed, own + [end]);
      ending, status := [end] + logged, failed;
      assert own + [end] + logged == own + ending;
    }

    // The two ways a pass can go on after the payload was read.
    method ProcessReadable(w: WorkerId, id: JobId, script: Script, ghost claim: Event, ghost decode: Event,
                           ghost own: seq<Event>)
      returns (ghost turn: Turn, ghost status: Option<Status>)
      requires Running(w, own + [claim] + [decode]) && PhaseOf(model, w).Sending?
      requires PhaseOf(model, w).job == id && !PhaseOf(model, w).lost
      requires IsStart(claim, decode, w, script, id, PhaseOf(model, w).claim)
      requires script.readable && cfg.codec.decode(decode.phase.payload).Ok?
      modifies this`model, this`trace, db
      ensures Running(w, own + TurnEvents(turn)) && PhaseOf(model, w).Idle?
      ensures turn.Pass? && turn.claim == claim && IsTurn(cfg, turn, w, script) && (status.Some? <==> Ended(turn))
      ensures status.Some? ==> Shows(id, status.value)
      ensures status.Some? ==>
                if turn.delivery.Some? then Settles(script.outcome, status.value) else status.value.Failed?
    {
      ghost var number := PhaseOf(model, w).claim;
      ghost var d;
      d, status := Deliver(w, id, script, own + [claim] + [decode]);
      turn := Pass(claim, decode, Some(d), []);
      assert own + [claim] + [decode] + DeliveryEvents(d) == own + ([claim] + [decode] + DeliveryEvents(d));
      DeliveredTurn(cfg, claim, decode, d, w, script, id, number);
    }

    method ProcessUnreadable(w: WorkerId, id: JobId, script: Script, ghost claim: Event, ghost decode: Event,
                             ghost own: seq<Event>)
      returns (ghost turn: Turn, ghost status: Option<Status>)
      requires Running(w, own + [claim] + [decode]) && PhaseOf(model, w).Unreadable? && PhaseOf(model, w).job == id
      requires IsStart(claim, decode, w, script, id, PhaseOf(model, w).claim)
      requires !(script.readable && cfg.codec.decode(decode.phase.payload).Ok?)
      modifies this`model, this`trace, db
      ensures Running(w, own + TurnEvents(turn)) && PhaseOf(model, w).Idle?
      ensures turn.Pass? && turn.claim == claim && IsTurn(cfg, turn, w, script) && (status.Some? <==> Ended(turn))
      ensures status.Some? ==> Shows(id, status.value)
      ensures status.Some? ==>
                if turn.delivery.Some? then Settles(script.outcome, status.value) else status.value.Failed?
    {
      ghost var number := PhaseOf(model, w).claim;
      ghost var ending;
      ending, status := GiveUp(w, id, own + [claim] + [decode]);
      turn := Pass(claim, decode, None, ending);
      assert own + [claim] + [decode] + ending == own + ([claim] + [decode] + ending);
      GivenUpTurn(cfg, claim, decode, ending, w, script, id, number);
    }

    // What follows a claim: the pass goes through to its end, one way or the other.
    method Process(w: WorkerId, id: JobId, payload: Option<string>, script: Script, ghost claim: Event,
                   ghost own: seq<Event>)
      returns (ghost turn: Turn, ghost status: Option<Status>)
      requires Running(w, own + [claim]) && PhaseOf(model, w).Claimed?
      requires claim.found && claim.action.Claim? && claim.action.worker == w && claim.action.id == id
      requires claim.action.skipped == script.locked
      requires PhaseOf(model, w).job == id && PhaseOf(model, w).payload == payload
      modifies this`model, this`trace, db
      ensures Running(w, own + TurnEvents(turn)) && PhaseOf(model, w).Idle?
      ensures turn.Pass? && turn.claim == claim && IsTurn(cfg, turn, w, script) && (status.Some? <==> Ended(turn))
      ensures status.Some? ==> Shows(id, status.value)
      ensures status.Some? ==>
                if turn.delivery.Some? then Settles(script.outcome, status.value) else status.value.Failed?
    {
      Pause(w, own + [claim]);
      ghost var decode;
      var snapshot;
      snapshot, decode := Decrypt(w, id, payload, script.readable, own + [claim]);
      if snapshot.None? {
        turn, status := ProcessUnreadable(w, id, script, claim, decode, own);
      } else {
        turn, status := ProcessReadable(w, id, script, claim, decode, own);
      }
    }

    lemma CalmEnd(w: WorkerId, script: Script, own: seq<Event>, turn: Turn)
      requires Running(w, own + TurnEvents(turn)) && turn.Pass? && IsTurn(cfg, turn, w, script)
      ensures Reversible(cfg.codec) && script.readable && Calm(script) && StillLatest(model, turn) ==>
                turn.delivery.Some? && Ended(turn)
    {
      if Reversible(cfg.codec) && script.readable && Calm(script) && StillLatest(model, turn) {
        LeadsIsRun(cfg, start, trace, model);
        CalmPassEnds(cfg, start, trace, w, own + TurnEvents(turn), turn, script);
      }
    }

    // One processing pass. It keeps the worker to its program whatever the other
    // processes do. Either no row was eligible for the reading with which it began, or
    // it claimed one job and its actions are those of a pass. If the payload can be
    // read, no turn of the heartbeat raises and nobody else claims the job, the pass
    // ends the claim with a status that settles the outcome of the send, and logs it.
    method ProcessOne(w: WorkerId, script: Script, ghost own: seq<Event>)
      returns (processed: bool, ghost turn: Turn, ghost status: Option<Status>)
      requires Running(w, own) && PhaseOf(model, w).Idle?
      modifies this`model, this`trace, db
      ensures Running(w, own + TurnEvents(turn)) && PhaseOf(model, w).Idle?
      ensures IsTurn(cfg, turn, w, script) && (processed <==> turn.Pass?)
      ensures turn.claim.action.now == old(db.clock)
      ensures !processed ==> NothingEligible(cfg, db.jobs, old(db.clock), script.locked)
      ensures processed ==> (status.Some? <==> Ended(turn))
      ensures processed && status.Some? ==> Shows(turn.claim.action.id, status.value)
      ensures processed && Reversible(cfg.codec) && script.readable && Calm(script) && StillLatest(model, turn) ==>
                status.Some? && Settles(script.outcome, status.value)
    {
      var now := db.clock;
      Pause(w, own);
      var claimed := Claim(w, now, script.locked, own);
      if claimed.None? {
        turn, status := Nothing(Event(Action.Claim(w, 0, now, script.locked), Idle, false)), None;
        return false, turn, status;
      }
      var (id, job) := claimed.value;
      ghost var claim := Event(Action.Claim(w, id, now, script.locked), Idle, true);
      turn, status := Process(w, id, job.payload, script, claim, own);
      processed := true;
      CalmEnd(w, script, own, turn);
    }

    // A turn of the loop: a pass, or a pause when there was nothing to do.
    method TakeTurn(w: WorkerId, script: Script, ghost own: seq<Event>) returns (processed: bool, ghost turn: Turn)
      requires Running(w, own) && PhaseOf(model, w).Idle?
      modifies this`model, this`trace, db
      ensures Running(w, own + TurnEvents(turn)) && PhaseOf(model, w).Idle?
      ensures AreTurns(cfg, [turn], w, [script]) && (processed <==> turn.Pass?)
    {
      ghost var status;
      processed, turn, status := ProcessOne(w, script, own);
      if !processed {
        Pause(w, own + TurnEvents(turn));
      }
    }

    // The i-th turn, added to those before.
    method AddTurn(w: WorkerId, scripts: seq<Script>, i: nat, ghost turns: seq<Turn>, ghost done: seq<Event>,
                   jobs: nat, ghost own: seq<Event>)
      returns (more: nat, ghost longer: seq<Turn>, ghost later: seq<Event>)
      requires i < |scripts| && Running(w, own + done) && PhaseOf(model, w).Idle?
      requires Looped(cfg, turns, w, scripts[..i], done, jobs)
      modifies this`model, this`trace, db
      ensures Running(w, own + later) && PhaseOf(model, w).Idle?
      ensures Looped(cfg, longer, w, scripts[..i + 1], later, more)
    {
      var processed;
      ghost var turn;
      processed, turn := TakeTurn(w, scripts[i], own + done);
      more := if processed then jobs + 1 else jobs;
      longer, later := turns + [turn], done + TurnEvents(turn);
      Regrouped(own, done, TurnEvents(turn));
      OneMoreTurn(cfg, turns, turn, w, scripts, i, done, jobs);
    }

    // The worker loop, one turn for each script.
    method RunWorker(w: WorkerId, scripts: seq<Script>, ghost own: seq<Event>)
      returns (jobs: nat, ghost turns: seq<Turn>, ghost done: seq<Event>)
      requires Running(w, own) && PhaseOf(model, w).Idle?
      modifies this`model, this`trace, db
      ensures Running(w, own + done) && PhaseOf(model, w).Idle?
      ensures Looped(cfg, turns, w, scripts, done, jobs)
    {
      jobs, turns, done := 0, [], [];
      assert own + [] == own;
      for i := 0 to |scripts|
        invariant Running(w, own + done) && PhaseOf(model, w).Idle?
        invariant Looped(cfg, turns, w, scripts[..i], done, jobs)
      {
        jobs, turns, done := AddTurn(w, scripts, i, turns, done, jobs, own);
      }
      assert scripts[..|scripts|] == scripts;
    }
  }
}
