/** The program of a worker: which actions a run must contain for a pass of it, and in what order. */
module PassShape {
  import opened Common
  import opened JobRows
  import opened Snapshots
  import opened Protocol
  import opened ProtocolInvariant
  import opened ProtocolFrames
  import opened DeliveryGuarantees

  // One turn of the heartbeat loop: the refresh runs, or raises before or after it committed.
  datatype Beat = Refreshes | Raises(committed: bool)

  // What the surroundings decide during one pass: the rows locked when it claims,
  // whether the payload can be read, the heartbeats while the message is sent and
  // the one still running when the send ends, and how the send ends.
  datatype Script = Script(
    locked: set<JobId>,
    readable: bool,
    beats: seq<Beat>,
    lastBeat: Option<Beat>,
    outcome: Outcome)

  // No turn of the heartbeat raises.
  predicate Calm(script: Script) {
    && (forall i :: 0 <= i < |script.beats| ==> script.beats[i].Refreshes?)
    && (script.lastBeat.Some? ==> script.lastBeat.value.Refreshes?)
  }

  // ---- the actions of one worker in a run ----

  // An action of a worker, its phase before, and whether the statement found the row
  // it looks for: an eligible one for a claim, its own job for everything else.
  datatype Event = Event(action: Action, phase: Phase, found: bool)

  // The reading of a worker that takes effect now, unless it is no longer the owner.
  predicate InTime(s: State, w: WorkerId, now: Time)
    requires Active(PhaseOf(s, w)) && !PhaseOf(s, w).Logging?
  {
    GuardHolds(s, w, PhaseOf(s, w).job) ==> Reads(PhaseOf(s, w), s.clock, now)
  }

  ghost predicate NothingEligible(cfg: Config, jobs: map<JobId, Job>, now: Time, skipped: set<JobId>) {
    forall k :: k in jobs && k !in skipped ==> !Eligible(jobs[k], now, cfg.lockTimeout)
  }

  // The worker stands where the program would perform the action and has read its clock
  // in order; a claim takes the row it finds, or there is none to find.
  ghost predicate Performs(cfg: Config, s: State, a: Action) {
    match a
    case Tick(_) => true
    case Draw => true
    case Enqueue(_, _, _) => true
    case Cleanup(_) => true
    case Claim(w, id, now, skipped) =>
      && PhaseOf(s, w).Idle? && now <= s.clock
      && (ClaimFires(cfg, s, w, id, now, skipped) || NothingEligible(cfg, s.jobs, now, skipped))
    case Decode(w, _) => PhaseOf(s, w).Claimed?
    case Heartbeat(w, now) => Beating(PhaseOf(s, w)) && InTime(s, w, now)
    case HeartbeatError(w, _, now) => Beating(PhaseOf(s, w)) && InTime(s, w, now)
    case SendReturns(w, _) => PhaseOf(s, w).Sending?
    case JoinHeartbeat(w) => PhaseOf(s, w).Returned?
    case Finalise(w, now) => (PhaseOf(s, w).Unreadable? || PhaseOf(s, w).Finalising?) && InTime(s, w, now)
    case WriteLog(w) => PhaseOf(s, w).Logging?
    case Crash(w) => !PhaseOf(s, w).Crashed?
  }

  ghost predicate Finds(cfg: Config, s: State, w: WorkerId, a: Action) {
    if a.Claim? then ClaimFires(cfg, s, w, a.id, a.now, a.skipped)
    else Active(PhaseOf(s, w)) && GuardHolds(s, w, PhaseOf(s, w).job)
  }

  ghost function EventOf(cfg: Config, s: State, w: WorkerId, a: Action): Event {
    Event(a, PhaseOf(s, w), Finds(cfg, s, w, a))
  }

  // The actions of w in the run are exactly those of own, and each is performed where
  // the program performs it: w goes through its program in order.
  ghost predicate Performed(cfg: Config, start: Time, actions: seq<Action>, w: WorkerId, own: seq<Event>)
    decreases |actions|
  {
    if actions == [] then own == []
    else
      var before, a := actions[..|actions| - 1], actions[|actions| - 1];
      if ActsFor(a, w) then
        && own != [] && own[|own| - 1] == EventOf(cfg, Run(cfg, Init(start), before), w, a)
        && Performed(cfg, start, before, w, own[..|own| - 1])
        && Performs(cfg, Run(cfg, Init(start), before), a)
      else
        Performed(cfg, start, before, w, own)
  }

  lemma {:induction false} OthersChangeNothing(cfg: Config, start: Time, actions: seq<Action>, n: nat, w: WorkerId,
                                               own: seq<Event>)
    requires n <= |actions| && Performed(cfg, start, actions[..n], w, own)
    requires forall i :: n <= i < |actions| ==> !ActsFor(actions[i], w)
    ensures Performed(cfg, start, actions, w, own)
    decreases |actions|
  {
    if n == |actions| {
      assert actions[..n] == actions;
    } else {
      var before := actions[..|actions| - 1];
      assert before[..n] == actions[..n];
      OthersChangeNothing(cfg, start, before, n, w, own);
    }
  }

  lemma PerformedNext(cfg: Config, start: Time, actions: seq<Action>, w: WorkerId, own: seq<Event>, a: Action)
    requires Performed(cfg, start, actions, w, own) && ActsFor(a, w)
    requires Performs(cfg, Run(cfg, Init(start), actions), a)
    ensures var e := EventOf(cfg, Run(cfg, Init(start), actions), w, a);
            Performed(cfg, start, actions + [a], w, own + [e])
  {
    var e := EventOf(cfg, Run(cfg, Init(start), actions), w, a);
    assert (actions + [a])[..|actions|] == actions && (own + [e])[..|own|] == own;
  }

  lemma {:induction false} OthersKeepPhaseInRun(cfg: Config, s: State, actions: seq<Action>, w: WorkerId)
    requires WellKeyed(s) && forall i :: 0 <= i < |actions| ==> !ActsFor(actions[i], w)
    ensures PhaseOf(Run(cfg, s, actions), w) == PhaseOf(s, w)
    decreases |actions|
  {
    if actions != [] {
      var rest := actions[1..];
      assert forall i :: 0 <= i < |rest| ==> rest[i] == actions[i + 1];
      OthersKeepPhase(cfg, s, actions[0], w);
      OthersKeepPhaseInRun(cfg, Apply(cfg, s, actions[0]), rest, w);
    }
  }

  // ---- what the events of a worker say about the run ----

  predicate InClaim(p: Phase) {
    Active(p) && !p.Logging?
  }

  // Somebody has claimed the job since the claim of this phase.
  ghost predicate Overtaken(t: State, p: Phase)
    requires InClaim(p)
  {
    p.job in t.history && p.claim < |t.history[p.job].claims|
  }

  // A worker that no longer finds its row was overtaken; what it claimed can be decoded.
  ghost predicate Explained(cfg: Config, t: State, e: Event) {
    && (InClaim(e.phase) && !e.found ==> Overtaken(t, e.phase))
    && (e.phase.Claimed? ==> cfg.codec.decode(e.phase.payload).Ok?)
  }

  lemma StaysOvertaken(cfg: Config, s: State, a: Action, p: Phase)
    requires WellKeyed(s) && InClaim(p) && Overtaken(s, p)
    ensures Overtaken(Apply(cfg, s, a), p)
  {
    StepFrame(cfg, s, a, p.job);
  }

  lemma PhaseClaim(cfg: Config, w: WorkerId, p: Phase, r: Job, h: History)
    requires InClaim(p) && PhaseInv(cfg, w, p, r, h)
    ensures p.claim <= |h.claims|
  {
  }

  lemma ClaimNumbered(cfg: Config, s: State, w: WorkerId)
    requires Inv(cfg, s) && InClaim(PhaseOf(s, w))
    ensures PhaseOf(s, w).job in s.history && PhaseOf(s, w).claim <= |s.history[PhaseOf(s, w).job].claims|
  {
    var p := PhaseOf(s, w);
    assert WorkerInv(cfg, s, w);
    PhaseClaim(cfg, w, p, Rows(s)[p.job], s.history[p.job]);
  }

  lemma EventExplained(cfg: Config, s: State, w: WorkerId, a: Action)
    requires Inv(cfg, s) && Reversible(cfg.codec) && ActsFor(a, w) && Performs(cfg, s, a)
    ensures Explained(cfg, s, EventOf(cfg, s, w, a))
  {
    var p := PhaseOf(s, w);
    if InClaim(p) && !Finds(cfg, s, w, a) {
      GuardMeansCurrentClaim(cfg, s, w);
      ClaimNumbered(cfg, s, w);
    }
    if p.Claimed? {
      DecodesAccepted(cfg, s, w);
    }
  }

  lemma {:induction false} EventsExplained(cfg: Config, start: Time, actions: seq<Action>, w: WorkerId, own: seq<Event>)
    requires Reversible(cfg.codec) && Performed(cfg, start, actions, w, own)
    ensures forall e :: e in own ==> Explained(cfg, Run(cfg, Init(start), actions), e)
    decreases |actions|
  {
    if actions != [] {
      var before, a := actions[..|actions| - 1], actions[|actions| - 1];
      var s := Run(cfg, Init(start), before);
      assert actions == before + [a];
      RunAppend(cfg, Init(start), before, [a]);
      RunSingle(cfg, s, a);
      InitInv(cfg, start);
      RunInv(cfg, Init(start), before);
      var earlier := if ActsFor(a, w) then own[..|own| - 1] else own;
      EventsExplained(cfg, start, before, w, earlier);
      forall e | e in own
        ensures Explained(cfg, Apply(cfg, s, a), e)
      {
        if e !in earlier {
          assert e == own[|own| - 1];
          EventExplained(cfg, s, w, a);
        }
        if InClaim(e.phase) && !e.found {
          StaysOvertaken(cfg, s, a, e.phase);
        }
      }
    }
  }

  // ---- executions ----

  ghost predicate StepAt(cfg: Config, states: seq<State>, actions: seq<Action>, i: nat)
    requires i < |actions| < |states|
  {
    WellKeyed(states[i]) && states[i + 1] == Apply(cfg, states[i], actions[i])
  }

  // These are the states that the actions go through, from the empty tables to s.
  ghost predicate Execution(cfg: Config, start: Time, states: seq<State>, actions: seq<Action>, s: State) {
    && |states| == |actions| + 1 && states[0] == Init(start) && states[|actions|] == s
    && forall i :: 0 <= i < |actions| ==> StepAt(cfg, states, actions, i)
  }

  ghost predicate Leads(cfg: Config, start: Time, actions: seq<Action>, s: State) {
    exists states :: Execution(cfg, start, states, actions, s)
  }

  lemma {:induction false} ExecutionIsRun(cfg: Config, start: Time, states: seq<State>, actions: seq<Action>, s: State)
    requires Execution(cfg, start, states, actions, s)
    ensures WellKeyed(s) && s == Run(cfg, Init(start), actions)
    decreases |actions|
  {
    if actions != [] {
      var n := |actions| - 1;
      var earlier, before, a := states[..n + 1], actions[..n], actions[n];
      assert StepAt(cfg, states, actions, n);
      forall i | 0 <= i < n
        ensures StepAt(cfg, earlier, before, i)
      {
        assert StepAt(cfg, states, actions, i);
      }
      ExecutionIsRun(cfg, start, earlier, before, states[n]);
      assert actions == before + [a] && [a][1..] == [];
      RunAppend(cfg, Init(start), before, [a]);
      assert Run(cfg, states[n], [a]) == Run(cfg, Apply(cfg, states[n], a), []);
    }
  }

  lemma LeadsIsRun(cfg: Config, start: Time, actions: seq<Action>, s: State)
    requires Leads(cfg, start, actions, s)
    ensures WellKeyed(s) && s == Run(cfg, Init(start), actions)
  {
    var states :| Execution(cfg, start, states, actions, s);
    ExecutionIsRun(cfg, start, states, actions, s);
  }

  lemma PausedPhase(cfg: Config, start: Time, before: seq<Action>, since: seq<Action>, w: WorkerId)
    requires forall i :: 0 <= i < |since| ==> !ActsFor(since[i], w)
    ensures var s, t := Run(cfg, Init(start), before), Run(cfg, Init(start), before + since);
            PhaseOf(t, w) == PhaseOf(s, w) && s.clock <= t.clock
  {
    RunAppend(cfg, Init(start), before, since);
    OthersKeepPhaseInRun(cfg, Run(cfg, Init(start), before), since, w);
  }

  lemma PausedActions(cfg: Config, start: Time, before: seq<Action>, since: seq<Action>, w: WorkerId, own: seq<Event>)
    requires Performed(cfg, start, before, w, own)
    requires forall i :: 0 <= i < |since| ==> !ActsFor(since[i], w)
    ensures Performed(cfg, start, before + since, w, own)
  {
    var after := before + since;
    assert after[..|before|] == before;
    OthersChangeNothing(cfg, start, after, |before|, w, own);
  }

  // While others act, the phase of w and its own actions stay as they are.
  lemma Paused(cfg: Config, start: Time, before: seq<Action>, s: State, after: seq<Action>, t: State, w: WorkerId,
               own: seq<Event>)
    requires Leads(cfg, start, before, s) && Leads(cfg, start, after, t) && before <= after
    requires forall i :: |before| <= i < |after| ==> !ActsFor(after[i], w)
    requires Performed(cfg, start, before, w, own)
    ensures Performed(cfg, start, after, w, own) && PhaseOf(t, w) == PhaseOf(s, w) && s.clock <= t.clock
  {
    LeadsIsRun(cfg, start, before, s);
    LeadsIsRun(cfg, start, after, t);
    var since := after[|before|..];
    assert after == before + since;
    PausedActions(cfg, start, before, since, w, own);
    PausedPhase(cfg, start, before, since, w);
  }

  lemma LeadsNowhere(cfg: Config, start: Time)
    ensures Leads(cfg, start, [], Init(start))
  {
    assert Execution(cfg, start, [Init(start)], [], Init(start));
  }

  lemma LeadsOn(cfg: Config, start: Time, actions: seq<Action>, s: State, a: Action)
    requires Leads(cfg, start, actions, s) && WellKeyed(s)
    ensures Leads(cfg, start, actions + [a], Apply(cfg, s, a))
  {
    var states :| Execution(cfg, start, states, actions, s);
    var t := Apply(cfg, s, a);
    var longer, more := states + [t], actions + [a];
    forall i | 0 <= i < |more|
      ensures StepAt(cfg, longer, more, i)
    {
      assert i < |actions| ==> StepAt(cfg, states, actions, i);
    }
    assert Execution(cfg, start, longer, more, t);
  }

  // ---- the shape of a pass ----

  // A worker in its pass has read its clock in the past.
  predicate ReadBefore(p: Phase, clock: Time) {
    InClaim(p) ==> p.read <= clock
  }

  // An event of the pass that holds this claim of job id.
  predicate Within(e: Event, id: JobId, claim: nat) {
    InClaim(e.phase) && e.phase.job == id && e.phase.claim == claim
  }

  // The event performs this turn of the heartbeat.
  predicate IsBeat(e: Event, w: WorkerId, beat: Beat) {
    match beat
    case Refreshes => e.action.Heartbeat? && e.action.worker == w
    case Raises(committed) => e.action.HeartbeatError? && e.action.worker == w && e.action.committed == committed
  }

  // A turn that raised, or did not find the job owned any more.
  predicate Loses(e: Event) {
    e.action.HeartbeatError? || !e.found
  }

  predicate LostIn(done: seq<Event>) {
    done != [] && Loses(done[|done| - 1])
  }

  // The heartbeat loop made these turns, one action each: all of them, or up to the
  // first that lost ownership.
  predicate IsHeartbeat(done: seq<Event>, w: WorkerId, beats: seq<Beat>, id: JobId, claim: nat) {
    && |done| <= |beats| && (LostIn(done) || |done| == |beats|)
    && (forall i :: 0 <= i < |done| ==> IsBeat(done[i], w, beats[i]) && Within(done[i], id, claim))
    && (forall i :: 0 <= i < |done| - 1 ==> !Loses(done[i]))
  }

  // The final transaction, and the log write exactly if it found the job still owned.
  predicate IsEnding(ending: seq<Event>, w: WorkerId, id: JobId, claim: nat) {
    && 1 <= |ending| <= 2
    && ending[0].action.Finalise? && ending[0].action.worker == w && Within(ending[0], id, claim)
    && (|ending| == 2 <==> ending[0].found)
    && (|ending| == 2 ==> ending[1].action == WriteLog(w))
  }

  lemma OneMoreBeat(done: seq<Event>, e: Event, w: WorkerId, beats: seq<Beat>, i: nat, id: JobId, claim: nat)
    requires i < |beats| && |done| == i && IsHeartbeat(done, w, beats[..i], id, claim) && !LostIn(done)
    requires IsBeat(e, w, beats[i]) && Within(e, id, claim)
    ensures IsHeartbeat(done + [e], w, beats[..i + 1], id, claim)
    ensures Loses(e) ==> IsHeartbeat(done + [e], w, beats, id, claim)
  {
  }

  // The part of a pass from the start of the send on.
  datatype Delivery = Delivery(beats: seq<Event>, sent: Event, last: seq<Event>, joined: Event, ending: seq<Event>)

  function DeliveryEvents(d: Delivery): seq<Event> {
    d.beats + [d.sent] + d.last + [d.joined] + d.ending
  }

  lemma DeliveryInOrder(own: seq<Event>, d: Delivery)
    ensures own + d.beats + [d.sent] + d.last + [d.joined] + d.ending == own + DeliveryEvents(d)
  {
  }

  // The heartbeat under way when the send returns is the one of the script, if
  // ownership was not lost before; the final transaction follows exactly when it was
  // not lost at all.
  predicate IsDelivery(d: Delivery, w: WorkerId, script: Script, id: JobId, claim: nat) {
    && IsHeartbeat(d.beats, w, script.beats, id, claim)
    && d.sent.action == SendReturns(w, script.outcome)
    && (if LostIn(d.beats) || script.lastBeat.None? then d.last == []
        else IsHeartbeat(d.last, w, [script.lastBeat.value], id, claim))
    && d.joined.action == JoinHeartbeat(w)
    && if LostIn(d.beats) || LostIn(d.last) then d.ending == [] else IsEnding(d.ending, w, id, claim)
  }

  // One turn of the worker loop: nothing was eligible, or a pass on the job it claimed.
  datatype Turn =
    | Nothing(claim: Event)
    | Pass(claim: Event, decode: Event, delivery: Option<Delivery>, ending: seq<Event>)

  function TurnEvents(turn: Turn): seq<Event> {
    match turn
    case Nothing(claim) => [claim]
    case Pass(claim, decode, delivery, ending) =>
      [claim, decode] + (if delivery.Some? then DeliveryEvents(delivery.value) else []) + ending
  }

  function AllEvents(turns: seq<Turn>): seq<Event> {
    if turns == [] then [] else AllEvents(turns[..|turns| - 1]) + TurnEvents(turns[|turns| - 1])
  }

  // How many of the turns were passes.
  function Passes(turns: seq<Turn>): nat {
    if turns == [] then 0 else Passes(turns[..|turns| - 1]) + (if turns[|turns| - 1].Pass? then 1 else 0)
  }

  // Delivery follows exactly when the payload of the claimed job can be read.
  predicate IsTurn(cfg: Config, turn: Turn, w: WorkerId, script: Script) {
    && turn.claim.action.Claim? && turn.claim.action.worker == w && turn.claim.action.skipped == script.locked
    && (turn.claim.found <==> turn.Pass?)
    && (turn.Pass? ==>
          && turn.decode.action == Decode(w, script.readable) && turn.decode.phase.Claimed?
          && turn.decode.phase.job == turn.claim.action.id
          && var id, claim := turn.decode.phase.job, turn.decode.phase.claim;
             if script.readable && cfg.codec.decode(turn.decode.phase.payload).Ok? then
               turn.delivery.Some? && IsDelivery(turn.delivery.value, w, script, id, claim) && turn.ending == []
             else
               turn.delivery.None? && IsEnding(turn.ending, w, id, claim))
  }

  // The pass ended its claim and wrote the log.
  predicate Ended(turn: Turn) {
    turn.Pass? && |if turn.delivery.Some? then turn.delivery.value.ending else turn.ending| == 2
  }

  // Nobody has claimed the job since the claim of this turn.
  ghost predicate StillLatest(t: State, turn: Turn)
    requires turn.Pass? && turn.decode.phase.Claimed?
  {
    !Overtaken(t, turn.decode.phase)
  }

  ghost predicate AreTurns(cfg: Config, turns: seq<Turn>, w: WorkerId, scripts: seq<Script>) {
    |turns| == |scripts| && forall i :: 0 <= i < |turns| ==> IsTurn(cfg, turns[i], w, scripts[i])
  }

  // The loop has made these turns, one for each script, with these events.
  ghost predicate Looped(cfg: Config, turns: seq<Turn>, w: WorkerId, scripts: seq<Script>, done: seq<Event>,
      jobs: nat) {
    AreTurns(cfg, turns, w, scripts) && done == AllEvents(turns) && jobs == Passes(turns)
  }

  lemma JoinTurns(cfg: Config, turns: seq<Turn>, more: seq<Turn>, w: WorkerId, scripts: seq<Script>,
                  others: seq<Script>)
    requires AreTurns(cfg, turns, w, scripts) && AreTurns(cfg, more, w, others)
    ensures AreTurns(cfg, turns + more, w, scripts + others)
  {
    var all, told := turns + more, scripts + others;
    forall i | 0 <= i < |all|
      ensures IsTurn(cfg, all[i], w, told[i])
    {
      if i < |turns| {
        assert IsTurn(cfg, turns[i], w, scripts[i]);
      } else {
        assert IsTurn(cfg, more[i - |turns|], w, others[i - |turns|]);
      }
    }
  }

  lemma CountTurn(turns: seq<Turn>, turn: Turn)
    ensures AllEvents(turns + [turn]) == AllEvents(turns) + TurnEvents(turn)
    ensures Passes(turns + [turn]) == if turn.Pass? then Passes(turns) + 1 else Passes(turns)
  {
    assert (turns + [turn])[..|turns|] == turns;
  }

  lemma OneMoreTurn(cfg: Config, turns: seq<Turn>, turn: Turn, w: WorkerId, scripts: seq<Script>, i: nat,
                    done: seq<Event>, jobs: nat)
    requires i < |scripts| && Looped(cfg, turns, w, scripts[..i], done, jobs)
    requires AreTurns(cfg, [turn], w, [scripts[i]])
    ensures Looped(cfg, turns + [turn], w, scripts[..i + 1], done + TurnEvents(turn),
                   if turn.Pass? then jobs + 1 else jobs)
  {
    assert scripts[..i + 1] == scripts[..i] + [scripts[i]];
    JoinTurns(cfg, turns, [turn], w, scripts[..i], [scripts[i]]);
    CountTurn(turns, turn);
  }

  lemma Regrouped(a: seq<Event>, b: seq<Event>, c: seq<Event>)
    ensures a + b + c == a + (b + c)
  {
  }

  predicate IsStart(claim: Event, decode: Event, w: WorkerId, script: Script, id: JobId, number: nat) {
    && claim.found && claim.action.Claim? && claim.action.worker == w && claim.action.id == id
    && claim.action.skipped == script.locked
    && decode.action == Decode(w, script.readable) && decode.phase.Claimed?
    && decode.phase.job == id && decode.phase.claim == number
  }

  lemma DeliveredTurn(cfg: Config, claim: Event, decode: Event, d: Delivery, w: WorkerId, script: Script, id: JobId,
                      number: nat)
    requires IsStart(claim, decode, w, script, id, number)
    requires script.readable && cfg.codec.decode(decode.phase.payload).Ok? && IsDelivery(d, w, script, id, number)
    ensures var turn := Pass(claim, decode, Some(d), []);
            && IsTurn(cfg, turn, w, script) && (Ended(turn) <==> |d.ending| == 2)
            && TurnEvents(turn) == [claim] + [decode] + DeliveryEvents(d)
  {
  }

  lemma GivenUpTurn(cfg: Config, claim: Event, decode: Event, ending: seq<Event>, w: WorkerId, script: Script,
                    id: JobId, number: nat)
    requires IsStart(claim, decode, w, script, id, number)
    requires !(script.readable && cfg.codec.decode(decode.phase.payload).Ok?) && IsEnding(ending, w, id, number)
    ensures var turn := Pass(claim, decode, None, ending);
            && IsTurn(cfg, turn, w, script) && (Ended(turn) <==> |ending| == 2)
            && TurnEvents(turn) == [claim] + [decode] + ending
  {
  }

  lemma CalmBeats(done: seq<Event>, w: WorkerId, beats: seq<Beat>, id: JobId, claim: nat)
    requires IsHeartbeat(done, w, beats, id, claim)
    requires forall i :: 0 <= i < |beats| ==> beats[i].Refreshes?
    requires forall e :: e in done ==> e.found
    ensures !LostIn(done)
  {
    if done != [] {
      assert IsBeat(done[|done| - 1], w, beats[|done| - 1]) && done[|done| - 1] in done;
    }
  }

  lemma FoundUnlessOvertaken(cfg: Config, t: State, e: Event, id: JobId, claim: nat)
    requires Explained(cfg, t, e) && Within(e, id, claim)
    requires !(id in t.history && claim < |t.history[id].claims|)
    ensures e.found
  {
  }

  // A delivery in which no turn of the heartbeat raises ends the claim and writes the
  // log, unless somebody has claimed the job since.
  lemma CalmDeliveryEnds(cfg: Config, t: State, d: Delivery, w: WorkerId, script: Script, id: JobId, claim: nat)
    requires IsDelivery(d, w, script, id, claim) && Calm(script)
    requires forall e :: e in DeliveryEvents(d) ==> Explained(cfg, t, e)
    requires !(id in t.history && claim < |t.history[id].claims|)
    ensures |d.ending| == 2
  {
    forall e | e in d.beats
      ensures e.found
    {
      assert e in DeliveryEvents(d);
      FoundUnlessOvertaken(cfg, t, e, id, claim);
    }
    CalmBeats(d.beats, w, script.beats, id, claim);
    if d.last != [] {
      forall e | e in d.last
        ensures e.found
      {
        assert e in DeliveryEvents(d);
        FoundUnlessOvertaken(cfg, t, e, id, claim);
      }
      CalmBeats(d.last, w, [script.lastBeat.value], id, claim);
    }
    assert d.ending[0] in DeliveryEvents(d);
    FoundUnlessOvertaken(cfg, t, d.ending[0], id, claim);
  }

  // So does a whole readable pass, in any run.
  lemma CalmPassEnds(cfg: Config, start: Time, actions: seq<Action>, w: WorkerId, own: seq<Event>, turn: Turn,
                     script: Script)
    requires Reversible(cfg.codec) && Performed(cfg, start, actions, w, own)
    requires turn.Pass? && IsTurn(cfg, turn, w, script) && script.readable && Calm(script)
    requires forall e :: e in TurnEvents(turn) ==> e in own
    requires StillLatest(Run(cfg, Init(start), actions), turn)
    ensures turn.delivery.Some? && Ended(turn)
  {
    var t := Run(cfg, Init(start), actions);
    EventsExplained(cfg, start, actions, w, own);
    assert turn.decode in TurnEvents(turn) by {
      assert TurnEvents(turn)[1] == turn.decode;
    }
    var d := turn.delivery.value;
    forall e | e in DeliveryEvents(d)
      ensures Explained(cfg, t, e)
    {
      assert e in TurnEvents(turn);
    }
    CalmDeliveryEnds(cfg, t, d, w, script, turn.decode.phase.job, turn.decode.phase.claim);
  }

  // What the outcome of the send makes of the job.
  predicate Settles(outcome: Outcome, status: Status) {
    match outcome
    case Accepted => status.Delivered?
    case Temporary(_) => status.Queued? || status.Failed?
    case Permanent(_) => status.Failed?
  }

  // The phase of a worker after a turn of its heartbeat.
  predicate Beaten(p: Phase, q: Phase, lost: bool) {
    (p.Sending? || p.Returned?) && (q.Sending? || q.Returned?) && q == p.(lost := lost, read := q.read)
  }

  // The phase calls for failing job id with this error.
  predicate Fails(p: Phase, id: JobId, error: string, retryable: bool) {
    || (p.Unreadable? && p.job == id && !retryable && error == UNREADABLE_SNAPSHOT)
    || (&& p.Finalising? && p.job == id && !p.outcome.Accepted?
        && error == p.outcome.error && retryable == p.outcome.Temporary?)
  }

  lemma FailingRow(p: Phase, id: JobId, error: string, retryable: bool, row: Job, now: Time)
    requires Fails(p, id, error, retryable)
    ensures FinalRow(p, row, now) == FailedJob(row, error, retryable, now)
  {
  }
}
