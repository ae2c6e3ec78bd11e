/**
 The whole system on one clock: the delivery queue, the rate limiter, the login
 sessions, and the retention statements that delete rows from under all of them.
 */
module SharedSystem {
  import opened Common
  import opened JobRows
  import opened Database
  import opened RateLimit
  import opened Retention
  import opened Protocol

  // windowOf gives the window length of each limiter scope, in seconds; the
  // other numbers are durations.
  datatype Policy = Policy(
    queue: Config,
    bucketRetention: int,
    sessionRetention: int,
    sessionLifetime: int,
    windowOf: string -> int)

  datatype System = System(
    queue: State,
    buckets: map<Key, Bucket>,
    sessions: map<string, SessionRow>,  // by token hash
    drawn: set<string>)                 // every token ever drawn

  // Requests read their clock before their statement takes effect, so a check, a
  // login, a lookup and a purge carry the time they read.
  datatype SystemAction =
    | Queue(action: Action)
    | Limit(check: Check)
    | Login(token: string, user: int, now: Time)
    | Lookup(token: string, now: Time)
    | Logout(token: string)
    | Revoke(user: int)
    | PurgeBuckets(now: Time)
    | PurgeSessions(now: Time)

  // The statements of the periodic cleanup.
  predicate IsCleanup(a: SystemAction) {
    (a.Queue? && a.action.Cleanup?) || a.PurgeBuckets? || a.PurgeSessions?
  }

  function Start(start: Time): System {
    System(Init(start), map[], map[], {})
  }

  // Tokens are drawn at random and never repeat.
  function ApplyLogin(p: Policy, s: System, token: string, user: int, now: Time): System {
    if token in s.drawn then s
    else
      s.(sessions := s.sessions[token := SessionRow(user, now + p.sessionLifetime)],
         drawn := s.drawn + {token})
  }

  ghost function Step(p: Policy, s: System, a: SystemAction): (t: System)
    requires WellKeyed(s.queue) && (a.Limit? ==> a.check.seconds >= 1)
    ensures WellKeyed(t.queue)
  {
    match a
    case Queue(action) => s.(queue := Apply(p.queue, s.queue, action))
    case Limit(check) => s.(buckets := Upsert(s.buckets, check))
    case Login(token, user, now) => ApplyLogin(p, s, token, user, now)
    case Lookup(_, _) => s
    case Logout(token) => s.(sessions := s.sessions - {token})
    case Revoke(user) => s.(sessions := map k | k in s.sessions && s.sessions[k].user != user :: s.sessions[k])
    case PurgeBuckets(now) => s.(buckets := KeptBuckets(s.buckets, now, p.bucketRetention))
    case PurgeSessions(now) => s.(sessions := KeptSessions(s.sessions, now, p.sessionRetention))
  }

  function FindSession(sessions: map<string, SessionRow>, token: string, now: Time): Option<int> {
    if token in sessions && sessions[token].expiresAt > now then Some(sessions[token].user) else None
  }

  // What the caller of one action learns. The phase a worker ends in tells
  // whether its claim, heartbeat, completion or failure went through.
  datatype Observation =
    | Nothing
    | Worked(phase: Phase)
    | Decided(decision: Decision)
    | Found(user: Option<int>)

  ghost function Observe(p: Policy, s: System, a: SystemAction): Observation
    requires WellKeyed(s.queue) && (a.Limit? ==> a.check.seconds >= 1)
  {
    match a
    case Queue(action) =>
      if action.Tick? || action.Draw? || action.Enqueue? || action.Cleanup? then Nothing
      else Worked(PhaseOf(Apply(p.queue, s.queue, action), action.worker))
    case Limit(check) => Decided(Decide(s.buckets, check))
    case Lookup(token, now) => Found(FindSession(s.sessions, token, now))
    case _ => Nothing
  }

  function ClockAfter(clock: Time, a: SystemAction): Time {
    if a.Queue? && a.action.Tick? then clock + a.action.elapsed else clock
  }

  // A clock reading at most lag old.
  predicate Recent(clock: Time, lag: nat, now: Time) {
    0 <= now <= clock <= now + lag
  }

  predicate TimelyAction(p: Policy, clock: Time, lag: nat, a: SystemAction) {
    match a
    case Limit(check) =>
      check.seconds >= 1 && check.seconds == p.windowOf(check.scope) && Recent(clock, lag, check.now)
    case Lookup(_, now) => Recent(clock, lag, now)
    case Login(_, _, now) => now <= clock
    case PurgeBuckets(now) => now <= clock
    case PurgeSessions(now) => now <= clock
    case _ => true
  }

  // A run of the system in which no request dawdles between reading its clock and
  // reaching its tables, and each scope keeps its window.
  predicate Timely(p: Policy, clock: Time, lag: nat, actions: seq<SystemAction>)
    decreases |actions|
  {
    actions == []
    || (TimelyAction(p, clock, lag, actions[0]) && Timely(p, ClockAfter(clock, actions[0]), lag, actions[1..]))
  }

  lemma ActionClock(cfg: Config, s: State, a: Action)
    requires WellKeyed(s)
    ensures Apply(cfg, s, a).clock == if a.Tick? then s.clock + a.elapsed else s.clock
  {
  }

  lemma StepClock(p: Policy, s: System, a: SystemAction)
    requires WellKeyed(s.queue) && (a.Limit? ==> a.check.seconds >= 1)
    ensures Step(p, s, a).queue.clock == ClockAfter(s.queue.clock, a)
  {
    if a.Queue? {
      ActionClock(p.queue, s.queue, a.action);
    }
  }

  function Erase(actions: seq<SystemAction>): seq<SystemAction> {
    if actions == [] then []
    else (if IsCleanup(actions[0]) then [] else [actions[0]]) + Erase(actions[1..])
  }

  // What the callers see over a whole run; the cleanup itself is not asked.
  ghost function Observations(p: Policy, s: System, lag: nat, actions: seq<SystemAction>): seq<Observation>
    requires WellKeyed(s.queue) && Timely(p, s.queue.clock, lag, actions)
    decreases |actions|
  {
    if actions == [] then []
    else
      StepClock(p, s, actions[0]);
      (if IsCleanup(actions[0]) then [] else [Observe(p, s, actions[0])])
        + Observations(p, Step(p, s, actions[0]), lag, actions[1..])
  }

  lemma {:induction false} ErasedTimely(p: Policy, clock: Time, lag: nat, actions: seq<SystemAction>)
    requires Timely(p, clock, lag, actions)
    ensures Timely(p, clock, lag, Erase(actions))
    decreases |actions|
  {
    if actions != [] {
      var rest := Erase(actions[1..]);
      ErasedTimely(p, ClockAfter(clock, actions[0]), lag, actions[1..]);
      if IsCleanup(actions[0]) {
        assert Erase(actions) == rest;
      } else {
        assert Erase(actions)[1..] == rest;
      }
    }
  }
}
