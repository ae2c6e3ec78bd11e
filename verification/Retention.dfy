/** Retention: the periodic deletion of expired rows from five tables. */
module Retention {
  import opened Common
  import opened JobRows
  import opened RateLimit
  import opened Database
  import opened Protocol

  // Retention times as durations.
  datatype Settings = Settings(logs: int, audits: int, sessions: int, buckets: int, jobs: int)

  datatype CleanupResult = CleanupResult(deliveryLogs: nat, auditLogs: nat, sessions: nat, rateBuckets: nat,
      queueJobs: nat)

  function KeptAudits(rows: map<nat, Time>, now: Time, retention: int): (kept: map<nat, Time>)
    ensures kept.Keys <= rows.Keys
  {
    map k | k in rows && !(rows[k] < now - retention) :: rows[k]
  }

  function KeptSessions(rows: map<string, SessionRow>, now: Time, retention: int): (kept: map<string, SessionRow>)
    ensures kept.Keys <= rows.Keys
  {
    map k | k in rows && !(rows[k].expiresAt < now - retention) :: rows[k]
  }

  function KeptBuckets(rows: map<Key, Bucket>, now: Time, retention: int): (kept: map<Key, Bucket>)
    ensures kept.Keys <= rows.Keys
  {
    map k | k in rows && !(rows[k].expiresAt < now - retention) :: rows[k]
  }

  function KeptJobs(rows: map<JobId, Job>, now: Time, retention: int): (kept: map<JobId, Job>)
    ensures kept.Keys <= rows.Keys
  {
    rows - Gone(rows, now, retention).Keys
  }

  // ---- what stays, column by column ----

  lemma LogsStay(rows: map<JobId, LogRow>, now: Time, retention: int)
    ensures var kept := KeptLogs(rows, now, retention);
            && (forall k :: k in kept <==> k in rows && rows[k].createdAt >= now - retention)
            && forall k :: k in kept ==> kept[k] == rows[k]
  {
  }

  lemma AuditsStay(rows: map<nat, Time>, now: Time, retention: int)
    ensures var kept := KeptAudits(rows, now, retention);
            && (forall k :: k in kept <==> k in rows && rows[k] >= now - retention)
            && forall k :: k in kept ==> kept[k] == rows[k]
  {
  }

  lemma SessionsStay(rows: map<string, SessionRow>, now: Time, retention: int)
    ensures var kept := KeptSessions(rows, now, retention);
            && (forall k :: k in kept <==> k in rows && rows[k].expiresAt >= now - retention)
            && forall k :: k in kept ==> kept[k] == rows[k]
  {
  }

  lemma BucketsStay(rows: map<Key, Bucket>, now: Time, retention: int)
    ensures var kept := KeptBuckets(rows, now, retention);
            && (forall k :: k in kept <==> k in rows && rows[k].expiresAt >= now - retention)
            && forall k :: k in kept ==> kept[k] == rows[k]
  {
  }

  lemma JobsStay(rows: map<JobId, Job>, now: Time, retention: int)
    ensures var kept := KeptJobs(rows, now, retention);
            && (forall k :: k in kept <==>
                  k in rows && (rows[k].terminalAt.None? || rows[k].terminalAt.value >= now - retention))
            && forall k :: k in kept ==> kept[k] == rows[k]
  {
  }

  // ---- the statements ----

  // How many rows of a table a statement that keeps these deletes.
  function Deleted<K, V>(rows: map<K, V>, kept: map<K, V>): (n: nat)
    requires kept.Keys <= rows.Keys
    ensures n == |rows| - |kept|
  {
    SubsetSize(kept.Keys, rows.Keys);
    assert |kept.Keys| == |kept| && |rows.Keys| == |rows|;
    |rows| - |kept|
  }

  // One DELETE statement for each table.
  method DeleteLogs(db: Tables, now: Time, retention: int) returns (deleted: nat)
    modifies db`logs
    ensures db.logs == KeptLogs(old(db.logs), now, retention) && deleted == |old(db.logs)| - |db.logs|
    ensures forall k :: k in db.logs <==> k in old(db.logs) && old(db.logs)[k].createdAt >= now - retention
  {
    LogsStay(db.logs, now, retention);
    var kept := KeptLogs(db.logs, now, retention);
    deleted, db.logs := Deleted(db.logs, kept), kept;
  }

  method DeleteAudits(db: Tables, now: Time, retention: int) returns (deleted: nat)
    modifies db`audits
    ensures db.audits == KeptAudits(old(db.audits), now, retention) && deleted == |old(db.audits)| - |db.audits|
    ensures forall k :: k in db.audits <==> k in old(db.audits) && old(db.audits)[k] >= now - retention
  {
    AuditsStay(db.audits, now, retention);
    var kept := KeptAudits(db.audits, now, retention);
    deleted, db.audits := Deleted(db.audits, kept), kept;
  }

  method DeleteSessions(db: Tables, now: Time, retention: int) returns (deleted: nat)
    modifies db`sessions
    ensures db.sessions == KeptSessions(old(db.sessions), now, retention)
            && deleted == |old(db.sessions)| - |db.sessions|
    ensures forall k :: k in db.sessions <==> k in old(db.sessions) && old(db.sessions)[k].expiresAt >= now - retention
  {
    SessionsStay(db.sessions, now, retention);
    var kept := KeptSessions(db.sessions, now, retention);
    deleted, db.sessions := Deleted(db.sessions, kept), kept;
  }

  method DeleteBuckets(db: Tables, now: Time, retention: int) returns (deleted: nat)
    modifies db`buckets
    ensures db.buckets == KeptBuckets(old(db.buckets), now, retention) && deleted == |old(db.buckets)| - |db.buckets|
    ensures forall k :: k in db.buckets <==> k in old(db.buckets) && old(db.buckets)[k].expiresAt >= now - retention
  {
    BucketsStay(db.buckets, now, retention);
    var kept := KeptBuckets(db.buckets, now, retention);
    deleted, db.buckets := Deleted(db.buckets, kept), kept;
  }

  method DeleteJobs(db: Tables, now: Time, retention: int) returns (deleted: nat)
    modifies db`jobs
    ensures db.jobs == KeptJobs(old(db.jobs), now, retention) && deleted == |old(db.jobs)| - |db.jobs|
    ensures forall k :: k in db.jobs <==>
              k in old(db.jobs) && (old(db.jobs)[k].terminalAt.None?
                  || old(db.jobs)[k].terminalAt.value >= now - retention)
  {
    JobsStay(db.jobs, now, retention);
    var kept := KeptJobs(db.jobs, now, retention);
    deleted, db.jobs := Deleted(db.jobs, kept), kept;
  }

  // The statement of one policy; policies are numbered in the order they are listed.
  method DeleteExpired(db: Tables, settings: Settings, policy: nat, now: Time) returns (deleted: nat)
    requires policy < 5
    modifies db
    ensures db.clock == old(db.clock) && db.nextJobId == old(db.nextJobId)
    ensures db.logs == if policy == 0 then KeptLogs(old(db.logs), now, settings.logs) else old(db.logs)
    ensures db.audits == if policy == 1 then KeptAudits(old(db.audits), now, settings.audits) else old(db.audits)
    ensures db.sessions == if policy == 2 then KeptSessions(old(db.sessions), now, settings.sessions)
            else old(db.sessions)
    ensures db.buckets == if policy == 3 then KeptBuckets(old(db.buckets), now, settings.buckets) else old(db.buckets)
    ensures db.jobs == if policy == 4 then KeptJobs(old(db.jobs), now, settings.jobs) else old(db.jobs)
    ensures deleted == match policy
                       case 0 => |old(db.logs)| - |db.logs|
                       case 1 => |old(db.audits)| - |db.audits|
                       case 2 => |old(db.sessions)| - |db.sessions|
                       case 3 => |old(db.buckets)| - |db.buckets|
                       case _ => |old(db.jobs)| - |db.jobs|
  {
    match policy
    case 0 => deleted := DeleteLogs(db, now, settings.logs);
    case 1 => deleted := DeleteAudits(db, now, settings.audits);
    case 2 => deleted := DeleteSessions(db, now, settings.sessions);
    case 3 => deleted := DeleteBuckets(db, now, settings.buckets);
    case _ => deleted := DeleteJobs(db, now, settings.jobs);
  }

  // The cleanup. A row stays if and only if it is not older than the retention of its
  // table; a job without a terminal time stays; what stays is unchanged.
  method CleanupExpiredData(db: Tables, settings: Settings, now: Time) returns (result: CleanupResult)
    modifies db
    ensures db.clock == old(db.clock) && db.nextJobId == old(db.nextJobId)
    ensures db.logs == KeptLogs(old(db.logs), now, settings.logs)
    ensures db.audits == KeptAudits(old(db.audits), now, settings.audits)
    ensures db.sessions == KeptSessions(old(db.sessions), now, settings.sessions)
    ensures db.buckets == KeptBuckets(old(db.buckets), now, settings.buckets)
    ensures db.jobs == KeptJobs(old(db.jobs), now, settings.jobs)
    ensures forall k :: k in db.logs <==> k in old(db.logs) && old(db.logs)[k].createdAt >= now - settings.logs
    ensures forall k :: k in db.logs ==> db.logs[k] == old(db.logs)[k]
    ensures forall k :: k in db.audits <==> k in old(db.audits) && old(db.audits)[k] >= now - settings.audits
    ensures forall k :: k in db.audits ==> db.audits[k] == old(db.audits)[k]
    ensures forall k :: k in db.sessions <==>
              k in old(db.sessions) && old(db.sessions)[k].expiresAt >= now - settings.sessions
    ensures forall k :: k in db.sessions ==> db.sessions[k] == old(db.sessions)[k]
    ensures forall k :: k in db.buckets <==>
              k in old(db.buckets) && old(db.buckets)[k].expiresAt >= now - settings.buckets
    ensures forall k :: k in db.buckets ==> db.buckets[k] == old(db.buckets)[k]
    ensures forall k :: k in db.jobs <==>
              && k in old(db.jobs)
              && (old(db.jobs)[k].terminalAt.None? || old(db.jobs)[k].terminalAt.value >= now - settings.jobs)
    ensures forall k :: k in db.jobs ==> db.jobs[k] == old(db.jobs)[k]
    ensures |db.logs| == |old(db.logs)| - result.deliveryLogs && |db.audits| == |old(db.audits)| - result.auditLogs
    ensures |db.sessions| == |old(db.sessions)| - result.sessions
            && |db.buckets| == |old(db.buckets)| - result.rateBuckets
    ensures |db.jobs| == |old(db.jobs)| - result.queueJobs
  {
    var counts: seq<nat> := [];
    for policy := 0 to 5
      invariant |counts| == policy
      invariant db.clock == old(db.clock) && db.nextJobId == old(db.nextJobId)
      invariant db.logs == if policy > 0 then KeptLogs(old(db.logs), now, settings.logs) else old(db.logs)
      invariant db.audits == if policy > 1 then KeptAudits(old(db.audits), now, settings.audits) else old(db.audits)
      invariant db.sessions == if policy > 2 then KeptSessions(old(db.sessions), now, settings.sessions)
                else old(db.sessions)
      invariant db.buckets == if policy > 3 then KeptBuckets(old(db.buckets), now, settings.buckets)
                else old(db.buckets)
      invariant db.jobs == if policy > 4 then KeptJobs(old(db.jobs), now, settings.jobs) else old(db.jobs)
      invariant policy > 0 ==> counts[0] == |old(db.logs)| - |db.logs|
      invariant policy > 1 ==> counts[1] == |old(db.audits)| - |db.audits|
      invariant policy > 2 ==> counts[2] == |old(db.sessions)| - |db.sessions|
      invariant policy > 3 ==> counts[3] == |old(db.buckets)| - |db.buckets|
      invariant policy > 4 ==> counts[4] == |old(db.jobs)| - |db.jobs|
    {
      var deleted := DeleteExpired(db, settings, policy, now);
      counts := counts + [deleted];
    }
    LogsStay(old(db.logs), now, settings.logs);
    AuditsStay(old(db.audits), now, settings.audits);
    SessionsStay(old(db.sessions), now, settings.sessions);
    BucketsStay(old(db.buckets), now, settings.buckets);
    JobsStay(old(db.jobs), now, settings.jobs);
    result := CleanupResult(counts[0], counts[1], counts[2], counts[3], counts[4]);
  }

  // On the job and log tables this is the cleanup action of the protocol.
  lemma CleanupIsProtocolAction(cfg: Config, s: State, now: Time)
    requires WellKeyed(s) && now <= s.clock
    ensures ApplyCleanup(cfg, s, now).jobs == KeptJobs(s.jobs, now, cfg.jobRetention)
    ensures ApplyCleanup(cfg, s, now).logs == KeptLogs(s.logs, now, cfg.logRetention)
    ensures var t := ApplyCleanup(cfg, s, now);
            && (forall j :: j in t.jobs <==>
                  && j in s.jobs
                  && (s.jobs[j].terminalAt.None? || s.jobs[j].terminalAt.value >= now - cfg.jobRetention))
            && (forall j :: j in t.logs <==> j in s.logs && s.logs[j].createdAt >= now - cfg.logRetention)
  {
    JobsStay(s.jobs, now, cfg.jobRetention);
    LogsStay(s.logs, now, cfg.logRetention);
  }
}
