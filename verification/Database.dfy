/** The tables the services share, and the clock their processes read. */
module Database {
  import opened Common
  import opened JobRows
  import opened RateLimit

  // A login session; its owner and the time it ends.
  datatype SessionRow = SessionRow(user: int, expiresAt: Time)

  class Tables {
    var clock: Time
    var jobs: map<JobId, Job>
    var nextJobId: JobId
    var logs: map<JobId, LogRow>           // by the job they were written with
    var audits: map<nat, Time>             // creation times
    var sessions: map<string, SessionRow>  // by token hash
    var buckets: map<Key, Bucket>

    constructor (start: Time)
      ensures clock == start && nextJobId == 1
      ensures jobs == map[] && logs == map[] && audits == map[] && sessions == map[] && buckets == map[]
    {
      clock, nextJobId := start, 1;
      jobs, logs, audits, sessions, buckets := map[], map[], map[], map[], map[];
    }
  }
}
