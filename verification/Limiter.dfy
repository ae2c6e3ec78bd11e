/** The limiter's transaction on the shared bucket table. */
module Limiter {
  import opened Common
  import opened RateLimit
  import opened Database

  method CheckRateLimit(db: Tables, digest: string -> string, scope: string, identity: string, limit: int,
                        windowSeconds: int, now: Time)
    returns (decision: Decision)
    requires windowSeconds >= 1
    modifies db`buckets
    ensures var c := Check(scope, digest(identity), limit, windowSeconds, now);
            decision == Decide(old(db.buckets), c) && db.buckets == Upsert(old(db.buckets), c)
    ensures var start := WindowStart(now, windowSeconds);
            var key := Key(scope, digest(identity), start);
            var count := if key in old(db.buckets) then old(db.buckets)[key].count + 1 else 1;
            && key in db.buckets && db.buckets == old(db.buckets)[key := db.buckets[key]]
            && db.buckets[key].count == count && db.buckets[key].expiresAt == start + windowSeconds * SECOND
            && (decision.allowed <==> count <= limit) && decision.limit == limit
            && decision.remaining == (if count <= limit then limit - count else 0)
            && now + (decision.retryAfter - 1) * SECOND <= start + windowSeconds * SECOND
                 < now + decision.retryAfter * SECOND
  {
    RetryAfterLeast(db.buckets, Check(scope, digest(identity), limit, windowSeconds, now));
    var start := WindowStart(now, windowSeconds);
    var end := WindowEnd(now, windowSeconds);
    var key := Key(scope, digest(identity), start);
    var count := 1;
    if key in db.buckets {
      count := db.buckets[key].count + 1;
    }
    db.buckets := db.buckets[key := Bucket(count, end)];
    var retryAfter := Max(1, WholeSeconds(end - now) + 1);
    decision := Decision(count <= limit, limit, Max(0, limit - count), retryAfter);
  }
}
