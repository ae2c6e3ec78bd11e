/** The fixed-window rate limiter: one counter per scope, subject and window. */
module RateLimit {
  import opened Common

  // Whole seconds of a duration, cut off towards zero.
  function WholeSeconds(t: Time): int {
    if t >= 0 then t / SECOND else -((-t) / SECOND)
  }

  // The window of the given length, in seconds, that contains now.
  function WindowStart(now: Time, seconds: int): Time
    requires seconds >= 1
  {
    var epoch := WholeSeconds(now);
    (epoch - epoch % seconds) * SECOND
  }

  function WindowEnd(now: Time, seconds: int): Time
    requires seconds >= 1
  {
    WindowStart(now, seconds) + seconds * SECOND
  }

  datatype Key = Key(scope: string, subject: string, start: Time)

  datatype Bucket = Bucket(count: nat, expiresAt: Time)

  datatype Decision = Decision(allowed: bool, limit: int, remaining: int, retryAfter: int)

  // One call of the limiter; subject is the digest of the client's identity.
  datatype Check = Check(scope: string, subject: string, limit: int, seconds: int, now: Time)

  predicate WellTimed(c: Check) {
    c.seconds >= 1 && c.now >= 0
  }

  function KeyOf(c: Check): Key
    requires c.seconds >= 1
  {
    Key(c.scope, c.subject, WindowStart(c.now, c.seconds))
  }

  function CountIn(buckets: map<Key, Bucket>, key: Key): nat {
    if key in buckets then buckets[key].count else 0
  }

  // The atomic upsert: insert a bucket with count 1, or add 1 to the one there.
  function Upsert(buckets: map<Key, Bucket>, c: Check): map<Key, Bucket>
    requires c.seconds >= 1
  {
    buckets[KeyOf(c) := Bucket(CountIn(buckets, KeyOf(c)) + 1, WindowEnd(c.now, c.seconds))]
  }

  function Decide(buckets: map<Key, Bucket>, c: Check): Decision
    requires c.seconds >= 1
  {
    var count := CountIn(buckets, KeyOf(c)) + 1;
    Decision(count <= c.limit, c.limit, Max(0, c.limit - count),
             Max(1, WholeSeconds(WindowEnd(c.now, c.seconds) - c.now) + 1))
  }

  // ---- windows and the Retry-After time ----

  lemma Quotient(e: int, s: int)
    requires e >= 0 && s >= 1
    ensures e == (e / s) * s + e % s && 0 <= e % s < s && 0 <= e / s && e % s <= e
  {
    assert (e / s) * s >= 0;
  }

  // The window contains now.
  lemma WindowContains(now: Time, seconds: int)
    requires now >= 0 && seconds >= 1
    ensures 0 <= WindowStart(now, seconds) <= now < WindowEnd(now, seconds)
  {
    var epoch := now / SECOND;
    assert 0 <= epoch % seconds < seconds && epoch % seconds <= epoch by {
      Quotient(epoch, seconds);
    }
  }

  // The number of the window among all windows since the epoch.
  function WindowIndex(now: Time, seconds: int): nat
    requires now >= 0 && seconds >= 1
  {
    (now / SECOND) / seconds
  }

  lemma StartOfIndex(now: Time, seconds: int)
    requires now >= 0 && seconds >= 1
    ensures WindowStart(now, seconds) == WindowIndex(now, seconds) * seconds * SECOND
  {
    Quotient(now / SECOND, seconds);
  }

  lemma NextMultiple(a: int, b: int, s: int)
    requires a < b && s >= 1
    ensures a * s + s <= b * s
  {
    var gap := b - a - 1;
    assert b * s == (a + gap) * s + s;
    assert (a + gap) * s == a * s + gap * s;
    assert gap * s >= 0;
  }

  // Two numbers less than a step apart from the same multiple have it as quotient.
  lemma QuotientUnique(e: int, s: int, k: int)
    requires s >= 1 && k >= 0 && k * s <= e < k * s + s
    ensures e / s == k && e % s == e - k * s
  {
    Quotient(e, s);
    if e / s < k {
      NextMultiple(e / s, k, s);
    } else if e / s > k {
      NextMultiple(k, e / s, s);
    }
  }

  lemma WindowOfIndex(x: Time, seconds: int, k: nat)
    requires seconds >= 1 && x >= 0
    requires k * seconds * SECOND <= x < k * seconds * SECOND + seconds * SECOND
    ensures WindowIndex(x, seconds) == k && WindowStart(x, seconds) == k * seconds * SECOND
  {
    var first := k * seconds;
    assert first <= x / SECOND < first + seconds;
    QuotientUnique(x / SECOND, seconds, k);
    StartOfIndex(x, seconds);
  }

  lemma EndIsWholeSecond(now: Time, seconds: int)
    requires now >= 0 && seconds >= 1
    ensures WindowEnd(now, seconds) % SECOND == 0
  {
  }

  // For every time, before the epoch too: the window is the one of its length that
  // contains the whole second of now, cut off towards zero.
  lemma WindowExactly(now: Time, seconds: int)
    requires seconds >= 1
    ensures var start, second := WindowStart(now, seconds), WholeSeconds(now) * SECOND;
            && (exists k: int :: start == k * seconds * SECOND)
            && start <= second < start + seconds * SECOND == WindowEnd(now, seconds)
            && (if now >= 0 then second <= now < second + SECOND else second - SECOND < now <= second)
  {
    var epoch := WholeSeconds(now);
    assert WindowStart(now, seconds) == (epoch / seconds) * seconds * SECOND by {
      assert epoch == (epoch / seconds) * seconds + epoch % seconds;
    }
  }

  // The wait is the least number of whole seconds after which the window is over.
  lemma RetryAfterLeast(buckets: map<Key, Bucket>, c: Check)
    requires c.seconds >= 1
    ensures var wait := Decide(buckets, c).retryAfter;
            && wait >= 1
            && c.now + (wait - 1) * SECOND <= WindowEnd(c.now, c.seconds) < c.now + wait * SECOND
  {
    WindowExactly(c.now, c.seconds);
    var left := WindowEnd(c.now, c.seconds) - c.now;
    assert left > 0;
    assert WholeSeconds(left) * SECOND <= left < (WholeSeconds(left) + 1) * SECOND;
  }

  // A client that waits as told finds itself past the window that refused it,
  // and never waits more than a second longer than the window. It lands in the
  // very next window except when the window is a single second and the request
  // came exactly at its start.
  lemma RetryAfterSound(buckets: map<Key, Bucket>, c: Check)
    requires WellTimed(c)
    ensures var wait := Decide(buckets, c).retryAfter;
            && 1 <= wait <= c.seconds + 1
            && c.now + wait * SECOND > WindowEnd(c.now, c.seconds)
            && (WindowStart(c.now + wait * SECOND, c.seconds) == WindowEnd(c.now, c.seconds)
                <==> c.seconds >= 2 || c.now % SECOND != 0)
  {
    WindowContains(c.now, c.seconds);
    var end := WindowEnd(c.now, c.seconds);
    var wait := WholeSeconds(end - c.now) + 1;
    var later := c.now + wait * SECOND;
    assert end < later <= end + SECOND;
    assert WholeSeconds(end - c.now) <= c.seconds;
    assert wait == Decide(buckets, c).retryAfter;
    var k := WindowIndex(c.now, c.seconds);
    StartOfIndex(c.now, c.seconds);
    assert end == (k + 1) * c.seconds * SECOND by {
      assert (k + 1) * c.seconds == k * c.seconds + c.seconds;
    }
    if c.seconds >= 2 || later < end + SECOND {
      assert later < end + c.seconds * SECOND;
      WindowOfIndex(later, c.seconds, k + 1);
    } else {
      assert later == end + SECOND;
      assert (k + 2) * c.seconds * SECOND == later;
      WindowOfIndex(later, c.seconds, k + 2);
    }
    EndIsWholeSecond(c.now, c.seconds);
  }

  // ---- counting over runs ----

  predicate AllWellTimed(checks: seq<Check>) {
    forall i :: 0 <= i < |checks| ==> WellTimed(checks[i])
  }

  // The buckets after the checks have gone through one after the other.
  function Buckets(buckets: map<Key, Bucket>, checks: seq<Check>): map<Key, Bucket>
    requires AllWellTimed(checks)
    decreases |checks|
  {
    if checks == [] then buckets else Buckets(Upsert(buckets, checks[0]), checks[1..])
  }

  // How many of the checks fall in one window of one subject, and how many of them pass.
  function Hits(checks: seq<Check>, key: Key): nat
    requires AllWellTimed(checks)
  {
    if checks == [] then 0 else (if KeyOf(checks[0]) == key then 1 else 0) + Hits(checks[1..], key)
  }

  function AllowedHits(buckets: map<Key, Bucket>, checks: seq<Check>, key: Key): nat
    requires AllWellTimed(checks)
    decreases |checks|
  {
    if checks == [] then 0
    else
      (if KeyOf(checks[0]) == key && Decide(buckets, checks[0]).allowed then 1 else 0)
        + AllowedHits(Upsert(buckets, checks[0]), checks[1..], key)
  }

  // All checks of this window use the same limit.
  predicate SameLimit(checks: seq<Check>, key: Key, limit: int)
    requires AllWellTimed(checks)
  {
    forall i :: 0 <= i < |checks| && KeyOf(checks[i]) == key ==> checks[i].limit == limit
  }

  // However the checks of all windows are interleaved: the bucket of a window
  // counts exactly its checks, and exactly as many pass as the limit leaves room for.
  lemma {:induction false} LimiterExact(buckets: map<Key, Bucket>, checks: seq<Check>, key: Key, limit: int)
    requires AllWellTimed(checks) && SameLimit(checks, key, limit)
    ensures var before := CountIn(buckets, key);
            var after := CountIn(Buckets(buckets, checks), key);
            && after == before + Hits(checks, key)
            && AllowedHits(buckets, checks, key) == Max(0, Min(limit, after)) - Max(0, Min(limit, before))
    decreases |checks|
  {
    if checks != [] {
      var next := Upsert(buckets, checks[0]);
      assert forall i :: 0 <= i < |checks[1..]| ==> checks[1..][i] == checks[i + 1];
      LimiterExact(next, checks[1..], key, limit);
    }
  }

  // In a fresh window exactly min(n, limit) of n checks pass.
  lemma FreshWindowExact(buckets: map<Key, Bucket>, checks: seq<Check>, key: Key, limit: nat)
    requires AllWellTimed(checks) && SameLimit(checks, key, limit) && key !in buckets
    ensures AllowedHits(buckets, checks, key) == Min(Hits(checks, key), limit)
  {
    LimiterExact(buckets, checks, key, limit);
  }

  // The number a check reports as remaining is how many of the checks to come
  // in its window will pass, as far as there are that many.
  lemma RemainingIsExact(buckets: map<Key, Bucket>, c: Check, later: seq<Check>)
    requires WellTimed(c) && AllWellTimed(later) && SameLimit(later, KeyOf(c), c.limit)
    ensures AllowedHits(Upsert(buckets, c), later, KeyOf(c)) == Min(Hits(later, KeyOf(c)), Decide(buckets, c).remaining)
  {
    LimiterExact(Upsert(buckets, c), later, KeyOf(c), c.limit);
  }

  // ---- any interval of time ----

  predicate From(c: Check, scope: string, subject: string, seconds: int, limit: int) {
    c.scope == scope && c.subject == subject ==> c.seconds == seconds && c.limit == limit
  }

  predicate Uniform(checks: seq<Check>, scope: string, subject: string, seconds: int, limit: int) {
    forall i :: 0 <= i < |checks| ==> From(checks[i], scope, subject, seconds, limit)
  }

  // The checks of one subject that pass between two times.
  function AllowedBetween(buckets: map<Key, Bucket>, checks: seq<Check>, scope: string, subject: string, low: Time,
                          high: Time): nat
    requires AllWellTimed(checks)
    decreases |checks|
  {
    if checks == [] then 0
    else
      var c := checks[0];
      (if c.scope == scope && c.subject == subject && low <= c.now < high && Decide(buckets, c).allowed then 1 else 0)
        + AllowedBetween(Upsert(buckets, c), checks[1..], scope, subject, low, high)
  }

  // The checks of one subject that pass in n consecutive windows.
  function AllowedInWindows(buckets: map<Key, Bucket>, checks: seq<Check>, scope: string, subject: string,
                            first: nat, n: nat): nat
    requires AllWellTimed(checks)
    decreases |checks|
  {
    if checks == [] then 0
    else
      var c := checks[0];
      (if && c.scope == scope && c.subject == subject && first <= WindowIndex(c.now, c.seconds) < first + n
          && Decide(buckets, c).allowed then 1 else 0)
        + AllowedInWindows(Upsert(buckets, c), checks[1..], scope, subject, first, n)
  }

  function KeyAt(scope: string, subject: string, seconds: int, index: nat): Key {
    Key(scope, subject, index * seconds * SECOND)
  }

  lemma KeyIsIndex(c: Check, scope: string, subject: string, seconds: int, limit: int, index: nat)
    requires WellTimed(c) && seconds >= 1 && From(c, scope, subject, seconds, limit)
    ensures KeyOf(c) == KeyAt(scope, subject, seconds, index) <==>
            c.scope == scope && c.subject == subject && WindowIndex(c.now, c.seconds) == index
  {
    if c.scope == scope && c.subject == subject {
      StartOfIndex(c.now, seconds);
      var i := WindowIndex(c.now, seconds);
      if i * seconds * SECOND == index * seconds * SECOND {
        assert (i - index) * seconds == 0;
      }
    }
  }

  lemma {:induction false} OneMoreWindow(buckets: map<Key, Bucket>, checks: seq<Check>, scope: string, subject: string,
                                         seconds: int, limit: int, first: nat, n: nat)
    requires AllWellTimed(checks) && seconds >= 1 && Uniform(checks, scope, subject, seconds, limit)
    ensures AllowedInWindows(buckets, checks, scope, subject, first, n + 1) ==
            AllowedInWindows(buckets, checks, scope, subject, first, n)
              + AllowedHits(buckets, checks, KeyAt(scope, subject, seconds, first + n))
    decreases |checks|
  {
    if checks != [] {
      assert From(checks[0], scope, subject, seconds, limit);
      KeyIsIndex(checks[0], scope, subject, seconds, limit, first + n);
      assert forall i :: 0 <= i < |checks[1..]| ==> checks[1..][i] == checks[i + 1];
      OneMoreWindow(Upsert(buckets, checks[0]), checks[1..], scope, subject, seconds, limit, first, n);
    }
  }

  lemma UniformLimit(checks: seq<Check>, scope: string, subject: string, seconds: int, limit: int, index: nat)
    requires AllWellTimed(checks) && Uniform(checks, scope, subject, seconds, limit)
    ensures SameLimit(checks, KeyAt(scope, subject, seconds, index), limit)
  {
    forall i | 0 <= i < |checks| && KeyOf(checks[i]) == KeyAt(scope, subject, seconds, index)
      ensures checks[i].limit == limit
    {
      assert From(checks[i], scope, subject, seconds, limit);
    }
  }

  lemma {:induction false} NoWindows(buckets: map<Key, Bucket>, checks: seq<Check>, scope: string, subject: string,
                                     first: nat)
    requires AllWellTimed(checks)
    ensures AllowedInWindows(buckets, checks, scope, subject, first, 0) == 0
    decreases |checks|
  {
    if checks != [] {
      NoWindows(Upsert(buckets, checks[0]), checks[1..], scope, subject, first);
    }
  }

  lemma {:induction false} WindowsBound(buckets: map<Key, Bucket>, checks: seq<Check>, scope: string, subject: string,
                                        seconds: int, limit: nat, first: nat, n: nat)
    requires AllWellTimed(checks) && seconds >= 1 && Uniform(checks, scope, subject, seconds, limit)
    ensures AllowedInWindows(buckets, checks, scope, subject, first, n) <= n * limit
    decreases n
  {
    if n == 0 {
      NoWindows(buckets, checks, scope, subject, first);
    } else {
      OneMoreWindow(buckets, checks, scope, subject, seconds, limit, first, n - 1);
      WindowsBound(buckets, checks, scope, subject, seconds, limit, first, n - 1);
      var key := KeyAt(scope, subject, seconds, first + n - 1);
      UniformLimit(checks, scope, subject, seconds, limit, first + n - 1);
      LimiterExact(buckets, checks, key, limit);
      assert n * limit == (n - 1) * limit + limit;
    }
  }

  lemma IndexOrder(i: nat, j: nat, k: nat, w: int, low: Time, now: Time)
    requires w >= 1 && low <= now < low + k * w
    requires i * w <= low < i * w + w && j * w <= now < j * w + w
    ensures i <= j < i + k + 1
  {
    assert j * w < (i + k + 1) * w;
    assert i * w < (j + 1) * w;
  }

  lemma Associates(i: int, seconds: int)
    ensures i * seconds * SECOND == i * (seconds * SECOND)
  {
  }

  lemma InWindowOfIndex(now: Time, seconds: int)
    requires now >= 0 && seconds >= 1
    ensures var i, w := WindowIndex(now, seconds), seconds * SECOND; i * w <= now < i * w + w
  {
    StartOfIndex(now, seconds);
    WindowContains(now, seconds);
    Associates(WindowIndex(now, seconds), seconds);
  }

  // An interval as long as k windows meets at most k + 1 of them.
  lemma IntervalMeetsWindows(now: Time, low: Time, seconds: int, k: nat)
    requires low >= 0 && seconds >= 1 && low <= now < low + k * seconds * SECOND
    ensures WindowIndex(low, seconds) <= WindowIndex(now, seconds) < WindowIndex(low, seconds) + k + 1
  {
    InWindowOfIndex(low, seconds);
    InWindowOfIndex(now, seconds);
    Associates(k, seconds);
    IndexOrder(WindowIndex(low, seconds), WindowIndex(now, seconds), k, seconds * SECOND, low, now);
  }

  lemma {:induction false} IntervalWithinWindows(buckets: map<Key, Bucket>, checks: seq<Check>, scope: string,
                                                 subject: string, seconds: int, limit: int, low: Time, k: nat)
    requires AllWellTimed(checks) && seconds >= 1 && low >= 0 && Uniform(checks, scope, subject, seconds, limit)
    ensures AllowedBetween(buckets, checks, scope, subject, low, low + k * seconds * SECOND) <=
            AllowedInWindows(buckets, checks, scope, subject, WindowIndex(low, seconds), k + 1)
    decreases |checks|
  {
    if checks != [] {
      var c := checks[0];
      assert From(c, scope, subject, seconds, limit);
      if c.scope == scope && c.subject == subject && low <= c.now < low + k * seconds * SECOND {
        IntervalMeetsWindows(c.now, low, seconds, k);
      }
      assert forall i :: 0 <= i < |checks[1..]| ==> checks[1..][i] == checks[i + 1];
      IntervalWithinWindows(Upsert(buckets, c), checks[1..], scope, subject, seconds, limit, low, k);
    }
  }

  // Any stretch of time as long as k windows lets at most (k + 1) * limit
  // requests of one subject pass, wherever it starts.
  lemma IntervalBound(buckets: map<Key, Bucket>, checks: seq<Check>, scope: string, subject: string,
                      seconds: int, limit: nat, low: Time, k: nat)
    requires AllWellTimed(checks) && seconds >= 1 && low >= 0 && Uniform(checks, scope, subject, seconds, limit)
    ensures AllowedBetween(buckets, checks, scope, subject, low, low + k * seconds * SECOND) <= (k + 1) * limit
  {
    IntervalWithinWindows(buckets, checks, scope, subject, seconds, limit, low, k);
    WindowsBound(buckets, checks, scope, subject, seconds, limit, WindowIndex(low, seconds), k + 1);
  }
}
