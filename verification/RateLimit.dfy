/** Rate limits (app/rate_limit.py): a sliding log in memory, and fixed windows counted by Redis. */
module RateLimit {
  import opened Prelude

  // ----- Sliding log

  /** The bucket without the entries at its head that are a window old. */
  function Pruned(bucket: seq<Time>, horizon: Time): seq<Time> {
    if bucket != [] && bucket[0] <= horizon then Pruned(bucket[1..], horizon) else bucket
  }

  datatype Admission = Admission(bucket: seq<Time>, ok: bool)

  function Admit(bucket: seq<Time>, now: Time, limit: int, window: int): Admission {
    var recent := Pruned(bucket, now - window as real);
    if |recent| >= limit then Admission(recent, false) else Admission(recent + [now], true)
  }

  class InMemoryRateLimiter {
    var buckets: map<string, seq<Time>>

    constructor ()
      ensures buckets == map[]
    {
      buckets := map[];
    }

    function BucketOf(key: string): seq<Time>
      reads this
    {
      if key in buckets then buckets[key] else []
    }

    method Allow(key: string, limit: int, window: int, now: Time) returns (ok: bool)
      modifies this
      ensures Admission(BucketOf(key), ok) == Admit(old(BucketOf(key)), now, limit, window)
      ensures forall k :: k != key ==> BucketOf(k) == old(BucketOf(k))
    {
      var bucket := BucketOf(key);
      while bucket != [] && bucket[0] <= now - window as real
        invariant Pruned(bucket, now - window as real) == Pruned(old(BucketOf(key)), now - window as real)
        decreases |bucket|
      {
        bucket := bucket[1..];
      }
      ok := |bucket| < limit;
      if ok {
        bucket := bucket + [now];
      }
      buckets := buckets[key := bucket];
    }
  }

  ghost predicate Ordered(times: seq<Time>) {
    forall i, j :: 0 <= i < j < |times| ==> times[i] <= times[j]
  }

  /** One key's bucket after calls at these times, with one limit and window. */
  function BucketAfter(times: seq<Time>, limit: int, window: int): seq<Time> {
    if times == [] then []
    else Admit(BucketAfter(times[..|times| - 1], limit, window), times[|times| - 1], limit, window).bucket
  }

  function IsAdmitted(times: seq<Time>, i: nat, limit: int, window: int): bool
    requires i < |times|
  {
    Admit(BucketAfter(times[..i], limit, window), times[i], limit, window).ok
  }

  /** Every admission so far. */
  function Admitted(times: seq<Time>, limit: int, window: int): seq<Time> {
    if times == [] then []
    else
      var n := |times| - 1;
      Admitted(times[..n], limit, window) + if IsAdmitted(times, n, limit, window) then [times[n]] else []
  }

  /** How many entries a pruning keeps. */
  lemma {:induction false} PrunedIsSuffix(bucket: seq<Time>, horizon: Time)
    requires Ordered(bucket)
    ensures |Pruned(bucket, horizon)| <= |bucket|
    ensures
      var k := |bucket| - |Pruned(bucket, horizon)|;
      && Pruned(bucket, horizon) == bucket[k..]
      && (forall i :: 0 <= i < k ==> bucket[i] <= horizon)
      && (forall i :: k <= i < |bucket| ==> bucket[i] > horizon)
  {
    if bucket != [] && bucket[0] <= horizon {
      PrunedIsSuffix(bucket[1..], horizon);
    }
  }

  /** The bucket is a suffix of all admissions, and what is missing in front of it is a window old. */
  ghost predicate Recent(bucket: seq<Time>, admitted: seq<Time>, horizon: Time) {
    && |bucket| <= |admitted| && bucket == admitted[|admitted| - |bucket|..]
    && (forall i :: 0 <= i < |admitted| - |bucket| ==> admitted[i] <= horizon)
    && (forall i :: |admitted| - |bucket| <= i < |admitted| ==> admitted[i] > horizon)
  }

  lemma PruningKeepsRecent(bucket: seq<Time>, admitted: seq<Time>, was: Time, horizon: Time)
    requires Ordered(admitted) && Recent(bucket, admitted, was) && was <= horizon
    ensures Recent(Pruned(bucket, horizon), admitted, horizon)
  {
    PrunedIsSuffix(bucket, horizon);
  }

  /** The bucket holds exactly the admissions less than a window older than `now`, in order. */
  ghost predicate RecentHistory(bucket: seq<Time>, admitted: seq<Time>, now: Time, window: int) {
    && Recent(bucket, admitted, now - window as real) && Ordered(admitted)
    && forall i :: 0 <= i < |admitted| ==> admitted[i] <= now
  }

  lemma AdmitKeepsHistory(bucket: seq<Time>, admitted: seq<Time>, was: Time, now: Time, limit: int, window: int)
    requires RecentHistory(bucket, admitted, was, window) && was <= now && window > 0
    ensures
      var a := Admit(bucket, now, limit, window);
      RecentHistory(a.bucket, admitted + if a.ok then [now] else [], now, window)
  {
    PruningKeepsRecent(bucket, admitted, was - window as real, now - window as real);
    assert admitted + [] == admitted;
  }

  /** After any calls, the bucket is exactly the recent part of the full history of admissions. */
  lemma {:induction false} BucketIsRecentHistory(times: seq<Time>, limit: int, window: int)
    requires times != [] && Ordered(times) && window > 0
    ensures RecentHistory(BucketAfter(times, limit, window), Admitted(times, limit, window), times[|times| - 1], window)
  {
    var n := |times| - 1;
    if n == 0 {
      assert BucketAfter(times[..0], limit, window) == [] == Admitted(times[..0], limit, window);
      AdmitKeepsHistory([], [], times[0], times[0], limit, window);
    } else {
      BucketIsRecentHistory(times[..n], limit, window);
      AdmitKeepsHistory(BucketAfter(times[..n], limit, window), Admitted(times[..n], limit, window),
                        times[n - 1], times[n], limit, window);
    }
  }

  /** When the last of the calls looks at the bucket, it finds the recent part of the admissions before it. */
  lemma PrunedIsRecent(times: seq<Time>, limit: int, window: int)
    requires times != [] && Ordered(times) && window > 0
    ensures
      var n := |times| - 1;
      var horizon := times[n] - window as real;
      Recent(Pruned(BucketAfter(times[..n], limit, window), horizon), Admitted(times[..n], limit, window), horizon)
  {
    var n := |times| - 1;
    if n > 0 {
      BucketIsRecentHistory(times[..n], limit, window);
      PruningKeepsRecent(BucketAfter(times[..n], limit, window), Admitted(times[..n], limit, window),
                         times[n - 1] - window as real, times[n] - window as real);
    }
  }

  /** A bucket below the limit leaves out the admission `limit` places before the next one. */
  lemma FullBucketIsOld(bucket: seq<Time>, admitted: seq<Time>, horizon: Time, limit: nat, i: nat)
    requires Recent(bucket, admitted, horizon) && |bucket| < limit && i + limit == |admitted|
    ensures admitted[i] <= horizon
  {
  }

  /** Any limit + 1 consecutive admissions span at least a window. */
  lemma {:induction false} SlidingLimit(times: seq<Time>, limit: nat, window: int, i: nat)
    requires Ordered(times) && window > 0 && i + limit < |Admitted(times, limit, window)|
    ensures Admitted(times, limit, window)[i + limit] - Admitted(times, limit, window)[i] >= window as real
  {
    var n := |times| - 1;
    var before := times[..n];
    var admitted := Admitted(before, limit, window);
    if i + limit < |admitted| {
      SlidingLimit(before, limit, window, i);
    } else {
      PrunedIsRecent(times, limit, window);
      FullBucketIsOld(Pruned(BucketAfter(before, limit, window), times[n] - window as real), admitted,
                      times[n] - window as real, limit, i);
    }
  }

  /** How many of the admissions are later than a time. */
  function CountLater(admitted: seq<Time>, horizon: Time): nat {
    if admitted == [] then 0
    else
      var n := |admitted| - 1;
      CountLater(admitted[..n], horizon) + if admitted[n] > horizon then 1 else 0
  }

  lemma {:induction false} RecentAreLater(bucket: seq<Time>, admitted: seq<Time>, horizon: Time)
    requires Recent(bucket, admitted, horizon)
    ensures CountLater(admitted, horizon) == |bucket|
  {
    if admitted != [] {
      var n := |admitted| - 1;
      RecentAreLater(if bucket == [] then [] else bucket[..|bucket| - 1], admitted[..n], horizon);
    }
  }

  /** A call is admitted exactly if fewer than `limit` admissions are less than a window old. */
  lemma AdmittedExactlyWhen(times: seq<Time>, limit: int, window: int)
    requires times != [] && Ordered(times) && window > 0
    ensures
      var n := |times| - 1;
      IsAdmitted(times, n, limit, window) <==>
        CountLater(Admitted(times[..n], limit, window), times[n] - window as real) < limit
  {
    var n := |times| - 1;
    var horizon := times[n] - window as real;
    PrunedIsRecent(times, limit, window);
    RecentAreLater(Pruned(BucketAfter(times[..n], limit, window), horizon), Admitted(times[..n], limit, window),
                   horizon);
  }

  // ----- Fixed windows

  /** A Redis counter and the time at which the key expires, if EXPIRE got through. */
  datatype Counter = Counter(count: nat, expires: Option<Time>)

  type Counters = map<int, Counter>

  /** Where the client raises, if anywhere. */
  datatype Fault = Fine | IncrFails | ExpireFails

  datatype RedisCall = RedisCall(now: Time, fault: Fault)

  function WindowOf(now: Time, window: int): int
    requires window > 0
  {
    now.Floor / window
  }

  /** The value after INCR; an expired key is gone. */
  function Current(counters: Counters, now: Time, window: int): nat
    requires window > 0
  {
    var k := WindowOf(now, window);
    if k in counters && (counters[k].expires.None? || now < counters[k].expires.value) then counters[k].count + 1 else 1
  }

  /** INCR of this window's counter, and EXPIRE with the first increment. */
  function Increment(counters: Counters, c: RedisCall, window: int): Counters
    requires window > 0
  {
    var k, current := WindowOf(c.now, window), Current(counters, c.now, window);
    if c.fault.IncrFails? then counters
    else if current > 1 then counters[k := Counter(current, counters[k].expires)]
    else counters[k := Counter(1, if c.fault.ExpireFails? then None else Some(c.now + (window + 1) as real))]
  }

  /** The answer; None stands for the RedisError. */
  function Answer(counters: Counters, c: RedisCall, limit: int, window: int): Option<bool>
    requires window > 0
  {
    var current := Current(counters, c.now, window);
    if c.fault.IncrFails? || (c.fault.ExpireFails? && current == 1) then None else Some(current <= limit)
  }

  class RedisRateLimiter {
    var counters: map<string, Counters>

    constructor ()
      ensures counters == map[]
    {
      counters := map[];
    }

    function CountersOf(key: string): Counters
      reads this
    {
      if key in counters then counters[key] else map[]
    }

    method Allow(key: string, limit: int, window: int, c: RedisCall) returns (r: Option<bool>)
      requires window > 0
      modifies this
      ensures r == Answer(old(CountersOf(key)), c, limit, window)
      ensures CountersOf(key) == Increment(old(CountersOf(key)), c, window)
      ensures forall k :: k != key ==> CountersOf(k) == old(CountersOf(k))
    {
      var mine := CountersOf(key);
      var k := c.now.Floor / window;
      if c.fault.IncrFails? {
        return None;
      }
      var current, expires := 1, None;
      if k in mine && (mine[k].expires.None? || c.now < mine[k].expires.value) {
        current, expires := mine[k].count + 1, mine[k].expires;
      }
      if current == 1 && !c.fault.ExpireFails? {
        expires := Some(c.now + (window + 1) as real);
      }
      if current == 1 && c.fault.ExpireFails? {
        expires := None;
      }
      counters := counters[key := mine[k := Counter(current, expires)]];
      if current == 1 && c.fault.ExpireFails? {
        return None;
      }
      r := Some(current <= limit);
    }
  }

  class HybridRateLimiter {
    const memory: InMemoryRateLimiter
    const redis: RedisRateLimiter
    const hasRedis: bool
    const failClosed: bool

    constructor (hasRedis: bool, failClosed: bool)
      ensures fresh(memory) && fresh(redis) && this.hasRedis == hasRedis && this.failClosed == failClosed
      ensures memory.buckets == map[] && redis.counters == map[]
    {
      this.hasRedis, this.failClosed := hasRedis, failClosed;
      memory := new InMemoryRateLimiter();
      redis := new RedisRateLimiter();
    }

    /** Redis decides as long as it answers; when it raises, the call is refused, or the memory decides. */
    method Allow(key: string, limit: int, window: int, c: RedisCall) returns (ok: bool)
      requires window > 0
      modifies memory, redis
      ensures
        var answer := Answer(old(redis.CountersOf(key)), c, limit, window);
        var admission := Admit(old(memory.BucketOf(key)), c.now, limit, window);
        && ok == (if hasRedis && (answer.Some? || failClosed) then answer == Some(true) else admission.ok)
        && redis.CountersOf(key) ==
             (if hasRedis then Increment(old(redis.CountersOf(key)), c, window) else old(redis.CountersOf(key)))
        && memory.BucketOf(key) ==
             (if hasRedis && (answer.Some? || failClosed) then old(memory.BucketOf(key)) else admission.bucket)
    {
      if hasRedis {
        var r := redis.Allow(key, limit, window, c);
        if r.Some? {
          return r.value;
        }
        if failClosed {
          return false;
        }
      }
      ok := memory.Allow(key, limit, window, c.now);
    }
  }

  function CountersAfter(calls: seq<RedisCall>, window: int): Counters
    requires window > 0
  {
    if calls == [] then map[] else Increment(CountersAfter(calls[..|calls| - 1], window), calls[|calls| - 1], window)
  }

  function IsPassed(calls: seq<RedisCall>, i: nat, limit: int, window: int): bool
    requires window > 0 && i < |calls|
  {
    Answer(CountersAfter(calls[..i], window), calls[i], limit, window) == Some(true)
  }

  /** The calls in aligned window `k` whose INCR got through. */
  function CallsIn(calls: seq<RedisCall>, k: int, window: int): nat
    requires window > 0
  {
    if calls == [] then 0
    else
      var c := calls[|calls| - 1];
      CallsIn(calls[..|calls| - 1], k, window) + if WindowOf(c.now, window) == k && !c.fault.IncrFails? then 1 else 0
  }

  lemma WindowBounds(now: Time, window: int)
    requires window > 0
    ensures
      var k := WindowOf(now, window);
      (k * window) as real <= now < ((k + 1) * window) as real
  {
    var k := now.Floor / window;
    assert k * window <= now.Floor < k * window + window;
    assert (k + 1) * window == k * window + window;
  }

  lemma ExpiryIsLater(now: Time, window: int, k: int)
    requires window > 0 && k == WindowOf(now, window)
    ensures now + (window + 1) as real >= ((k + 1) * window + 1) as real
  {
    WindowBounds(now, window);
    assert (k + 1) * window + 1 == k * window + (window + 1);
  }

  /** A counter outlives its window, so it counts every call of the window that reached it. */
  lemma {:induction false} CountersAreExact(calls: seq<RedisCall>, window: int, k: int)
    requires window > 0
    ensures
      var counters := CountersAfter(calls, window);
      if CallsIn(calls, k, window) == 0 then k !in counters
      else
        && k in counters && counters[k].count == CallsIn(calls, k, window)
        && (counters[k].expires.Some? ==> counters[k].expires.value >= ((k + 1) * window + 1) as real)
  {
    if calls != [] {
      var n := |calls| - 1;
      CountersAreExact(calls[..n], window, k);
      if WindowOf(calls[n].now, window) == k {
        WindowBounds(calls[n].now, window);
        ExpiryIsLater(calls[n].now, window, k);
      }
    }
  }

  /**
    What each call is answered: an error exactly if INCR fails, or EXPIRE with the first call of the window that got
    through; else whether the calls of the window up to this one are at most `limit`.
   */
  lemma AnswersExactly(calls: seq<RedisCall>, i: nat, limit: int, window: int)
    requires window > 0 && i < |calls|
    ensures
      var n := CallsIn(calls[..i], calls[i].now.Floor / window, window);
      Answer(CountersAfter(calls[..i], window), calls[i], limit, window)
      == if calls[i].fault.IncrFails? || (n == 0 && calls[i].fault.ExpireFails?) then None else Some(n + 1 <= limit)
  {
    var k := WindowOf(calls[i].now, window);
    CountersAreExact(calls[..i], window, k);
    WindowBounds(calls[i].now, window);
  }

  /** The calls between two times that are let through. */
  function PassedBetween(calls: seq<RedisCall>, from: Time, until: Time, limit: int, window: int): nat
    requires window > 0
  {
    if calls == [] then 0
    else
      var n := |calls| - 1;
      PassedBetween(calls[..n], from, until, limit, window)
      + if from <= calls[n].now < until && IsPassed(calls, n, limit, window) then 1 else 0
  }

  function PassedIn(calls: seq<RedisCall>, k: int, limit: int, window: int): nat
    requires window > 0
  {
    if calls == [] then 0
    else
      var n := |calls| - 1;
      PassedIn(calls[..n], k, limit, window)
      + if WindowOf(calls[n].now, window) == k && IsPassed(calls, n, limit, window) then 1 else 0
  }

  /**
    An aligned window lets through at most the first `limit` calls, whatever Redis does, and all of these when
    it never fails.
   */
  lemma {:induction false} FixedWindowLimit(calls: seq<RedisCall>, limit: nat, window: int, k: int)
    requires window > 0
    ensures PassedIn(calls, k, limit, window) <= Min(limit, CallsIn(calls, k, window))
    ensures (forall i :: 0 <= i < |calls| ==> calls[i].fault.Fine?) ==>
      PassedIn(calls, k, limit, window) == Min(limit, CallsIn(calls, k, window))
  {
    if calls != [] {
      var n := |calls| - 1;
      FixedWindowLimit(calls[..n], limit, window, k);
      if WindowOf(calls[n].now, window) == k {
        CountersAreExact(calls[..n], window, k);
        WindowBounds(calls[n].now, window);
      }
    }
  }

  lemma MultiplesAreMonotone(i: int, j: int, window: int)
    requires window > 0 && i <= j
    ensures i * window <= j * window
  {
  }

  lemma QuotientsAreMonotone(a: int, b: int, window: int)
    requires window > 0 && a <= b
    ensures a / window <= b / window
  {
    var j, k := a / window, b / window;
    assert j * window <= a && b < k * window + window;
    if k < j {
      MultiplesAreMonotone(k + 1, j, window);
      assert false;
    }
  }

  lemma NextQuotient(a: int, window: int)
    requires window > 0
    ensures (a + window) / window == a / window + 1
  {
    var j, k := a / window, (a + window) / window;
    assert j * window <= a < j * window + window;
    assert k * window <= a + window < k * window + window;
    assert (j + 1) * window == j * window + window && (j + 2) * window == j * window + window + window;
    if k < j + 1 {
      MultiplesAreMonotone(k + 1, j + 1, window);
    } else if k > j + 1 {
      MultiplesAreMonotone(j + 2, k, window);
    }
  }

  lemma NextWindowAtMost(from: Time, now: Time, window: int)
    requires window > 0 && from <= now < from + window as real
    ensures WindowOf(from, window) <= WindowOf(now, window) <= WindowOf(from, window) + 1
  {
    assert from.Floor <= now.Floor <= from.Floor + window;
    QuotientsAreMonotone(from.Floor, now.Floor, window);
    QuotientsAreMonotone(now.Floor, from.Floor + window, window);
    NextQuotient(from.Floor, window);
  }

  /** A window's length from any moment on meets two aligned windows at most. */
  lemma {:induction false} IntervalMeetsTwo(calls: seq<RedisCall>, from: Time, limit: int, window: int)
    requires window > 0
    ensures
      var k := WindowOf(from, window);
      PassedBetween(calls, from, from + window as real, limit, window)
        <= PassedIn(calls, k, limit, window) + PassedIn(calls, k + 1, limit, window)
  {
    if calls != [] {
      var n := |calls| - 1;
      IntervalMeetsTwo(calls[..n], from, limit, window);
      if from <= calls[n].now < from + window as real {
        NextWindowAtMost(from, calls[n].now, window);
      }
    }
  }

  /** In any interval as long as a window, at most twice the limit is let through. */
  lemma TwiceTheLimit(calls: seq<RedisCall>, from: Time, limit: nat, window: int)
    requires window > 0
    ensures PassedBetween(calls, from, from + window as real, limit, window) <= 2 * limit
  {
    var k := WindowOf(from, window);
    IntervalMeetsTwo(calls, from, limit, window);
    FixedWindowLimit(calls, limit, window, k);
    FixedWindowLimit(calls, limit, window, k + 1);
  }
}
