/**
  Single use of tokens (app/replay_protection.py). A store remembers (tenant, jti) pairs until they expire;
  the Redis store and the in-memory store differ only in how they are reached.
 */
module ReplayProtection {
  import opened Prelude

  datatype TokenId = TokenId(tenantId: string, jti: string)

  type Seen = map<TokenId, Time>

  function Unexpired(seen: Seen, now: Time): Seen {
    map id | id in seen && seen[id] > now :: seen[id]
  }

  datatype Marking = Marking(seen: Seen, first: bool)

  /** What one call on a working store does, and answers. */
  function Mark(seen: Seen, id: TokenId, ttl: int, now: Time): Marking {
    var live := Unexpired(seen, now);
    if id in live then Marking(live, false) else Marking(live[id := now + ttl as real], true)
  }

  class InMemoryReplayStore {
    var seen: Seen

    constructor ()
      ensures seen == map[]
    {
      seen := map[];
    }

    method MarkIfFirstSeen(id: TokenId, ttl: int, now: Time) returns (first: bool)
      modifies this
      ensures Marking(seen, first) == Mark(old(seen), id, ttl, now)
    {
      var expired := set k | k in seen && seen[k] <= now;
      while expired != {}
        invariant expired == set k | k in seen && seen[k] <= now
        invariant Unexpired(seen, now) == Unexpired(old(seen), now)
        decreases expired
      {
        var k :| k in expired;
        seen := seen - {k};
        expired := expired - {k};
      }
      assert forall k :: k in seen && seen[k] <= now ==> k in expired;
      assert seen == Unexpired(seen, now);
      if id in seen {
        return false;
      }
      seen := seen[id := now + ttl as real];
      first := true;
    }
  }

  /** One call: its token, time to live and clock reading, and whether the Redis client raises. */
  datatype MarkCall = MarkCall(id: TokenId, ttl: int, now: Time, raises: bool)

  datatype Stores = Stores(redis: Seen, memory: Seen)

  /** The hybrid store with Redis configured or not; `fallsBack` is `not fail_closed`. */
  function HybridMark(s: Stores, c: MarkCall, hasRedis: bool, fallsBack: bool): (Stores, bool) {
    if hasRedis && !c.raises then
      var m := Mark(s.redis, c.id, Max(c.ttl, 1), c.now); (s.(redis := m.seen), m.first)
    else if hasRedis && !fallsBack then (s, false)
    else var m := Mark(s.memory, c.id, c.ttl, c.now); (s.(memory := m.seen), m.first)
  }

  class HybridReplayStore {
    const memory: InMemoryReplayStore
    const redis: InMemoryReplayStore
    const hasRedis: bool
    const failClosed: bool

    ghost predicate Valid()
      reads this
    {
      memory != redis
    }

    function View(): Stores
      reads memory, redis
    {
      Stores(redis.seen, memory.seen)
    }

    constructor (hasRedis: bool, failClosed: bool)
      ensures Valid() && fresh(memory) && fresh(redis) && View() == Stores(map[], map[])
      ensures this.hasRedis == hasRedis && this.failClosed == failClosed
    {
      this.hasRedis, this.failClosed := hasRedis, failClosed;
      memory := new InMemoryReplayStore();
      redis := new InMemoryReplayStore();
    }

    /** `raises` says whether the Redis client fails this time; the server stands behind `redis`. */
    method MarkIfFirstSeen(c: MarkCall) returns (first: bool)
      requires Valid()
      modifies memory, redis
      ensures (View(), first) == HybridMark(old(View()), c, hasRedis, !failClosed)
    {
      if hasRedis {
        if !c.raises {
          first := redis.MarkIfFirstSeen(c.id, Max(c.ttl, 1), c.now);
          return;
        }
        if failClosed {
          return false;
        }
      }
      first := memory.MarkIfFirstSeen(c.id, c.ttl, c.now);
    }
  }

  /** The clock never goes back. */
  ghost predicate Ordered(calls: seq<MarkCall>) {
    forall i, j :: 0 <= i < j < |calls| ==> calls[i].now <= calls[j].now
  }

  const EMPTY := Stores(map[], map[])

  /** The stores after a series of calls that never fall back from Redis to memory. */
  function After(calls: seq<MarkCall>, hasRedis: bool): Stores {
    if calls == [] then EMPTY
    else HybridMark(After(calls[..|calls| - 1], hasRedis), calls[|calls| - 1], hasRedis, false).0
  }

  /** Whether call `i` of the series is answered with "first seen". */
  function Accepted(calls: seq<MarkCall>, i: nat, hasRedis: bool): bool
    requires i < |calls|
  {
    HybridMark(After(calls[..i], hasRedis), calls[i], hasRedis, false).1
  }

  function UsedStore(s: Stores, hasRedis: bool): Seen {
    if hasRedis then s.redis else s.memory
  }

  function Lifetime(c: MarkCall, hasRedis: bool): int {
    if hasRedis then Max(c.ttl, 1) else c.ttl
  }

  /** A call leaves what runs on after `now` in its store, and adds its own token if it accepts it. */
  lemma MemoryIsKept(s: Stores, c: MarkCall, id: TokenId, now: Time, hasRedis: bool)
    requires c.now <= now && id in UsedStore(s, hasRedis) && UsedStore(s, hasRedis)[id] > now
    ensures
      var after := UsedStore(HybridMark(s, c, hasRedis, false).0, hasRedis);
      id in after && after[id] > now
  {
  }

  lemma AcceptanceIsKept(s: Stores, c: MarkCall, hasRedis: bool)
    requires HybridMark(s, c, hasRedis, false).1
    ensures
      var after := UsedStore(HybridMark(s, c, hasRedis, false).0, hasRedis);
      c.id in after && after[c.id] == c.now + Lifetime(c, hasRedis) as real
  {
  }

  /** Token `id` is still remembered for an accepted call `i` until that call's time to live has passed. */
  lemma {:induction false} AcceptedIsRemembered(calls: seq<MarkCall>, i: nat, now: Time, hasRedis: bool)
    requires Ordered(calls) && i < |calls| && Accepted(calls, i, hasRedis)
    requires now < calls[i].now + Lifetime(calls[i], hasRedis) as real && calls[|calls| - 1].now <= now
    ensures
      var store := UsedStore(After(calls, hasRedis), hasRedis);
      calls[i].id in store && store[calls[i].id] > now
  {
    var n := |calls| - 1;
    if i < n {
      var before := calls[..n];
      assert before[..i] == calls[..i];
      AcceptedIsRemembered(before, i, now, hasRedis);
      MemoryIsKept(After(before, hasRedis), calls[n], calls[i].id, now, hasRedis);
    } else {
      AcceptanceIsKept(After(calls[..n], hasRedis), calls[n], hasRedis);
    }
  }

  /**
    Two "first seen" answers for one token are at least a time to live apart, whatever failures of Redis
    come in between, as long as the store never falls back.
   */
  lemma AcceptancesAreApart(calls: seq<MarkCall>, i: nat, j: nat, hasRedis: bool)
    requires Ordered(calls) && i < j < |calls| && calls[i].id == calls[j].id
    requires Accepted(calls, i, hasRedis) && Accepted(calls, j, hasRedis)
    ensures calls[j].now >= calls[i].now + Lifetime(calls[i], hasRedis) as real
  {
    if calls[j].now < calls[i].now + Lifetime(calls[i], hasRedis) as real {
      assert calls[..j][..i] == calls[..i];
      AcceptedIsRemembered(calls[..j], i, calls[j].now, hasRedis);
    }
  }

  ghost predicate Remembers(calls: seq<MarkCall>, id: TokenId, expires: Time, hasRedis: bool) {
    exists i :: 0 <= i < |calls| && calls[i].id == id && Accepted(calls, i, hasRedis)
      && expires == calls[i].now + Lifetime(calls[i], hasRedis) as real
  }

  lemma RememberedStays(calls: seq<MarkCall>, c: MarkCall, id: TokenId, expires: Time, hasRedis: bool)
    requires Remembers(calls, id, expires, hasRedis)
    ensures Remembers(calls + [c], id, expires, hasRedis)
  {
    var i :| 0 <= i < |calls| && calls[i].id == id && Accepted(calls, i, hasRedis)
      && expires == calls[i].now + Lifetime(calls[i], hasRedis) as real;
    assert (calls + [c])[..i] == calls[..i] && (calls + [c])[i] == calls[i];
  }

  /** What a call leaves in its store was there before, or is the token that it accepts. */
  lemma OnlyAcceptancesAdd(s: Stores, c: MarkCall, id: TokenId, hasRedis: bool)
    requires id in UsedStore(HybridMark(s, c, hasRedis, false).0, hasRedis)
    ensures
      var expires := UsedStore(HybridMark(s, c, hasRedis, false).0, hasRedis)[id];
      if c.id == id && HybridMark(s, c, hasRedis, false).1 then expires == c.now + Lifetime(c, hasRedis) as real
      else id in UsedStore(s, hasRedis) && UsedStore(s, hasRedis)[id] == expires
  {
  }

  /** Nothing is remembered but accepted calls. */
  lemma {:induction false} RememberedWasAccepted(calls: seq<MarkCall>, id: TokenId, hasRedis: bool)
    requires id in UsedStore(After(calls, hasRedis), hasRedis)
    ensures Remembers(calls, id, UsedStore(After(calls, hasRedis), hasRedis)[id], hasRedis)
  {
    var n := |calls| - 1;
    var before := calls[..n];
    OnlyAcceptancesAdd(After(before, hasRedis), calls[n], id, hasRedis);
    if calls[n].id == id && Accepted(calls, n, hasRedis) {
      assert Remembers(calls, id, UsedStore(After(calls, hasRedis), hasRedis)[id], hasRedis);
    } else {
      RememberedWasAccepted(before, id, hasRedis);
      RememberedStays(before, calls[n], id, UsedStore(After(calls, hasRedis), hasRedis)[id], hasRedis);
      assert before + [calls[n]] == calls;
    }
  }

  /** A call that reaches its store is "first seen" exactly when every earlier acceptance of the token has run out. */
  lemma AcceptedExactlyWhen(calls: seq<MarkCall>, j: nat, hasRedis: bool)
    requires Ordered(calls) && j < |calls| && !(hasRedis && calls[j].raises)
    ensures Accepted(calls, j, hasRedis) <==>
      forall i :: 0 <= i < j && calls[i].id == calls[j].id && Accepted(calls, i, hasRedis) ==>
        calls[j].now >= calls[i].now + Lifetime(calls[i], hasRedis) as real
  {
    if Accepted(calls, j, hasRedis) {
      forall i | 0 <= i < j && calls[i].id == calls[j].id && Accepted(calls, i, hasRedis)
        ensures calls[j].now >= calls[i].now + Lifetime(calls[i], hasRedis) as real
      {
        AcceptancesAreApart(calls, i, j, hasRedis);
      }
    } else {
      var before := calls[..j];
      RememberedWasAccepted(before, calls[j].id, hasRedis);
      var expires := UsedStore(After(before, hasRedis), hasRedis)[calls[j].id];
      var i :| 0 <= i < j && before[i].id == calls[j].id && Accepted(before, i, hasRedis)
        && expires == before[i].now + Lifetime(before[i], hasRedis) as real;
      assert before[..i] == calls[..i];
      assert Accepted(calls, i, hasRedis);
    }
  }

  /** The time to live that a request gives its token: until `exp`, and a second at least. */
  function TimeToLive(exp: int, now: Time): (ttl: int)
    ensures ttl >= 1 && (now < exp as real ==> now + ttl as real >= exp as real)
  {
    Max(exp - now.Floor, 1)
  }

  /** So of the requests that mark a token before it expires, at most one is the first. */
  lemma TokensAreSingleUse(calls: seq<MarkCall>, i: nat, j: nat, exp: int, hasRedis: bool)
    requires Ordered(calls) && i < j < |calls| && calls[i].id == calls[j].id
    requires calls[i].ttl == TimeToLive(exp, calls[i].now)
    requires calls[i].now < exp as real && calls[j].now < exp as real
    ensures !(Accepted(calls, i, hasRedis) && Accepted(calls, j, hasRedis))
  {
    if Accepted(calls, i, hasRedis) && Accepted(calls, j, hasRedis) {
      AcceptancesAreApart(calls, i, j, hasRedis);
    }
  }

  /** A token decoded in time but marked late is remembered for a second only, and can be used twice. */
  lemma LateMarksRepeat(hasRedis: bool)
    ensures
      var id, exp := TokenId("t", "j"), 100;
      var calls := [MarkCall(id, TimeToLive(exp, 100.5), 100.5, false),
                    MarkCall(id, TimeToLive(exp, 101.5), 101.5, false)];
      Ordered(calls) && Accepted(calls, 0, hasRedis) && Accepted(calls, 1, hasRedis)
  {
    var id, exp := TokenId("t", "j"), 100;
    var c, d := MarkCall(id, TimeToLive(exp, 100.5), 100.5, false), MarkCall(id, TimeToLive(exp, 101.5), 101.5, false);
    assert [c, d][..0] == [];
    assert [c, d][..1] == [c];
    assert [c][..0] == [];
  }
}
