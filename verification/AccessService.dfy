/**
  `request_access`, `reserve_tenant_quota` and `revoke_right` (app/main.py) as they run: the tables are
  updated in place, other requests and revocations take any steps in between, and every statement is a step
  of the protocol.
 */
module AccessService {
  import opened Prelude
  import opened DecisionResponses
  import opened ReplayProtection
  import opened AccessProtocol
  import opened AccessLedger
  import opened AccessTokens
  import opened AccessAuthentication
  import opened AccessAnswers

  /** How a commit ends: well, with an integrity error or a stale version, or with any other database error. */
  datatype Outcome = Committed | Conflict | Broken

  lemma LogsGrow(digest: Digest, s: State, step: Step)
    ensures s.db.logs <= Next(digest, s, step).db.logs
  {
    if !Writes(s, step) {
      OthersOnlyRead(digest, s, step);
    }
  }

  /** A row locked by another stays locked whatever this session does to itself. */
  lemma LockStays(s: State, w: Worker, me: Session, tenantId: string)
    requires TenantLocked(s, w, tenantId)
    ensures TenantLocked(SetSession(s, w, me), w, tenantId)
  {
    var v :| v in s.sessions && v != w && s.sessions[v].Reserved? && s.sessions[v].call.api.tenantId == tenantId;
    assert SetSession(s, w, me).sessions[v] == s.sessions[v];
  }

  lemma DecidingJudges(digest: Digest, s: State, w: Worker, basis: Basis)
    requires SessionOf(s, w).Uncached?
    ensures
      var next := Judge(digest, SessionOf(s, w).call, SessionOf(s, w).right, basis);
      && next.Judged? && next.call == SessionOf(s, w).call
      && NextDecide(digest, s, w, basis) == SetSession(s, w, next)
  {
  }

  /** Log `i` is the one of this call, with the answer given. */
  ghost predicate LogOfCall(logs: seq<Entry>, callId: nat, response: Response) {
    exists i :: 0 <= i < |logs| && logs[i].callId == callId && logs[i].response == response
  }

  lemma LogOfCallStays(logs: seq<Entry>, more: seq<Entry>, callId: nat, response: Response)
    requires LogOfCall(logs, callId, response) && logs <= more
    ensures LogOfCall(more, callId, response)
  {
    var i :| 0 <= i < |logs| && logs[i].callId == callId && logs[i].response == response;
    assert more[i] == logs[i];
  }

  lemma CommitWritesLog(s: State, w: Worker)
    requires Commits(s, w)
    ensures LogOfCall(NextCommit(s, w).db.logs, SessionOf(s, w).call.id, SessionOf(s, w).response)
    ensures SessionOf(NextCommit(s, w), w)
      == Stored(SessionOf(s, w).call, SessionOf(s, w).right, SessionOf(s, w).row, SessionOf(s, w).response)
  {
    assert NextCommit(s, w).db.logs[|s.db.logs|].callId == SessionOf(s, w).call.id;
  }

  /** A call has its one log exactly if it was answered by a decision of its own. */
  ghost predicate Accounted(db: Database, callId: nat, reply: Reply) {
    if reply.Answered? then LogOfCall(db.logs, callId, reply.response) else Unsaved(db, callId)
  }

  /** At a step from `from` on the worker gave up waiting for a tenant's row that another transaction held. */
  ghost predicate WasLockedOut(digest: Digest, trace: seq<Step>, from: nat, w: Worker) {
    exists k, t :: from <= k < |trace| && trace[k] == Fail(w) && TenantLocked(Run(digest, trace[..k]), w, t)
  }

  lemma LockedOutNow(digest: Digest, trace: seq<Step>, s: State, w: Worker, t: string)
    requires Reaches(digest, trace, s) && TenantLocked(s, w, t)
    ensures WasLockedOut(digest, trace + [Fail(w)], |trace|, w)
  {
    var more := trace + [Fail(w)];
    assert more[..|trace|] == trace && Run(digest, trace) == s;
    assert more[|trace|] == Fail(w) && TenantLocked(Run(digest, more[..|trace|]), w, t);
  }

  lemma LockedOutStays(digest: Digest, trace: seq<Step>, more: seq<Step>, from: nat, w: Worker)
    requires WasLockedOut(digest, trace, from, w) && trace <= more
    ensures forall low: nat :: low <= from ==> WasLockedOut(digest, more, low, w)
  {
    var k, t :| from <= k < |trace| && trace[k] == Fail(w) && TenantLocked(Run(digest, trace[..k]), w, t);
    assert more[..k] == trace[..k] && more[k] == Fail(w);
  }

  /** The answer of `w` was given at a step from `from` on, for its reason. */
  ghost predicate AnsweredFrom(digest: Digest, trace: seq<Step>, from: nat, w: Worker, reply: Reply) {
    exists k: nat :: from <= k && AnsweredAt(digest, trace, k, w, reply)
  }

  /** An answer that was not there yet at an earlier point has been given since. */
  lemma AnsweredSinceEntry(digest: Digest, entered: seq<Step>, trace: seq<Step>, s: State, t: State, w: Worker)
    requires Reaches(digest, entered, s) && Reaches(digest, trace, t) && entered <= trace
    requires !SessionOf(s, w).Done? && SessionOf(t, w).Done?
    ensures AnsweredFrom(digest, trace, |entered|, w, SessionOf(t, w).reply)
  {
    assert trace[..|entered|] == entered && Run(digest, trace) == t;
    assert SessionOf(Run(digest, trace[..|entered|]), w) == SessionOf(s, w);
    EveryAnswerHasItsCause(digest, trace, w);
    var k: nat :| AnsweredAt(digest, trace, k, w, SessionOf(t, w).reply);
  }

  lemma AnsweredFromEarlier(digest: Digest, trace: seq<Step>, from: nat, low: nat, w: Worker, reply: Reply)
    requires AnsweredFrom(digest, trace, from, w, reply) && low <= from
    ensures AnsweredFrom(digest, trace, low, w, reply)
  {
    var k: nat :| from <= k && AnsweredAt(digest, trace, k, w, reply);
  }

  /** A refused authentication is its own cause. */
  lemma RefusedAtEntry(digest: Digest, trace: seq<Step>, s: State, t: State, w: Worker, api: Api, now: Time)
    requires Reaches(digest, trace, s) && Reaches(digest, trace + [Authenticate(w, api, now)], t)
    requires s.guards.clock <= now && !MayEnter(s, api, now)
    requires SessionOf(t, w).Done? && SessionOf(t, w).reply.Refused?
    requires IsReason(s, api, now, SessionOf(t, w).reply.error)
    ensures AnsweredFrom(digest, trace + [Authenticate(w, api, now)], |trace|, w, SessionOf(t, w).reply)
  {
    var more, reply := trace + [Authenticate(w, api, now)], SessionOf(t, w).reply;
    assert more[..|trace|] == trace && Run(digest, trace) == s && Run(digest, more) == t && more[..|more|] == more;
    assert CausedAt(digest, more, |trace|, w, reply);
    assert AnsweredSince(digest, more, |trace|, w, reply);
    assert AnsweredAt(digest, more, |trace|, w, reply);
  }

  class Service {
    const faultless: bool
    const digest: Digest
    const cacheLifetime: Time
    var tenants: map<string, Tenant>
    var devices: map<DeviceKey, bool>
    var rights: map<RightKey, Right>
    var origins: map<RightKey, string>
    var logs: seq<Entry>
    var outbox: seq<Event>
    var tokens: map<string, Claims>
    var seen: Seen
    var marks: seq<MarkRecord>
    var cache: map<CacheKey, Cached>
    var clock: Time
    var sessions: map<Worker, Session>
    var nextCall: nat
    ghost var trace: seq<Step>

    function View(): State
      reads this
    {
      State(Tables(), Memory(), sessions, nextCall)
    }

    /** The state is the one that the trace leads to. */
    ghost predicate Valid()
      reads this
    {
      Reaches(digest, trace, View())
    }

    function Session(w: Worker): AccessProtocol.Session
      reads this
    {
      if w in sessions then sessions[w] else Idle
    }

    /** Whether a commit may fail for reasons of the database alone is an input. */
    constructor (digest: Digest, cacheLifetime: Time, faultless: bool)
      ensures Valid() && View() == INITIAL && trace == [] && this.digest == digest && this.faultless == faultless
    {
      this.digest, this.cacheLifetime, this.faultless := digest, cacheLifetime, faultless;
      tenants, devices, rights, origins, logs, outbox := map[], map[], map[], map[], [], [];
      tokens, seen, marks, cache, clock, sessions, nextCall := map[], map[], [], map[], 0.0, map[], 0;
      trace := [];
    }

    ghost method Record(step: Step, before: State)
      requires Reaches(digest, trace, before) && View() == Next(digest, before, step)
      modifies this`trace
      ensures Valid() && trace == old(trace) + [step]
    {
      ReachesNext(digest, trace, before, step);
      trace := trace + [step];
    }

    method TakeStep(w: Worker, step: Step)
      requires Valid() && !StepOf(step, w)
      modifies this
      ensures Valid() && Session(w) == old(Session(w)) && old(logs) <= logs && trace == old(trace) + [step]
    {
      ghost var before := View();
      OthersKeepOut(digest, before, step, w);
      LogsGrow(digest, before, step);
      Adopt(Next(digest, View(), step));
      Record(step, before);
    }

    function Tables(): Database
      reads this
    {
      Database(tenants, devices, rights, origins, logs, outbox)
    }

    function Memory(): Guards
      reads this
    {
      Guards(tokens, seen, marks, cache, clock)
    }

    method Adopt(t: State)
      modifies this
      ensures View() == t && trace == old(trace)
    {
      AdoptTables(t.db);
      AdoptMemory(t.guards);
      sessions, nextCall := t.sessions, t.nextCall;
    }

    method AdoptTables(db: Database)
      modifies this`tenants, this`devices, this`rights, this`origins, this`logs, this`outbox
      ensures Tables() == db
    {
      tenants, devices, rights, origins, logs, outbox :=
        db.tenants, db.devices, db.rights, db.origins, db.logs, db.outbox;
    }

    method AdoptMemory(guards: Guards)
      modifies this`tokens, this`seen, this`marks, this`cache, this`clock
      ensures Memory() == guards
    {
      tokens, seen, marks, cache, clock := guards.tokens, guards.seen, guards.marks, guards.cache, guards.clock;
    }

    /** Anything the others may do meanwhile. */
    method Interfere(w: Worker)
      requires Valid()
      modifies this
      ensures Valid() && Session(w) == old(Session(w)) && old(logs) <= logs && old(trace) <= trace
    {
      var steps: seq<Step> := *;
      for i := 0 to |steps|
        invariant Valid() && Session(w) == old(Session(w)) && old(logs) <= logs && old(trace) <= trace
      {
        if !StepOf(steps[i], w) {
          TakeStep(w, steps[i]);
        }
      }
    }

    /** The database lets the UPDATE wait for the tenant's row, until it is free or the wait is given up. */
    method WaitForTenant(w: Worker)
      requires Valid() && Session(w).Judged?
      modifies this
      ensures Valid() && Session(w) == old(Session(w)) && old(logs) <= logs && old(trace) <= trace
    {
      var patience: nat := *;
      while TenantLocked(View(), w, Session(w).call.api.tenantId) && patience > 0
        invariant Valid() && Session(w) == old(Session(w)) && old(logs) <= logs && old(trace) <= trace
        decreases patience
      {
        Interfere(w);
        patience := patience - 1;
      }
    }

    /** What the UPDATE of a decided request `me` may come to: a reservation, no quota, or a row that stays locked. */
    ghost predicate ReservationEnds(w: Worker, me: AccessProtocol.Session, ok: bool)
      requires me.Judged?
      reads this
    {
      var t := me.call.api.tenantId;
      if TenantLocked(View(), w, t) then !ok && Session(w) == Done(Refused(Unavailable))
      else
        && (ok <==> t in tenants && tenants[t].usageCount < tenants[t].monthlyQuota)
        && Session(w) == if ok then Reserved(me.call, me.right, me.row, me.response, tenants[t].usageCount + 1)
                         else Done(Refused(QuotaExceeded))
    }

    /** `reserve_tenant_quota`: the conditional UPDATE, when it gets the row, or the error it raises. */
    method ReserveTenantQuota(w: Worker) returns (ok: bool)
      requires Valid() && Session(w).Judged?
      modifies this
      ensures Valid() && old(logs) <= logs && old(trace) <= trace
      ensures ReservationEnds(w, old(Session(w)), ok)
      ensures Unsaved(Tables(), old(Session(w)).call.id)
      ensures Session(w) == Done(Refused(Unavailable)) ==> WasLockedOut(digest, trace, |old(trace)|, w)
    {
      WaitForTenant(w);
      NothingSavedYet(w);
      if TenantLocked(View(), w, Session(w).call.api.tenantId) {
        ghost var sofar := trace;
        LockedOutNow(digest, trace, View(), w, Session(w).call.api.tenantId);
        LockStays(View(), w, Done(Refused(Unavailable)), Session(w).call.api.tenantId);
        MoveTo(w, Done(Refused(Unavailable)), Fail(w));
        LockedOutStays(digest, trace, trace, |sofar|, w);
        ok := false;
      } else {
        ok := ReserveFreeRow(w);
      }
    }

    method ReserveFreeRow(w: Worker) returns (ok: bool)
      requires Valid() && Session(w).Judged? && !TenantLocked(View(), w, Session(w).call.api.tenantId)
      modifies this`sessions, this`trace
      ensures Valid() && trace == old(trace) + [Reserve(w)] && ReservationEnds(w, old(Session(w)), ok)
      ensures Session(w) != Done(Refused(Unavailable))
    {
      ghost var before := View();
      ok := UpdateUsage(w);
      Record(Reserve(w), before);
    }

    /** UPDATE ... SET usage_count = usage_count + 1 WHERE usage_count < monthly_quota, not yet committed. */
    method UpdateUsage(w: Worker) returns (ok: bool)
      requires Session(w).Judged? && !TenantLocked(View(), w, Session(w).call.api.tenantId)
      modifies this`sessions
      ensures View() == NextReserve(old(View()), w)
      ensures
        var me := old(Session(w));
        var t := me.call.api.tenantId;
        && (ok <==> t in tenants && tenants[t].usageCount < tenants[t].monthlyQuota)
        && Session(w) == if ok then Reserved(me.call, me.right, me.row, me.response, tenants[t].usageCount + 1)
                         else Done(Refused(QuotaExceeded))
    {
      var me := Session(w);
      var t := me.call.api.tenantId;
      ok := t in tenants && tenants[t].usageCount < tenants[t].monthlyQuota;
      if ok {
        sessions := sessions[w := Reserved(me.call, me.right, me.row, me.response, tenants[t].usageCount + 1)];
      } else {
        sessions := sessions[w := Done(Refused(QuotaExceeded))];
      }
    }

    /**
      `commit_or_409` of the reserved request: all its writes, or none. What it commits or refuses is up to key
      and version, unless the database fails for another reason.
     */
    method CommitOr409(w: Worker) returns (outcome: Outcome)
      requires Valid() && Session(w).Reserved?
      modifies this
      ensures Valid()
      ensures outcome.Broken? ==>
        trace == old(trace) + [Fail(w)] && View() == Refuse(old(View()), w, Unavailable)
      ensures !outcome.Broken? ==>
        && trace == old(trace) + [Commit(w)] && View() == NextCommit(old(View()), w)
        && CommitEnds(old(View()), View(), old(Session(w)), Session(w))
        && (outcome.Committed? <==> MayWrite(old(View()), old(Session(w))))
      ensures outcome.Broken? ==> !faultless
    {
      var broken: bool := *;
      if broken && !faultless {
        MoveTo(w, Done(Refused(Unavailable)), Fail(w));
        outcome := Broken;
      } else {
        var committed := CommitOrConflict(w);
        outcome := if committed then Committed else Conflict;
      }
    }

    method CommitOrConflict(w: Worker) returns (committed: bool)
      requires Valid() && Session(w).Reserved?
      modifies this
      ensures Valid() && trace == old(trace) + [Commit(w)] && View() == NextCommit(old(View()), w)
      ensures CommitEnds(old(View()), View(), old(Session(w)), Session(w))
      ensures committed <==> MayWrite(old(View()), old(Session(w)))
    {
      ghost var before := View();
      CommitConcludes(before, w);
      committed := TryCommit(w);
      Record(Commit(w), before);
    }

    /** One log per key, and no stale write of the right; otherwise everything is rolled back. */
    method TryCommit(w: Worker) returns (committed: bool)
      requires Session(w).Reserved?
      modifies this`tenants, this`rights, this`logs, this`outbox, this`sessions
      ensures View() == NextCommit(old(View()), w) && (committed <==> Commits(old(View()), w))
    {
      var me := Session(w);
      var stale := me.row.allowed && !(KeyOf(me.call) in rights && rights[KeyOf(me.call)].version == me.right.version);
      committed := FindLog(logs, me.call.api.tenantId, me.row.idempotencyKey).None? && !stale;
      if committed {
        WriteTables(me);
        sessions := sessions[w := Stored(me.call, me.right, me.row, me.response)];
      } else if ExplicitKey(me.call.api).Some? {
        sessions := sessions[w := Losing(me.call)];
      } else {
        sessions := sessions[w := Done(Refused(DuplicateRequest))];
      }
    }

    /** The writes of a commit: counter, right, log and events. */
    method WriteTables(me: AccessProtocol.Session)
      requires me.Reserved? && (me.row.allowed ==> KeyOf(me.call) in rights)
      modifies this`tenants, this`rights, this`logs, this`outbox
      ensures Tables() == Written(old(Tables()), me)
    {
      var t, key := me.call.api.tenantId, KeyOf(me.call);
      if t in tenants {
        tenants := tenants[t := tenants[t].(usageCount := me.usageCount)];
      }
      if me.row.allowed {
        rights := rights[key := WriteRight(rights[key], me.right, me.row)];
      }
      logs := logs + [Entry(me.row.(id := |logs|), me.call.api.token, me.call.id, me.response)];
      outbox := outbox + EventsOf(me.row, me.usageCount);
    }

    method ReadClock() returns (now: Time)
      ensures clock <= now
    {
      now := *;
      if now < clock {
        now := clock;
      }
    }

    /** A step that only moves this request on. */
    method MoveTo(w: Worker, me: AccessProtocol.Session, ghost step: Step)
      requires Valid() && Next(digest, View(), step) == SetSession(View(), w, me)
      modifies this`sessions, this`trace
      ensures Valid() && View() == SetSession(old(View()), w, me) && trace == old(trace) + [step]
    {
      ghost var before := View();
      sessions := sessions[w := me];
      Record(step, before);
    }

    method Authenticate(w: Worker, api: Api) returns (ok: bool)
      requires Valid() && (Session(w).Idle? || Session(w).Done?)
      modifies this
      ensures Valid() && Tables() == old(Tables()) && trace == old(trace) + [AccessProtocol.Authenticate(w, api, clock)]
      ensures old(clock) <= clock && (ok <==> MayEnter(old(View()), api, clock))
      ensures ok ==> Session(w) == Authenticated(Entering(old(View()), api))
      ensures !ok ==> exists error :: IsReason(old(View()), api, clock, error) && Session(w) == Done(Refused(error))
    {
      ghost var before := View();
      var now := ReadClock();
      EntersExactlyWhen(digest, before, w, api, now);
      ok := Identify(w, api, now);
      Record(AccessProtocol.Authenticate(w, api, now), before);
    }

    method Identify(w: Worker, api: Api, now: Time) returns (ok: bool)
      requires (Session(w).Idle? || Session(w).Done?) && clock <= now
      modifies this`clock, this`sessions, this`nextCall
      ensures View() == NextAuthenticate(old(View()), w, api, now) && clock == now
      ensures ok ==> Session(w).Authenticated? && Session(w).call.api == api && Session(w).call.id == old(nextCall)
      ensures !ok ==> Session(w).Done? && Session(w).reply.Refused?
    {
      var error := AuthenticationError(View(), api, now);
      clock := now;
      ok := error.None?;
      if ok {
        var claims := tokens[api.token];
        var tenant := tenants[claims.tenantId];
        sessions := sessions[w := Authenticated(Call(nextCall, api, claims, tenant.usageCount < tenant.monthlyQuota))];
        nextCall := nextCall + 1;
      } else {
        sessions := sessions[w := Done(Refused(error.value))];
      }
    }

    method ReadRight(w: Worker) returns (ok: bool)
      requires Valid() && Session(w).Authenticated?
      modifies this`sessions, this`trace
      ensures Valid() && trace == old(trace) + [AccessProtocol.ReadRight(w)]
      ensures ok ==> Session(w).Owning? && Session(w).call == old(Session(w)).call
      ensures !ok ==> Session(w).Done? && Session(w).reply.Refused?
      ensures ReadsRight(old(View()), old(Session(w)).call, Session(w)) && (ok <==> Session(w).Owning?)
    {
      var call := Session(w).call;
      var key := KeyOf(call);
      if key !in rights || !rights[key].valid {
        MoveTo(w, Done(Refused(RightInvalid)), AccessProtocol.ReadRight(w));
        return false;
      }
      if rights[key].ownerId != call.claims.sub {
        MoveTo(w, Done(Refused(OwnerMismatch)), AccessProtocol.ReadRight(w));
        return false;
      }
      MoveTo(w, Owning(call, rights[key]), AccessProtocol.ReadRight(w));
      ok := true;
    }

    /** The query for an earlier log, and the answer built from it. */
    method FindEarlier(call: Call) returns (next: AccessProtocol.Session)
      ensures next ==
        var found := FindLog(logs, call.api.tenantId, IdempotencyKey(digest, call));
        if found.None? then Idle
        else if logs[found.value].row.requestFingerprint != FingerprintOf(digest, call) then Done(Refused(KeyConflict))
        else Done(Repeated(BuildIdempotentResponse(logs[found.value].row)))
    {
      var found := FindLog(logs, call.api.tenantId, IdempotencyKey(digest, call));
      if found.None? {
        return Idle;
      }
      var log := logs[found.value].row;
      if log.requestFingerprint != FingerprintOf(digest, call) {
        return Done(Refused(KeyConflict));
      }
      next := Done(Repeated(BuildIdempotentResponse(log)));
    }

    method Lookup(w: Worker) returns (ok: bool)
      requires Valid() && Session(w).Owning?
      modifies this`sessions, this`trace
      ensures Valid() && trace == old(trace) + [AccessProtocol.Lookup(w)]
      ensures LooksUp(digest, old(View()), old(Session(w)).call, old(Session(w)).right, Session(w))
      ensures ok ==> Session(w).Unlogged? && Session(w).call == old(Session(w)).call
      ensures !ok ==> Session(w).Done? && !Session(w).reply.Answered?
    {
      LookupEnds(digest, View(), w);
      var me := Session(w);
      var explicit := ExplicitKey(me.call.api);
      if explicit.Some? && |explicit.value| > 128 {
        MoveTo(w, Done(Refused(InvalidKey)), AccessProtocol.Lookup(w));
        return false;
      }
      var next := FindEarlier(me.call);
      ok := explicit.None? || next.Idle?;
      MoveTo(w, if ok then Unlogged(me.call, me.right) else next, AccessProtocol.Lookup(w));
    }

    /** `enforce_tenant_quota` on the tenant as it was read, and the replay mark. */
    method MarkToken(w: Worker) returns (ok: bool)
      requires Valid() && Session(w).Unlogged?
      modifies this
      ensures Valid() && Tables() == old(Tables()) && trace == old(trace) + [AccessProtocol.MarkToken(w, clock)]
      ensures AccessAnswers.Marks(old(View()), View(), old(Session(w)).call, old(Session(w)).right, clock, Session(w))
      ensures ok ==> Session(w).Marked? && Session(w).call == old(Session(w)).call
      ensures !ok ==> Session(w).Done? && Session(w).reply.Refused?
    {
      ghost var before := View();
      if !Session(w).call.quotaLeft {
        ok := false;
        sessions := sessions[w := Done(Refused(QuotaExceeded))];
      } else {
        var now := ReadClock();
        MarkEnds(before, w, now);
        ok := MarkIfFirstSeen(w, now);
      }
      Record(AccessProtocol.MarkToken(w, clock), before);
    }

    method MarkIfFirstSeen(w: Worker, now: Time) returns (ok: bool)
      requires Session(w).Unlogged? && Session(w).call.quotaLeft && clock <= now
      modifies this`seen, this`marks, this`clock, this`sessions
      ensures View() == NextMark(old(View()), w, now) && clock == now
      ensures ok ==> Session(w).Marked? && Session(w).call == old(Session(w)).call
      ensures !ok ==> Session(w) == Done(Refused(ReplayDetected))
    {
      var call, right := Session(w).call, Session(w).right;
      var marking := Mark(seen, TokenOf(call), TimeToLive(call.claims.exp, now), now);
      seen, clock, ok := marking.seen, now, marking.first;
      if ok {
        marks := marks + [MarkRecord(call.id, TokenOf(call), call.claims.exp, now)];
        sessions := sessions[w := Marked(call, right)];
      } else {
        sessions := sessions[w := Done(Refused(ReplayDetected))];
      }
    }

    /** `cache_get`: an expired entry is dropped. */
    method ConsultCache(w: Worker) returns (ok: bool)
      requires Valid() && Session(w).Marked?
      modifies this
      ensures Valid() && Tables() == old(Tables())
      ensures exists now ::
        && trace == old(trace) + [AccessProtocol.ConsultCache(w, now)]
        && Consults(old(View()), View(), old(Session(w)).call, old(Session(w)).right, now, Session(w))
      ensures ok ==> Session(w).Uncached? && Session(w).call == old(Session(w)).call
      ensures !ok ==> Session(w).Done? && Session(w).reply.FromCache?
    {
      ghost var before := View();
      var me := Session(w);
      var key := CacheKeyOf(me.call, me.right);
      var now := ReadClock();
      ok := true;
      if me.call.api.requestType == ACCESS {
        if key in cache && now <= cache[key].expires {
          ok := false;
          sessions := sessions[w := Done(FromCache(cache[key].response, TokenOf(me.call)))];
        } else {
          cache := cache - {key};
        }
      }
      if ok {
        sessions := sessions[w := Uncached(me.call, me.right)];
      }
      assert View() == NextConsult(before, w, now);
      ConsultEnds(before, w, now);
      Record(AccessProtocol.ConsultCache(w, now), before);
    }

    /** The engines' decision; what they went by is left open. */
    method Decide(w: Worker)
      requires Valid() && Session(w).Uncached?
      modifies this`sessions, this`trace
      ensures Valid() && Session(w).Judged? && Session(w).call == old(Session(w)).call && logs == old(logs)
      ensures |trace| == |old(trace)| + 1 && trace == old(trace) + [trace[|old(trace)|]]
      ensures trace[|old(trace)|].DecideRequest?
    {
      var basis: Basis := *;
      DecideOn(w, basis, DecideRequest(w, basis));
    }

    method DecideOn(w: Worker, basis: Basis, ghost step: Step)
      requires Valid() && Session(w).Uncached?
      requires step.DecideRequest? && step.worker == w && step.basis == basis
      modifies this`sessions, this`trace
      ensures Valid() && trace == old(trace) + [step]
      ensures Session(w).Judged? && Session(w).call == old(Session(w)).call
    {
      ghost var before := View();
      Evaluate(w, basis);
      DecidingStep(digest, before, step);
      Record(step, before);
    }

    method Evaluate(w: Worker, basis: Basis)
      requires Session(w).Uncached?
      modifies this`sessions
      ensures Session(w).Judged? && Session(w).call == old(Session(w)).call
      ensures View() == NextDecide(digest, old(View()), w, basis)
    {
      DecidingJudges(digest, View(), w, basis);
      sessions := sessions[w := Judge(digest, Session(w).call, Session(w).right, basis)];
    }

    /** `cache_set` for an allowed access, and the answer. */
    method Respond(w: Worker) returns (reply: Reply)
      requires Valid() && Session(w).Stored?
      modifies this
      ensures Valid() && Tables() == old(Tables()) && Session(w) == Done(reply)
      ensures exists now ::
        && trace == old(trace) + [Remember(w, now, cacheLifetime)]
        && CachesDecision(old(View()), View(), old(Session(w)), now, cacheLifetime, Session(w))
      ensures reply == Answered(old(Session(w)).response)
    {
      ghost var before := View();
      var now := ReadClock();
      RememberEnds(before, w, now, cacheLifetime);
      reply := Answered(Session(w).response);
      CacheSet(w, now);
      Record(Remember(w, now, cacheLifetime), before);
    }

    method CacheSet(w: Worker, now: Time)
      requires Session(w).Stored?
      modifies this`cache, this`sessions
      ensures View() == NextRemember(old(View()), w, now, cacheLifetime)
      ensures Session(w) == Done(Answered(old(Session(w)).response))
    {
      var me := Session(w);
      if me.call.api.requestType == ACCESS && me.row.allowed {
        cache := cache[CacheKeyOf(me.call, me.right) := Cached(now + cacheLifetime, me.response)];
      }
      sessions := sessions[w := Done(Answered(me.response))];
    }

    /** After `duplicate_request` under an explicit key: the answer of the log that won. */
    method AnswerAsWinner(w: Worker) returns (reply: Reply)
      requires Valid() && Session(w).Losing?
      modifies this`sessions, this`trace
      ensures Valid() && trace == old(trace) + [FindWinner(w)]
      ensures Session(w) == Done(reply) && !reply.Answered?
      ensures FindsWinner(digest, old(View()), old(Session(w)).call, Session(w))
    {
      WinnerEnds(digest, View(), w);
      var next := FindEarlier(Session(w).call);
      if next.Idle? {
        next := Done(Refused(DuplicateRequest));
      }
      reply := next.reply;
      MoveTo(w, next, FindWinner(w));
    }

    lemma NothingSavedYet(w: Worker)
      requires Valid() && BeforeCommit(Session(w))
      ensures Unsaved(Tables(), Session(w).call.id)
    {
      RunKeepsUse(digest, trace);
      assert ProgressOk(View(), View().sessions[w]);
    }

    lemma NoSuchCallYet()
      requires Valid()
      ensures Unsaved(Tables(), nextCall)
    {
      RunKeepsUse(digest, trace);
      NewCallIsUnused(View());
    }

    /** From the arrival of a request to its right. */
    method Admit(w: Worker, api: Api) returns (ok: bool, ghost callId: nat)
      requires Valid() && (Session(w).Idle? || Session(w).Done?)
      modifies this
      ensures Valid() && old(logs) <= logs && old(trace) <= trace
      ensures ok ==> Session(w).Owning? && Session(w).call.id == callId
      ensures !ok ==> Session(w).Done? && !Session(w).reply.Answered? && Unsaved(Tables(), callId)
      ensures !ok ==> Session(w).reply != Refused(Unavailable)
      ensures !ok ==> AnsweredFrom(digest, trace, |old(trace)|, w, Session(w).reply)
    {
      callId := nextCall;
      NoSuchCallYet();
      ok := AuthenticateFirst(w, api);
      if ok {
        ghost var entered, then' := trace, View();
        Interfere(w);
        NothingSavedYet(w);
        ok := ReadRight(w);
        if !ok {
          AnsweredSinceEntry(digest, entered, trace, then', View(), w);
          AnsweredFromEarlier(digest, trace, |entered|, |old(trace)|, w, Session(w).reply);
        }
      }
    }

    /** The authentication, with its cause if it is refused. */
    method AuthenticateFirst(w: Worker, api: Api) returns (ok: bool)
      requires Valid() && (Session(w).Idle? || Session(w).Done?)
      modifies this
      ensures Valid() && Tables() == old(Tables()) && old(trace) <= trace
      ensures ok ==> Session(w).Authenticated? && Session(w).call.id == old(nextCall)
      ensures !ok ==> Session(w).Done? && Session(w).reply.Refused? && Session(w).reply != Refused(Unavailable)
      ensures !ok ==> AnsweredFrom(digest, trace, |old(trace)|, w, Session(w).reply)
    {
      ghost var before, sofar := View(), trace;
      ok := Authenticate(w, api);
      if !ok { RefusedAtEntry(digest, sofar, before, View(), w, api, clock); }
    }

    /** From the idempotency lookup to the decision. */
    method Screen(w: Worker) returns (ok: bool)
      requires Valid() && Session(w).Owning?
      modifies this
      ensures Valid() && old(logs) <= logs && old(trace) <= trace
      ensures ok ==> Session(w).Uncached? && Session(w).call.id == old(Session(w)).call.id
      ensures !ok ==> Session(w).Done? && !Session(w).reply.Answered? && Unsaved(Tables(), old(Session(w)).call.id)
      ensures !ok ==> Session(w).reply != Refused(Unavailable)
    {
      NothingSavedYet(w);
      ok := Lookup(w);
      if ok {
        Interfere(w);
        ok := UseToken(w);
      }
    }

    method UseToken(w: Worker) returns (ok: bool)
      requires Valid() && Session(w).Unlogged?
      modifies this
      ensures Valid() && old(logs) <= logs && old(trace) <= trace
      ensures ok ==> Session(w).Uncached? && Session(w).call.id == old(Session(w)).call.id
      ensures !ok ==> Session(w).Done? && !Session(w).reply.Answered? && Unsaved(Tables(), old(Session(w)).call.id)
      ensures !ok ==> Session(w).reply != Refused(Unavailable)
    {
      NothingSavedYet(w);
      ok := MarkToken(w);
      if ok {
        Interfere(w);
        NothingSavedYet(w);
        ok := ConsultCache(w);
      }
    }

    /** The decision and the reservation. */
    method DecideAndReserve(w: Worker) returns (ok: bool)
      requires Valid() && Session(w).Uncached?
      modifies this
      ensures Valid() && old(logs) <= logs && old(trace) <= trace && Unsaved(Tables(), old(Session(w)).call.id)
      ensures if ok then Session(w).Reserved? && Session(w).call.id == old(Session(w)).call.id
              else Session(w).Done? && Session(w).reply.Refused?
      ensures !ok && Session(w).reply == Refused(Unavailable) ==> WasLockedOut(digest, trace, |old(trace)|, w)
    {
      Decide(w);
      Interfere(w);
      ghost var sofar := trace;
      ok := ReserveTenantQuota(w);
      if Session(w) == Done(Refused(Unavailable)) { LockedOutStays(digest, trace, trace, |sofar|, w); }
    }

    /** From the decision to the commit and the answer. */
    method Settle(w: Worker) returns (reply: Reply)
      requires Valid() && Session(w).Uncached?
      modifies this
      ensures Valid() && old(logs) <= logs && old(trace) <= trace && Session(w) == Done(reply)
      ensures Accounted(Tables(), old(Session(w)).call.id, reply)
      ensures reply == Refused(Unavailable) ==> !faultless || WasLockedOut(digest, trace, |old(trace)|, w)
    {
      var ok := DecideAndReserve(w);
      if !ok {
        return Session(w).reply;
      }
      Interfere(w);
      NothingSavedYet(w);
      reply := Finish(w);
    }

    /** The commit and what follows it. */
    method Finish(w: Worker) returns (reply: Reply)
      requires Valid() && Session(w).Reserved? && Unsaved(Tables(), Session(w).call.id)
      modifies this
      ensures Valid() && old(logs) <= logs && old(trace) <= trace && Session(w) == Done(reply)
      ensures Accounted(Tables(), old(Session(w)).call.id, reply)
      ensures reply == Refused(Unavailable) ==> !faultless
    {
      ghost var before := View();
      var outcome := CommitOr409(w);
      if outcome.Committed? {
        CommitWritesLog(before, w);
        reply := Conclude(w);
      } else if Session(w).Losing? {
        reply := Lose(w);
      } else {
        reply := Session(w).reply;
      }
    }

    /** A lost race under an explicit key. */
    method Lose(w: Worker) returns (reply: Reply)
      requires Valid() && Session(w).Losing?
      modifies this
      ensures Valid() && old(logs) <= logs && old(trace) <= trace && Session(w) == Done(reply)
      ensures !reply.Answered? && Unsaved(Tables(), old(Session(w)).call.id) && reply != Refused(Unavailable)
    {
      Interfere(w);
      NothingSavedYet(w);
      reply := AnswerAsWinner(w);
    }

    method Conclude(w: Worker) returns (reply: Reply)
      requires Valid() && Session(w).Stored? && LogOfCall(logs, Session(w).call.id, Session(w).response)
      modifies this
      ensures Valid() && old(logs) <= logs && old(trace) <= trace && Session(w) == Done(reply)
      ensures reply.Answered? && LogOfCall(logs, old(Session(w)).call.id, reply.response)
    {
      ghost var written := logs;
      Interfere(w);
      LogOfCallStays(written, logs, Session(w).call.id, Session(w).response);
      reply := Respond(w);
    }

    /**
      `request_access`. In any company of other requests and revocations it takes only steps of the protocol,
      and it has written its log, once, exactly if it answers with a decision of its own; a refusal, a
      repeated answer or a cached one leaves no log of this call. Each answer was given at a step of this call for
      the reason that belongs to it, and only a failing database or a tenant's row that stays locked makes it
      answer that persistence is unavailable.
     */
    method RequestAccess(w: Worker, api: Api) returns (reply: Reply, ghost callId: nat)
      requires Valid() && (Session(w).Idle? || Session(w).Done?)
      modifies this
      ensures Valid() && old(logs) <= logs && old(trace) <= trace && Session(w) == Done(reply)
      ensures Accounted(Tables(), callId, reply)
      ensures AnsweredFrom(digest, trace, |old(trace)|, w, reply)
      ensures reply == Refused(Unavailable) ==> !faultless || WasLockedOut(digest, trace, |old(trace)|, w)
    {
      var ok;
      ok, callId := Admit(w, api);
      if !ok {
        return Session(w).reply, callId;
      }
      ghost var entered, then' := trace, View();
      reply := Proceed(w);
      AnsweredSinceEntry(digest, entered, trace, then', View(), w);
      AnsweredFromEarlier(digest, trace, |entered|, |old(trace)|, w, reply);
      if reply == Refused(Unavailable) && faultless { LockedOutStays(digest, trace, trace, |entered|, w); }
    }

    /** From the right on. */
    method Proceed(w: Worker) returns (reply: Reply)
      requires Valid() && Session(w).Owning?
      modifies this
      ensures Valid() && old(logs) <= logs && old(trace) <= trace && Session(w) == Done(reply)
      ensures Accounted(Tables(), old(Session(w)).call.id, reply)
      ensures reply == Refused(Unavailable) ==> !faultless || WasLockedOut(digest, trace, |old(trace)|, w)
    {
      Interfere(w);
      var ok := Screen(w);
      if !ok {
        return Session(w).reply;
      }
      Interfere(w);
      ghost var sofar := trace;
      reply := Settle(w);
      if reply == Refused(Unavailable) && faultless { LockedOutStays(digest, trace, trace, |sofar|, w); }
    }

    /** `revoke_right`: read, then a commit that succeeds only on the version that was read. */
    method RevokeRight(w: Worker, key: RightKey) returns (reply: Reply)
      requires Valid() && (Session(w).Idle? || Session(w).Done?)
      modifies this
      ensures Valid() && old(logs) <= logs && old(trace) <= trace && Session(w) == Done(reply)
      ensures reply.Revocation? ==> RevokedAs(key, reply)
      ensures reply == Refused(RightNotFound) <==> key !in old(rights)
      ensures key in old(rights) && !old(rights)[key].valid ==> reply == Revocation(false, old(rights)[key].version)
      ensures key in old(rights) && old(rights)[key].valid ==>
        if reply.Revocation? then reply.version == old(rights)[key].version + 1
        else if reply == Refused(RevokeFailed) then !(key in rights && rights[key].version == old(rights)[key].version)
        else reply == Refused(Unavailable) && !faultless
    {
      reply := ReadToRevoke(w, key);
      if Session(w).Revoking? {
        Interfere(w);
        reply := CommitRevocation(w);
      }
    }

    /** The right as it is now, or the answer if there is nothing to revoke. */
    method ReadToRevoke(w: Worker, key: RightKey) returns (reply: Reply)
      requires Valid() && (Session(w).Idle? || Session(w).Done?)
      modifies this`sessions, this`trace
      ensures Valid() && trace == old(trace) + [ReadForRevoke(w, key)]
      ensures Session(w) ==
        if key !in rights then Done(Refused(RightNotFound))
        else if !rights[key].valid then Done(Revocation(false, rights[key].version))
        else Revoking(key, rights[key])
      ensures Session(w).Done? ==> Session(w) == Done(reply)
    {
      reply := Refused(RightNotFound);
      if key !in rights {
        MoveTo(w, Done(reply), ReadForRevoke(w, key));
      } else if !rights[key].valid {
        reply := Revocation(false, rights[key].version);
        MoveTo(w, Done(reply), ReadForRevoke(w, key));
      } else {
        MoveTo(w, Revoking(key, rights[key]), ReadForRevoke(w, key));
      }
    }

    /** `commit_or_409` of the revocation. */
    method CommitRevocation(w: Worker) returns (reply: Reply)
      requires Valid() && Session(w).Revoking?
      modifies this
      ensures Valid() && Session(w) == Done(reply) && logs == old(logs)
      ensures reply == Refused(Unavailable) ==>
        !faultless && trace == old(trace) + [Fail(w)] && rights == old(rights) && outbox == old(outbox)
      ensures reply != Refused(Unavailable) ==>
        trace == old(trace) + [CommitRevoke(w)] && (reply.Revocation? <==> Revokes(old(View()), w))
      ensures reply.Revocation? ==>
        RevokedAs(old(Session(w)).key, reply) && reply.version == old(Session(w)).right.version + 1
      ensures !reply.Revocation? ==>
        (reply == Refused(RevokeFailed) || reply == Refused(Unavailable)) && rights == old(rights)
    {
      var broken: bool := *;
      if broken && !faultless {
        reply := Refused(Unavailable);
        MoveTo(w, Done(reply), Fail(w));
      } else {
        reply := RevokeOrFail(w);
      }
    }

    method RevokeOrFail(w: Worker) returns (reply: Reply)
      requires Valid() && Session(w).Revoking?
      modifies this`rights, this`outbox, this`sessions, this`trace
      ensures Valid() && trace == old(trace) + [CommitRevoke(w)] && Session(w) == Done(reply)
      ensures reply.Revocation? <==> Revokes(old(View()), w)
      ensures reply.Revocation? ==>
        RevokedAs(old(Session(w)).key, reply) && reply.version == old(Session(w)).right.version + 1
      ensures !reply.Revocation? ==> reply == Refused(RevokeFailed) && rights == old(rights)
    {
      ghost var before := View();
      reply := WriteRevocation(w);
      Record(CommitRevoke(w), before);
    }

    predicate RevokedAs(key: RightKey, reply: Reply)
      reads this
      requires reply.Revocation?
    {
      !reply.valid && key in rights && !rights[key].valid && rights[key].version == reply.version
    }

    /** The conditional UPDATE and the event, or StaleDataError. */
    method WriteRevocation(w: Worker) returns (reply: Reply)
      requires Session(w).Revoking?
      modifies this`rights, this`outbox, this`sessions
      ensures View() == NextCommitRevoke(old(View()), w) && Session(w) == Done(reply)
      ensures reply.Revocation? <==> Revokes(old(View()), w)
      ensures reply.Revocation? ==>
        RevokedAs(old(Session(w)).key, reply) && reply.version == old(Session(w)).right.version + 1
      ensures !reply.Revocation? ==> reply == Refused(RevokeFailed) && rights == old(rights)
    {
      var me := Session(w);
      if me.key in rights && rights[me.key].version == me.right.version {
        var version := me.right.version + 1;
        rights := rights[me.key := rights[me.key].(valid := false, version := version)];
        outbox := outbox + [Event(me.key.tenantId, RightRevoked(me.key.rightId, me.right.ownerId, version))];
        reply := Revocation(false, version);
      } else {
        reply := Refused(RevokeFailed);
      }
      sessions := sessions[w := Done(reply)];
    }
  }
}
