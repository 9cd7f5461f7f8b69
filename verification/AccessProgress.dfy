/** A request that nothing stands in the way of arrives at its lookup, passes it, and commits its decision. */
module AccessProgress {
  import opened Prelude
  import opened RiskEngine
  import AuditReplay
  import opened ReplayProtection
  import opened AccessProtocol
  import opened AccessSafety
  import opened AccessLedger
  import opened AccessAuthentication

  // ----- Arrival

  /** An authentic request of the owner of a valid right, under no key that has been used. */
  ghost predicate MayArrive(digest: Digest, s: State, w: Worker, api: Api, now: Time) {
    && (SessionOf(s, w).Idle? || SessionOf(s, w).Done?) && s.guards.clock <= now
    && MayEnter(s, api, now)
    && RightFor(api, s.guards.tokens[api.token]) in s.db.rights
    && s.db.rights[RightFor(api, s.guards.tokens[api.token])].valid
    && s.db.rights[RightFor(api, s.guards.tokens[api.token])].ownerId == s.guards.tokens[api.token].sub
    && (ExplicitKey(api).Some? ==>
          && |ExplicitKey(api).value| <= 128
          && FindLog(s.db.logs, api.tenantId, ExplicitKey(api).value).None?)
  }

  function RightFor(api: Api, claims: Claims): RightKey { RightKey(api.tenantId, claims.rightId) }

  function Arriving(w: Worker, api: Api, now: Time): seq<Step> {
    [Authenticate(w, api, now)] + [ReadRight(w)] + [Lookup(w)]
  }

  /** It has passed its lookup, and nothing else has happened. */
  ghost predicate HasArrived(s: State, t: State, w: Worker, api: Api, now: Time) {
    && api.token in s.guards.tokens && s.guards.tokens[api.token].tenantId in s.db.tenants
    && RightFor(api, s.guards.tokens[api.token]) in s.db.rights
    && t.db == s.db && t.guards == s.guards.(clock := now) && t.nextCall == s.nextCall + 1
    && t.sessions == s.sessions[w := Unlogged(Entering(s, api), s.db.rights[RightFor(api, s.guards.tokens[api.token])])]
  }

  lemma AuthenticateStep(digest: Digest, run: seq<Step>, s: State, w: Worker, api: Api, now: Time)
    requires Reaches(digest, run, s)
    ensures Reaches(digest, run + [Authenticate(w, api, now)], NextAuthenticate(s, w, api, now))
  {
    ReachesNext(digest, run, s, Authenticate(w, api, now));
  }

  lemma ReadStep(digest: Digest, run: seq<Step>, s: State, w: Worker)
    requires Reaches(digest, run, s) && SessionOf(s, w).Authenticated?
    ensures Reaches(digest, run + [ReadRight(w)], NextReadRight(s, w))
  {
    ReachesNext(digest, run, s, ReadRight(w));
  }

  lemma LookupStep(digest: Digest, run: seq<Step>, s: State, w: Worker)
    requires Reaches(digest, run, s) && SessionOf(s, w).Owning?
    ensures Reaches(digest, run + [Lookup(w)], NextLookup(digest, s, w))
  {
    ReachesNext(digest, run, s, Lookup(w));
  }

  lemma ArrivesThere(digest: Digest, s: State, w: Worker, api: Api, now: Time)
    requires MayArrive(digest, s, w, api, now)
    ensures
      var known := NextAuthenticate(s, w, api, now);
      && SessionOf(known, w).Authenticated? && SessionOf(NextReadRight(known, w), w).Owning?
      && HasArrived(s, NextLookup(digest, NextReadRight(known, w), w), w, api, now)
  {
    var known := NextAuthenticate(s, w, api, now);
    assert known == SetSession(SetClock(s, now).(nextCall := s.nextCall + 1), w, Authenticated(Entering(s, api)));
    var owning := NextReadRight(known, w);
    assert owning == SetSession(known, w, Owning(Entering(s, api),
                                                    s.db.rights[RightFor(api, s.guards.tokens[api.token])]));
  }

  lemma RequestsArrive(digest: Digest, run: seq<Step>, s: State, w: Worker, api: Api, now: Time) returns (t: State)
    requires Reaches(digest, run, s) && MayArrive(digest, s, w, api, now)
    ensures Reaches(digest, run + Arriving(w, api, now), t) && HasArrived(s, t, w, api, now)
  {
    ArrivesThere(digest, s, w, api, now);
    var known := NextAuthenticate(s, w, api, now);
    AuthenticateStep(digest, run, s, w, api, now);
    ReadStep(digest, run + [Authenticate(w, api, now)], known, w);
    LookupStep(digest, run + [Authenticate(w, api, now)] + [ReadRight(w)], NextReadRight(known, w), w);
    t := NextLookup(digest, NextReadRight(known, w), w);
    assert run + [Authenticate(w, api, now)] + [ReadRight(w)] + [Lookup(w)] == run + Arriving(w, api, now);
  }

  // ----- An undisturbed request

  /** The request has passed its lookup, and nothing stands in the way of its commit at time `now`. */
  ghost predicate MayCommit(digest: Digest, s: State, w: Worker, now: Time) {
    var me := SessionOf(s, w);
    && me.Unlogged? && me.call.quotaLeft && s.guards.clock <= now
    && (TokenOf(me.call) in s.guards.seen ==> s.guards.seen[TokenOf(me.call)] <= now)
    && (me.call.api.requestType == ACCESS ==> CacheKeyOf(me.call, me.right) !in s.guards.cache)
    && me.call.api.tenantId in s.db.tenants
    && s.db.tenants[me.call.api.tenantId].usageCount < s.db.tenants[me.call.api.tenantId].monthlyQuota
    && !TenantLocked(s, w, me.call.api.tenantId)
    && FindLog(s.db.logs, me.call.api.tenantId, IdempotencyKey(digest, me.call)).None?
    && KeyOf(me.call) in s.db.rights && s.db.rights[KeyOf(me.call)].version == me.right.version
  }

  function MarkOf(s: State, w: Worker, now: Time): MarkRecord
    requires SessionOf(s, w).Unlogged?
  {
    var call := SessionOf(s, w).call;
    MarkRecord(call.id, TokenOf(call), call.claims.exp, now)
  }

  /** Only the session of `w` and its mark have changed since `s`. */
  ghost predicate OnItsWay(s: State, t: State, w: Worker, me: Session, now: Time)
    requires SessionOf(s, w).Unlogged?
  {
    var id := TokenOf(SessionOf(s, w).call);
    && t.db == s.db && t.sessions == s.sessions[w := me] && t.nextCall == s.nextCall
    && t.guards.tokens == s.guards.tokens
    && t.guards.marks == s.guards.marks + [MarkOf(s, w, now)] && t.guards.clock == now
    && (forall key :: key in t.guards.cache ==> key in s.guards.cache)
    && (forall other :: other in t.guards.seen ==>
          if other == id then t.guards.seen[id] == now + TimeToLive(SessionOf(s, w).call.claims.exp, now) as real
          else other in s.guards.seen && t.guards.seen[other] == s.guards.seen[other])
  }

  lemma Marks(digest: Digest, s: State, w: Worker, now: Time)
    requires MayCommit(digest, s, w, now)
    ensures OnItsWay(s, NextMark(s, w, now), w, Marked(SessionOf(s, w).call, SessionOf(s, w).right), now)
  {
  }

  lemma Consults(digest: Digest, s: State, t: State, w: Worker, now: Time)
    requires MayCommit(digest, s, w, now)
    requires OnItsWay(s, t, w, Marked(SessionOf(s, w).call, SessionOf(s, w).right), now)
    ensures SessionOf(t, w).Marked?
    ensures OnItsWay(s, NextConsult(t, w, now), w, Uncached(SessionOf(s, w).call, SessionOf(s, w).right), now)
  {
  }

  lemma Reserves(digest: Digest, s: State, t: State, w: Worker, me: Session, now: Time)
    requires MayCommit(digest, s, w, now) && me.Judged? && me.call == SessionOf(s, w).call
    requires OnItsWay(s, t, w, me, now)
    ensures SessionOf(t, w) == me
    ensures OnItsWay(s, NextReserve(t, w), w, ReservedFor(s, me), now)
  {
  }

  /** The decision of `w` on this basis. */
  function Decision(digest: Digest, s: State, w: Worker, basis: Basis): Session
    requires SessionOf(s, w).Unlogged?
  {
    Judge(digest, SessionOf(s, w).call, SessionOf(s, w).right, basis)
  }

  /** The ownership rules, the risk engine and the policies all let the request pass. */
  ghost predicate MayPass(digest: Digest, s: State, w: Worker, basis: Basis)
    requires SessionOf(s, w).Unlogged?
  {
    var r := RequestOf(digest, SessionOf(s, w).call, SessionOf(s, w).right);
    && AuditReplay.OwnershipVerdict(r).None?
    && Risk(AuditReplay.RiskQueryOf(r), basis.history, basis.riskNow).allow
    && !(basis.policy.matched && basis.policy.allow == Some(false))
  }

  /** It belongs to the request, and allows it exactly if everything lets it pass. */
  lemma DecisionIsOwn(digest: Digest, s: State, w: Worker, basis: Basis)
    requires SessionOf(s, w).Unlogged?
    ensures
      var before, me := SessionOf(s, w), Decision(digest, s, w, basis);
      && me.Judged? && me.call == before.call && me.right == before.right
      && RowOk(digest, me.call, me.right, me.row, me.response)
      && (me.row.allowed <==> MayPass(digest, s, w, basis))
  {
    var call, right := SessionOf(s, w).call, SessionOf(s, w).right;
    JudgementIsOk(digest, call, right, basis);
  }

  /** A decision on the request of `w`. */
  ghost predicate Decides(digest: Digest, s: State, w: Worker, me: Session)
    requires SessionOf(s, w).Unlogged?
  {
    && me.Judged? && me.call == SessionOf(s, w).call && me.right == SessionOf(s, w).right
    && RowOk(digest, me.call, me.right, me.row, me.response)
  }

  function ReservedFor(s: State, me: Session): Session
    requires me.Judged?
  {
    Reserved(me.call, me.right, me.row, me.response, Usage(s.db, me.call.api.tenantId) + 1)
  }

  /** Exactly the decision `me` of `w` has been committed since `s`: counter, right, log and events are `Written`. */
  ghost predicate HasCommitted(digest: Digest, s: State, t: State, w: Worker, me: Session, now: Time)
    requires SessionOf(s, w).Unlogged?
  {
    && Decides(digest, s, w, me)
    && (me.row.allowed ==> KeyOf(me.call) in s.db.rights)
    && t.db == Written(s.db, ReservedFor(s, me))
    && OnItsWay(s, t.(db := s.db), w, Stored(me.call, me.right, me.row, me.response), now)
  }

  lemma CommitsIt(digest: Digest, s: State, t: State, w: Worker, me: Session, now: Time)
    requires MayCommit(digest, s, w, now) && Decides(digest, s, w, me)
    requires OnItsWay(s, t, w, ReservedFor(s, me), now)
    ensures SessionOf(t, w).Reserved? && HasCommitted(digest, s, NextCommit(t, w), w, me, now)
  {
    assert Commits(t, w);
  }

  // ----- Steps in a row

  lemma MarkStep(digest: Digest, run: seq<Step>, s: State, w: Worker, now: Time)
    requires Reaches(digest, run, s) && SessionOf(s, w).Unlogged?
    ensures Reaches(digest, run + [MarkToken(w, now)], NextMark(s, w, now))
  {
    ReachesNext(digest, run, s, MarkToken(w, now));
  }

  lemma ConsultStep(digest: Digest, run: seq<Step>, s: State, w: Worker, now: Time)
    requires Reaches(digest, run, s) && SessionOf(s, w).Marked?
    ensures Reaches(digest, run + [ConsultCache(w, now)], NextConsult(s, w, now))
  {
    ReachesNext(digest, run, s, ConsultCache(w, now));
  }

  lemma DecideStep(digest: Digest, run: seq<Step>, s: State, t: State, w: Worker, basis: Basis)
    requires Reaches(digest, run, s) && SessionOf(s, w).Uncached?
    requires t == NextDecide(digest, s, w, basis)
    ensures Reaches(digest, run + [DecideRequest(w, basis)], t)
  {
    DecidingStep(digest, s, DecideRequest(w, basis));
    ReachesNext(digest, run, s, DecideRequest(w, basis));
  }

  lemma ReserveStep(digest: Digest, run: seq<Step>, s: State, w: Worker)
    requires Reaches(digest, run, s) && SessionOf(s, w).Judged?
    ensures Reaches(digest, run + [Reserve(w)], NextReserve(s, w))
  {
    ReachesNext(digest, run, s, Reserve(w));
  }

  lemma CommitStep(digest: Digest, run: seq<Step>, s: State, w: Worker)
    requires Reaches(digest, run, s) && SessionOf(s, w).Reserved?
    ensures Reaches(digest, run + [Commit(w)], NextCommit(s, w))
  {
    ReachesNext(digest, run, s, Commit(w));
  }

  /** Mark and cache of one request. */
  lemma Clearing(digest: Digest, run: seq<Step>, s: State, w: Worker, now: Time) returns (t: State)
    requires Reaches(digest, run, s) && MayCommit(digest, s, w, now)
    ensures Reaches(digest, run + [MarkToken(w, now)] + [ConsultCache(w, now)], t)
    ensures OnItsWay(s, t, w, Uncached(SessionOf(s, w).call, SessionOf(s, w).right), now)
  {
    var marked := NextMark(s, w, now);
    Marks(digest, s, w, now);
    MarkStep(digest, run, s, w, now);
    Consults(digest, s, marked, w, now);
    ConsultStep(digest, run + [MarkToken(w, now)], marked, w, now);
    t := NextConsult(marked, w, now);
  }

  /** The decision of one request, which has the mark and the cache behind it. */
  lemma DecideOnce(digest: Digest, run: seq<Step>, s: State, cleared: State, w: Worker,
                   basis: Basis) returns (me: Session)
    requires Reaches(digest, run, cleared) && SessionOf(s, w).Unlogged?
    requires SessionOf(cleared, w) == Uncached(SessionOf(s, w).call, SessionOf(s, w).right)
    ensures Reaches(digest, run + [DecideRequest(w, basis)], SetSession(cleared, w, me))
    ensures Decides(digest, s, w, me) && (me.row.allowed <==> MayPass(digest, s, w, basis))
  {
    DecisionIsOwn(digest, s, w, basis);
    me := Decision(digest, s, w, basis);
    DecideStep(digest, run, cleared, SetSession(cleared, w, me), w, basis);
  }

  lemma StaysOnItsWay(s: State, t: State, w: Worker, me: Session, next: Session, now: Time)
    requires SessionOf(s, w).Unlogged? && OnItsWay(s, t, w, me, now)
    ensures SessionOf(t, w) == me && OnItsWay(s, SetSession(t, w, next), w, next, now)
  {
  }

  lemma Deciding(digest: Digest, run: seq<Step>, s: State, cleared: State, w: Worker, basis: Basis, now: Time)
    returns (t: State, me: Session)
    requires Reaches(digest, run, cleared) && SessionOf(s, w).Unlogged?
    requires OnItsWay(s, cleared, w, Uncached(SessionOf(s, w).call, SessionOf(s, w).right), now)
    ensures Reaches(digest, run + [DecideRequest(w, basis)], t)
    ensures Decides(digest, s, w, me) && OnItsWay(s, t, w, me, now)
    ensures me.row.allowed <==> MayPass(digest, s, w, basis)
  {
    var before := Uncached(SessionOf(s, w).call, SessionOf(s, w).right);
    StaysOnItsWay(s, cleared, w, before, before, now);
    me := DecideOnce(digest, run, s, cleared, w, basis);
    StaysOnItsWay(s, cleared, w, before, me, now);
    t := SetSession(cleared, w, me);
  }

  /** Reservation and commit of a decided request. */
  lemma Committing(digest: Digest, run: seq<Step>, s: State, decided: State, w: Worker, me: Session,
                   now: Time) returns (t: State)
    requires MayCommit(digest, s, w, now) && Decides(digest, s, w, me)
    requires Reaches(digest, run, decided) && OnItsWay(s, decided, w, me, now)
    ensures Reaches(digest, run + [Reserve(w)] + [Commit(w)], t) && HasCommitted(digest, s, t, w, me, now)
  {
    Reserves(digest, s, decided, w, me, now);
    ReserveStep(digest, run, decided, w);
    CommitsIt(digest, s, NextReserve(decided, w), w, me, now);
    CommitStep(digest, run + [Reserve(w)], NextReserve(decided, w), w);
    t := NextCommit(NextReserve(decided, w), w);
  }

  /** The five steps, with the decision on this basis. */
  function Settling(w: Worker, basis: Basis, now: Time): seq<Step> {
    [MarkToken(w, now)] + [ConsultCache(w, now)] + [DecideRequest(w, basis)] + [Reserve(w)] + [Commit(w)]
  }

  /**
    A request that has passed its lookup and finds its token unmarked, its key new, quota left, the tenant's
    row free and the right unchanged commits its decision, whatever it was based on: it is allowed exactly if
    the ownership rules, the risk engine on the history and the policies let it pass.
   */
  lemma UndisturbedRequestCommits(digest: Digest, run: seq<Step>, s: State, w: Worker, basis: Basis,
                                  now: Time) returns (t: State, me: Session)
    requires Reaches(digest, run, s) && MayCommit(digest, s, w, now)
    ensures Reaches(digest, run + Settling(w, basis, now), t)
    ensures HasCommitted(digest, s, t, w, me, now) && (me.row.allowed <==> MayPass(digest, s, w, basis))
  {
    var cleared := Clearing(digest, run, s, w, now);
    var clear := run + [MarkToken(w, now)] + [ConsultCache(w, now)];
    var decided;
    decided, me := Deciding(digest, clear, s, cleared, w, basis, now);
    var decisive := clear + [DecideRequest(w, basis)];
    t := Committing(digest, decisive, s, decided, w, me, now);
    assert decisive + [Reserve(w)] + [Commit(w)] == run + Settling(w, basis, now);
  }
}
