/** What every step of every request keeps: calls, reads and row locks of the sessions in progress. */
module AccessSafety {
  import opened Prelude
  import opened AuditLog
  import opened RiskEngine
  import opened PolicyEngine
  import opened WorkflowEngine
  import AuditReplay
  import opened DecisionResponses
  import opened AccessProtocol
  import Store = VersionedStore

  /** A later state of a right: another version, or the same owner, validity and history. */
  ghost predicate Follows(read: Right, current: Right) {
    && read.version <= current.version
    && (read.version == current.version ==>
          read.ownerId == current.ownerId && read.valid == current.valid
          && read.ownerChangeCount == current.ownerChangeCount)
  }

  /** A valid right as it was at some time. */
  ghost predicate ReadOk(s: State, key: RightKey, right: Right) {
    key in s.db.rights && right.valid && Follows(right, s.db.rights[key])
  }

  ghost predicate CallOk(s: State, call: Call) {
    && call.id < s.nextCall
    && call.api.token in s.guards.tokens && s.guards.tokens[call.api.token] == call.claims
    && call.claims.tenantId == call.api.tenantId && call.api.tenantId in s.db.tenants
  }

  /** The call of a session in progress. */
  function CallOf(me: Session): Option<Call> {
    if me.Idle? || me.Revoking? || me.Done? then None else Some(me.call)
  }

  /** The columns that say how the request came. */
  predicate Circumstances(api: Api, row: RequestLog) {
    && row.deviceId == api.deviceId && row.ipHash == api.ipHash && row.countryCode == api.countryCode
    && row.transactionAmount == api.transactionAmount
    && row.traceId == api.traceId && row.decisionVersion == api.decisionVersion
  }

  /** The row and the answer that a request has computed. */
  ghost predicate RowOk(digest: Digest, call: Call, right: Right, row: RequestLog, response: Response) {
    && row.tenantId == call.api.tenantId && row.rightId == call.claims.rightId && row.userId == call.claims.sub
    && row.requestType == call.api.requestType && row.newOwnerId == call.api.newOwnerId
    && Circumstances(call.api, row)
    && row.idempotencyKey == IdempotencyKey(digest, call) && row.requestFingerprint == FingerprintOf(digest, call)
    && response == BuildIdempotentResponse(row)
    && (row.allowed && row.requestType == TRANSFER ==> row.newOwnerId.Some? && row.newOwnerId.value != right.ownerId)
  }

  ghost predicate OwnerRead(s: State, call: Call, right: Right) {
    ReadOk(s, KeyOf(call), right) && right.ownerId == call.claims.sub
  }

  ghost predicate ReservationOk(s: State, me: Session)
    requires me.Reserved?
  {
    var t := me.call.api.tenantId;
    t in s.db.tenants && me.usageCount == s.db.tenants[t].usageCount + 1
    && me.usageCount <= s.db.tenants[t].monthlyQuota
  }

  ghost predicate SessionOk(digest: Digest, s: State, me: Session) {
    && (CallOf(me).Some? ==> CallOk(s, CallOf(me).value))
    && (me.Owning? || me.Unlogged? || me.Marked? || me.Uncached? || me.Judged? || me.Reserved? ==>
          OwnerRead(s, me.call, me.right))
    && (me.Judged? || me.Reserved? ==> RowOk(digest, me.call, me.right, me.row, me.response))
    && (me.Reserved? ==> ReservationOk(s, me))
    && (me.Revoking? ==> ReadOk(s, me.key, me.right))
  }

  ghost predicate SessionsOk(digest: Digest, s: State) {
    forall w :: w in s.sessions ==> SessionOk(digest, s, s.sessions[w])
  }

  predicate BothHold(a: Session, b: Session) {
    a.Reserved? && b.Reserved? && a.call.api.tenantId == b.call.api.tenantId
  }

  /** A tenant's row is held by one transaction at a time. */
  ghost predicate LocksOk(s: State) {
    forall v, w :: v in s.sessions && w in s.sessions && BothHold(s.sessions[v], s.sessions[w]) ==> v == w
  }

  ghost predicate Inv(digest: Digest, s: State) {
    SessionsOk(digest, s) && LocksOk(s)
  }

  // ----- What later states still have

  ghost predicate Grows(s: State, t: State) {
    && s.nextCall <= t.nextCall
    && (forall jti :: jti in s.guards.tokens ==> jti in t.guards.tokens && t.guards.tokens[jti] == s.guards.tokens[jti])
    && (forall id :: id in s.db.tenants ==> id in t.db.tenants)
    && (forall key :: key in s.db.rights ==> key in t.db.rights && Follows(s.db.rights[key], t.db.rights[key]))
  }

  /** No tenant's row but that of `except` changes. */
  ghost predicate TenantsStay(s: State, t: State, except: Option<string>) {
    forall id :: id in s.db.tenants && Some(id) != except ==> id in t.db.tenants && t.db.tenants[id] == s.db.tenants[id]
  }

  lemma SessionStaysOk(digest: Digest, s: State, t: State, me: Session, except: Option<string>)
    requires SessionOk(digest, s, me) && Grows(s, t) && TenantsStay(s, t, except)
    requires me.Reserved? ==> Some(me.call.api.tenantId) != except
    ensures SessionOk(digest, t, me)
  {
  }

  /**
    A step of `w` that is good for itself, lets what others rely on grow, and changes no tenant's row but,
    at most, the one that it holds.
   */
  ghost predicate GoodStep(digest: Digest, s: State, t: State, w: Worker, except: Option<string>) {
    var me := SessionOf(t, w);
    && Grows(s, t) && TenantsStay(s, t, except)
    && t.sessions == s.sessions[w := me] && SessionOk(digest, t, me)
    && (except.Some? ==> SessionOf(s, w).Reserved? && except.value == SessionOf(s, w).call.api.tenantId)
    && (me.Reserved? ==> !TenantLocked(s, w, me.call.api.tenantId))
  }

  lemma GoodStepKeepsLocks(digest: Digest, s: State, t: State, w: Worker, except: Option<string>)
    requires LocksOk(s) && GoodStep(digest, s, t, w, except)
    ensures LocksOk(t)
  {
    forall u, v | u in t.sessions && v in t.sessions && BothHold(t.sessions[u], t.sessions[v]) ensures u == v {
      if u != w && v != w {
        assert BothHold(s.sessions[u], s.sessions[v]);
      }
    }
  }

  lemma GoodStepKeepsInv(digest: Digest, s: State, t: State, w: Worker, except: Option<string>)
    requires Inv(digest, s) && GoodStep(digest, s, t, w, except)
    ensures Inv(digest, t)
  {
    forall v | v in t.sessions ensures SessionOk(digest, t, t.sessions[v]) {
      if v != w {
        SessionStaysOk(digest, s, t, s.sessions[v], except);
      }
    }
    GoodStepKeepsLocks(digest, s, t, w, except);
  }

  lemma SessionMoves(digest: Digest, s: State, w: Worker, me: Session)
    requires SessionOk(digest, s, me) && !me.Reserved?
    ensures GoodStep(digest, s, SetSession(s, w, me), w, None)
  {
  }

  lemma GuardsMove(digest: Digest, s: State, guards: Guards, w: Worker, me: Session)
    requires guards.tokens == s.guards.tokens && SessionOk(digest, s, me) && !me.Reserved?
    ensures GoodStep(digest, s, SetSession(s.(guards := guards), w, me), w, None)
  {
  }

  // ----- Step by step

  predicate IsAdmin(step: Step) {
    step.CreateTenant? || step.SetDevice? || step.CreateRight? || step.IssueToken?
  }

  lemma AdminStepGrows(digest: Digest, s: State, step: Step)
    requires IsAdmin(step)
    ensures Grows(s, Next(digest, s, step)) && TenantsStay(s, Next(digest, s, step), None)
    ensures Next(digest, s, step).sessions == s.sessions
  {
  }

  lemma AdminStepKeepsInv(digest: Digest, s: State, step: Step)
    requires Inv(digest, s) && IsAdmin(step)
    ensures Inv(digest, Next(digest, s, step))
  {
    var t := Next(digest, s, step);
    AdminStepGrows(digest, s, step);
    forall w | w in t.sessions ensures SessionOk(digest, t, t.sessions[w]) {
      SessionStaysOk(digest, s, t, s.sessions[w], None);
    }
  }

  lemma AuthenticateIsGood(digest: Digest, s: State, w: Worker, api: Api, now: Time)
    ensures
      NextAuthenticate(s, w, api, now) == s || GoodStep(digest, s, NextAuthenticate(s, w, api, now), w, None)
  {
  }

  lemma ReadIsGood(digest: Digest, s: State, w: Worker)
    requires SessionOf(s, w).Authenticated? && SessionOk(digest, s, SessionOf(s, w))
    ensures GoodStep(digest, s, NextReadRight(s, w), w, None)
  {
    var me := SessionOf(NextReadRight(s, w), w);
    assert NextReadRight(s, w) == SetSession(s, w, me);
    SessionMoves(digest, s, w, me);
  }

  lemma LookupIsGood(digest: Digest, s: State, w: Worker)
    requires SessionOf(s, w).Owning? && SessionOk(digest, s, SessionOf(s, w))
    ensures GoodStep(digest, s, NextLookup(digest, s, w), w, None)
  {
    var me := SessionOf(NextLookup(digest, s, w), w);
    assert NextLookup(digest, s, w) == SetSession(s, w, me);
    SessionMoves(digest, s, w, me);
  }

  lemma FindWinnerIsGood(digest: Digest, s: State, w: Worker)
    requires SessionOf(s, w).Losing? && SessionOk(digest, s, SessionOf(s, w))
    ensures GoodStep(digest, s, NextFindWinner(digest, s, w), w, None)
  {
    var me := SessionOf(NextFindWinner(digest, s, w), w);
    assert NextFindWinner(digest, s, w) == SetSession(s, w, me);
    SessionMoves(digest, s, w, me);
  }

  lemma MarkIsGood(digest: Digest, s: State, w: Worker, now: Time)
    requires SessionOf(s, w).Unlogged? && SessionOk(digest, s, SessionOf(s, w))
    ensures NextMark(s, w, now) == s || GoodStep(digest, s, NextMark(s, w, now), w, None)
  {
  }

  lemma ConsultIsGood(digest: Digest, s: State, w: Worker, now: Time)
    requires SessionOf(s, w).Marked? && SessionOk(digest, s, SessionOf(s, w))
    ensures GoodStep(digest, s, NextConsult(s, w, now), w, None)
  {
    var t := NextConsult(s, w, now);
    assert t == SetSession(s.(guards := t.guards), w, SessionOf(t, w));
    GuardsMove(digest, s, t.guards, w, SessionOf(t, w));
  }

  lemma OwnershipIsRespected(r: AuditReplay.Request, risk: RiskDecision, policy: PolicyDecision,
                             workflow: Option<Store.Row<WorkflowConfig>>, now: Time)
    ensures
      var log := AuditReplay.LogOf(0, r, risk, policy, workflow, now);
      log.allowed && log.requestType == TRANSFER ==> log.newOwnerId.Some? && log.newOwnerId.value != r.ownerId
  {
  }

  /** The decision carries the request's identity, and an allowed transfer has a new owner. */
  lemma JudgementIsOk(digest: Digest, call: Call, right: Right, basis: Basis)
    ensures
      var me := Judge(digest, call, right, basis);
      me.Judged? && me.call == call && me.right == right && RowOk(digest, call, right, me.row, me.response)
  {
    var r := RequestOf(digest, call, right);
    RiskScoresAddUp(AuditReplay.RiskQueryOf(r), basis.history, basis.riskNow);
    var risk := Risk(AuditReplay.RiskQueryOf(r), basis.history, basis.riskNow);
    RetryAnswersTheSame(0, r, risk, basis.policy, basis.workflow, basis.stamp);
    OwnershipIsRespected(r, risk, basis.policy, basis.workflow, basis.stamp);
  }

  lemma JudgedMayFollow(digest: Digest, s: State, w: Worker, me: Session)
    requires SessionOf(s, w).Uncached? && SessionOk(digest, s, SessionOf(s, w)) && me.Judged?
    requires me.call == SessionOf(s, w).call && me.right == SessionOf(s, w).right
    requires RowOk(digest, me.call, me.right, me.row, me.response)
    ensures GoodStep(digest, s, SetSession(s, w, me), w, None)
  {
    SessionMoves(digest, s, w, me);
  }

  lemma DecideIsGood(digest: Digest, s: State, w: Worker, basis: Basis)
    requires SessionOf(s, w).Uncached? && SessionOk(digest, s, SessionOf(s, w))
    ensures GoodStep(digest, s, NextDecide(digest, s, w, basis), w, None)
  {
    var call, right := SessionOf(s, w).call, SessionOf(s, w).right;
    JudgementIsOk(digest, call, right, basis);
    JudgedMayFollow(digest, s, w, Judge(digest, call, right, basis));
  }

  lemma ReserveIsGood(digest: Digest, s: State, w: Worker)
    requires SessionOf(s, w).Judged? && SessionOk(digest, s, SessionOf(s, w))
    ensures NextReserve(s, w) == s || GoodStep(digest, s, NextReserve(s, w), w, None)
  {
  }

  lemma CommitGrows(s: State, w: Worker)
    requires SessionOf(s, w).Reserved?
    ensures Grows(s, NextCommit(s, w))
  {
    var me := SessionOf(s, w);
    if Commits(s, w) && me.row.allowed {
      assert Follows(s.db.rights[KeyOf(me.call)], WriteRight(s.db.rights[KeyOf(me.call)], me.right, me.row));
    }
  }

  lemma CommitKeepsTenants(s: State, w: Worker)
    requires SessionOf(s, w).Reserved?
    ensures TenantsStay(s, NextCommit(s, w), Some(SessionOf(s, w).call.api.tenantId))
  {
  }

  /** After its commit a request keeps only its call, whether it has won or lost. */
  lemma CommittedSessionOk(digest: Digest, s: State, w: Worker)
    requires SessionOf(s, w).Reserved? && CallOk(s, SessionOf(s, w).call)
    ensures
      var t := NextCommit(s, w);
      && t.sessions == s.sessions[w := SessionOf(t, w)]
      && SessionOk(digest, t, SessionOf(t, w)) && !SessionOf(t, w).Reserved?
  {
  }

  lemma CommitIsGood(digest: Digest, s: State, w: Worker)
    requires SessionOf(s, w).Reserved? && SessionOk(digest, s, SessionOf(s, w))
    ensures GoodStep(digest, s, NextCommit(s, w), w, Some(SessionOf(s, w).call.api.tenantId))
  {
    CommitGrows(s, w);
    CommitKeepsTenants(s, w);
    CommittedSessionOk(digest, s, w);
  }

  lemma RememberIsGood(digest: Digest, s: State, w: Worker, now: Time, lifetime: Time)
    requires SessionOf(s, w).Stored? && SessionOk(digest, s, SessionOf(s, w))
    ensures GoodStep(digest, s, NextRemember(s, w, now, lifetime), w, None)
  {
  }

  lemma ReadForRevokeIsGood(digest: Digest, s: State, w: Worker, key: RightKey)
    ensures NextReadForRevoke(s, w, key) == s || GoodStep(digest, s, NextReadForRevoke(s, w, key), w, None)
  {
  }

  lemma RevokeIsGood(digest: Digest, s: State, w: Worker)
    requires SessionOf(s, w).Revoking?
    ensures GoodStep(digest, s, NextCommitRevoke(s, w), w, None)
  {
  }

  lemma EndIsGood(digest: Digest, s: State, w: Worker)
    ensures GoodStep(digest, s, SetSession(s, w, Idle), w, None)
    ensures GoodStep(digest, s, Refuse(s, w, Unavailable), w, None)
  {
    SessionMoves(digest, s, w, Idle);
    SessionMoves(digest, s, w, Done(Refused(Unavailable)));
  }

  /** Whose row a step may change. */
  function RowOfStep(s: State, step: Step): Option<string> {
    if step.Commit? && SessionOf(s, step.worker).Reserved? then Some(SessionOf(s, step.worker).call.api.tenantId)
    else None
  }

  /** The steps up to the decision. */
  predicate IsEarly(step: Step) {
    || step.Authenticate? || step.ReadRight? || step.Lookup? || step.MarkToken? || step.ConsultCache?
    || step.DecideRequest?
  }

  lemma EarlyIsGood(digest: Digest, s: State, step: Step)
    requires IsEarly(step) && SessionOk(digest, s, SessionOf(s, step.worker))
    ensures Next(digest, s, step) == s || GoodStep(digest, s, Next(digest, s, step), step.worker, None)
  {
    match step
    case Authenticate(w, api, now) => AuthenticateIsGood(digest, s, w, api, now);
    case ReadRight(w) => if SessionOf(s, w).Authenticated? { ReadIsGood(digest, s, w); }
    case Lookup(w) => if SessionOf(s, w).Owning? { LookupIsGood(digest, s, w); }
    case MarkToken(w, now) => if SessionOf(s, w).Unlogged? { MarkIsGood(digest, s, w, now); }
    case ConsultCache(w, now) => if SessionOf(s, w).Marked? { ConsultIsGood(digest, s, w, now); }
    case DecideRequest(w, basis) => if SessionOf(s, w).Uncached? { DecideIsGood(digest, s, w, basis); }
  }

  lemma LateIsGood(digest: Digest, s: State, step: Step)
    requires !IsAdmin(step) && !IsEarly(step) && SessionOk(digest, s, SessionOf(s, step.worker))
    ensures Next(digest, s, step) == s || GoodStep(digest, s, Next(digest, s, step), step.worker, RowOfStep(s, step))
  {
    match step
    case Reserve(w) => if SessionOf(s, w).Judged? { ReserveIsGood(digest, s, w); }
    case Commit(w) => if SessionOf(s, w).Reserved? { CommitIsGood(digest, s, w); }
    case Remember(w, now, lifetime) => if SessionOf(s, w).Stored? { RememberIsGood(digest, s, w, now, lifetime); }
    case FindWinner(w) => if SessionOf(s, w).Losing? { FindWinnerIsGood(digest, s, w); }
    case ReadForRevoke(w, key) => ReadForRevokeIsGood(digest, s, w, key);
    case CommitRevoke(w) => if SessionOf(s, w).Revoking? { RevokeIsGood(digest, s, w); }
    case Fail(w) => EndIsGood(digest, s, w);
    case Crash(w) => EndIsGood(digest, s, w);
  }

  lemma NextIsGood(digest: Digest, s: State, step: Step)
    requires !IsAdmin(step) && SessionOk(digest, s, SessionOf(s, step.worker))
    ensures Next(digest, s, step) == s || GoodStep(digest, s, Next(digest, s, step), step.worker, RowOfStep(s, step))
  {
    if IsEarly(step) {
      EarlyIsGood(digest, s, step);
    } else {
      LateIsGood(digest, s, step);
    }
  }

  lemma WorkerIsOk(digest: Digest, s: State, w: Worker)
    requires Inv(digest, s)
    ensures SessionOk(digest, s, SessionOf(s, w))
  {
  }

  lemma NextKeepsInv(digest: Digest, s: State, step: Step)
    requires Inv(digest, s)
    ensures Inv(digest, Next(digest, s, step))
  {
    if IsAdmin(step) {
      AdminStepKeepsInv(digest, s, step);
    } else {
      WorkerIsOk(digest, s, step.worker);
      NextIsGood(digest, s, step);
      if Next(digest, s, step) != s {
        GoodStepKeepsInv(digest, s, Next(digest, s, step), step.worker, RowOfStep(s, step));
      }
    }
  }

  lemma {:induction false} RunKeepsInv(digest: Digest, run: seq<Step>)
    ensures Inv(digest, Run(digest, run))
  {
    if run != [] {
      RunKeepsInv(digest, run[..|run| - 1]);
      NextKeepsInv(digest, Run(digest, run[..|run| - 1]), run[|run| - 1]);
    }
  }
}
