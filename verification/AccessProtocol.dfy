/**
  Tenants, rights, tokens and the transaction of `POST /request/access` (app/main.py) as a state machine.

  A request is a series of steps of one worker: authentication, reading the right, the idempotency lookup,
  the replay mark, the cache, the decision, the quota reservation (which holds the tenant row), the commit.
  Other requests, token issues and revocations take their steps in between. `digest` stands for the
  fingerprint hash; what the engines go by is left open here, and supplied in `RequestRuns`.
 */
module AccessProtocol {
  import opened Prelude
  import opened CommaLists
  import opened AuditLog
  import opened RiskEngine
  import opened PolicyEngine
  import opened WorkflowEngine
  import opened AuditReplay
  import opened DecisionResponses
  import opened ReplayProtection
  import Store = VersionedStore

  type Worker = nat

  const ACCESS := "access"

  datatype Tenant = Tenant(usageCount: int, monthlyQuota: int)

  datatype RightKey = RightKey(tenantId: string, rightId: string)

  datatype Right = Right(ownerId: string, valid: bool, ownerChangeCount: nat, version: nat, lastUsedAt: Option<Time>)

  datatype DeviceKey = DeviceKey(tenantId: string, deviceId: string)

  datatype Claims = Claims(tenantId: string, rightId: string, sub: string, deviceId: string, scope: string, exp: int)

  /** The request as it arrives from an authenticated client of `tenantId`; tokens are told apart by their jti. */
  datatype Api = Api(
    tenantId: string,
    token: string,
    requestType: string,
    deviceId: string,
    ipHash: string,
    countryCode: string,
    transactionAmount: Option<real>,
    newOwnerId: Option<string>,
    keyHeader: Option<string>,
    traceId: string,
    decisionVersion: string)

  /** What the fingerprint covers. */
  datatype Fingerprint = Fingerprint(tenantId: string, rightId: string, requestType: string, deviceId: string,
                                     ipHash: string, countryCode: string, newOwnerId: Option<string>, jti: string)

  type Digest = Fingerprint -> string

  datatype EventBody =
    | DecisionMade(traceId: string, rightId: string, riskScore: int, allowed: bool)
    | UsageIncremented(usageCount: int)
    | RightRevoked(rightId: string, ownerId: string, version: nat)

  datatype Event = Event(tenantId: string, body: EventBody)

  /** A row of request_logs with its `token_jti`, and, for reference, the request and the answer it belongs to. */
  datatype Entry = Entry(row: RequestLog, jti: string, callId: nat, response: Response)

  datatype CacheKey = CacheKey(tenantId: string, token: string, requestType: string, deviceId: string, ipHash: string,
                               countryCode: string, newOwner: string, rightVersion: nat)

  datatype Cached = Cached(expires: Time, response: Response)

  datatype Error =
    | DeviceNotFound | InvalidToken | TokenExpired | TenantMismatch | DeviceMismatch | ScopeMismatch | NoTenant
    | RightInvalid | OwnerMismatch | InvalidKey | KeyConflict | QuotaExceeded | ReplayDetected | DuplicateRequest
    | RightNotFound | RevokeFailed | Unavailable

  datatype Reply =
    | Refused(error: Error)
    | Answered(response: Response)
    | Repeated(response: Response)
    | FromCache(response: Response, token: TokenId)
    | Revocation(valid: bool, version: nat)

  /** An authenticated request: the claims of its token, and whether its tenant had quota left when it was read. */
  datatype Call = Call(id: nat, api: Api, claims: Claims, quotaLeft: bool)

  datatype Session =
    | Idle
    | Authenticated(call: Call)
    | Owning(call: Call, right: Right)
    | Unlogged(call: Call, right: Right)
    | Marked(call: Call, right: Right)
    | Uncached(call: Call, right: Right)
    | Judged(call: Call, right: Right, row: RequestLog, response: Response)
    | Reserved(call: Call, right: Right, row: RequestLog, response: Response, usageCount: int)
    | Stored(call: Call, right: Right, row: RequestLog, response: Response)
    | Losing(call: Call)
    | Revoking(key: RightKey, right: Right)
    | Done(reply: Reply)

  /** What a decision goes by: history, evaluation time, the policies' verdict, the workflow row and the stamp. */
  datatype Basis = Basis(history: seq<RequestLog>, riskNow: Time, policy: PolicyDecision,
                         workflow: Option<Store.Row<WorkflowConfig>>, stamp: Time)

  /** A successful replay mark, remembered for reference. */
  datatype MarkRecord = MarkRecord(callId: nat, token: TokenId, exp: int, at: Time)

  /** The tables; `origins` remembers the owners that rights were created with. */
  datatype Database = Database(
    tenants: map<string, Tenant>,
    devices: map<DeviceKey, bool>,
    rights: map<RightKey, Right>,
    origins: map<RightKey, string>,
    logs: seq<Entry>,
    outbox: seq<Event>)

  /** Issued tokens, the replay store, the decision cache and the clock. */
  datatype Guards = Guards(
    tokens: map<string, Claims>,
    seen: Seen,
    marks: seq<MarkRecord>,
    cache: map<CacheKey, Cached>,
    clock: Time)

  datatype State = State(db: Database, guards: Guards, sessions: map<Worker, Session>, nextCall: nat)

  datatype Step =
    | CreateTenant(tenantId: string, monthlyQuota: int)
    | SetDevice(device: DeviceKey, enabled: bool)
    | CreateRight(key: RightKey, ownerId: string, valid: bool)
    | IssueToken(jti: string, claims: Claims)
    | Authenticate(worker: Worker, api: Api, now: Time)
    | ReadRight(worker: Worker)
    | Lookup(worker: Worker)
    | MarkToken(worker: Worker, now: Time)
    | ConsultCache(worker: Worker, now: Time)
    | DecideRequest(worker: Worker, basis: Basis)
    | Reserve(worker: Worker)
    | Commit(worker: Worker)
    | Remember(worker: Worker, now: Time, lifetime: Time)
    | FindWinner(worker: Worker)
    | ReadForRevoke(worker: Worker, key: RightKey)
    | CommitRevoke(worker: Worker)
    | Fail(worker: Worker)
    | Crash(worker: Worker)

  function SessionOf(s: State, w: Worker): Session {
    if w in s.sessions then s.sessions[w] else Idle
  }

  function SetSession(s: State, w: Worker, session: Session): State {
    s.(sessions := s.sessions[w := session])
  }

  function Refuse(s: State, w: Worker, error: Error): State {
    SetSession(s, w, Done(Refused(error)))
  }

  function SetClock(s: State, now: Time): State {
    s.(guards := s.guards.(clock := now))
  }

  // ----- What a request computes from what it has read

  function KeyOf(call: Call): RightKey { RightKey(call.api.tenantId, call.claims.rightId) }

  function TokenOf(call: Call): TokenId { TokenId(call.claims.tenantId, call.api.token) }

  /** The stripped Idempotency-Key header; a blank one counts as missing. */
  function ExplicitKey(api: Api): Option<string> {
    if api.keyHeader.None? || Strip(api.keyHeader.value) == "" then None else Some(Strip(api.keyHeader.value))
  }

  function FingerprintOf(digest: Digest, call: Call): string {
    var api := call.api;
    digest(Fingerprint(api.tenantId, call.claims.rightId, api.requestType, api.deviceId, api.ipHash, api.countryCode,
                       api.newOwnerId, api.token))
  }

  function IdempotencyKey(digest: Digest, call: Call): string {
    if ExplicitKey(call.api).Some? then ExplicitKey(call.api).value else FingerprintOf(digest, call)
  }

  function CacheKeyOf(call: Call, right: Right): CacheKey {
    var api := call.api;
    CacheKey(api.tenantId, api.token, api.requestType, api.deviceId, api.ipHash, api.countryCode,
             if api.newOwnerId.None? || api.newOwnerId.value == "" then "-" else api.newOwnerId.value, right.version)
  }

  function RequestOf(digest: Digest, call: Call, right: Right): Request {
    var api := call.api;
    Request(api.tenantId, call.claims.rightId, right.ownerId, call.claims.sub, api.deviceId,
            api.ipHash, api.countryCode,
            api.requestType, api.transactionAmount, api.newOwnerId, api.traceId, IdempotencyKey(digest, call),
            FingerprintOf(digest, call), api.decisionVersion)
  }

  /** The log of this tenant with this key; there is at most one. */
  function FindLog(logs: seq<Entry>, tenantId: string, key: string): (found: Option<nat>)
    ensures found.Some? ==> found.value < |logs|
    ensures found.Some? ==> logs[found.value].row.tenantId == tenantId && logs[found.value].row.idempotencyKey == key
    ensures found.None? ==> forall i :: 0 <= i < |logs| ==>
      !(logs[i].row.tenantId == tenantId && logs[i].row.idempotencyKey == key)
  {
    if logs == [] then None
    else
      var n := |logs| - 1;
      if logs[n].row.tenantId == tenantId && logs[n].row.idempotencyKey == key then Some(n)
      else FindLog(logs[..n], tenantId, key)
  }

  // ----- The steps of a request

  function AuthenticationError(s: State, api: Api, now: Time): Option<Error> {
    var device := DeviceKey(api.tenantId, api.deviceId);
    if device !in s.db.devices || !s.db.devices[device] then Some(DeviceNotFound)
    else if api.token !in s.guards.tokens then Some(InvalidToken)
    else
      var claims := s.guards.tokens[api.token];
      if claims.exp as real <= now then Some(TokenExpired)
      else if claims.tenantId != api.tenantId then Some(TenantMismatch)
      else if claims.deviceId != api.deviceId then Some(DeviceMismatch)
      else if claims.scope != api.requestType then Some(ScopeMismatch)
      else if claims.tenantId !in s.db.tenants then Some(NoTenant)
      else None
  }

  function NextAuthenticate(s: State, w: Worker, api: Api, now: Time): State {
    if !(SessionOf(s, w).Idle? || SessionOf(s, w).Done?) || now < s.guards.clock then s
    else
      var error := AuthenticationError(s, api, now);
      if error.Some? then Refuse(SetClock(s, now), w, error.value)
      else
        var claims := s.guards.tokens[api.token];
        var tenant := s.db.tenants[claims.tenantId];
        SetSession(SetClock(s, now).(nextCall := s.nextCall + 1), w,
                   Authenticated(Call(s.nextCall, api, claims, tenant.usageCount < tenant.monthlyQuota)))
  }

  function NextReadRight(s: State, w: Worker): State
    requires SessionOf(s, w).Authenticated?
  {
    var call := SessionOf(s, w).call;
    var key := KeyOf(call);
    if key !in s.db.rights || !s.db.rights[key].valid then Refuse(s, w, RightInvalid)
    else if s.db.rights[key].ownerId != call.claims.sub then Refuse(s, w, OwnerMismatch)
    else SetSession(s, w, Owning(call, s.db.rights[key]))
  }

  function NextLookup(digest: Digest, s: State, w: Worker): State
    requires SessionOf(s, w).Owning?
  {
    var call := SessionOf(s, w).call;
    var explicit := ExplicitKey(call.api);
    if explicit.Some? && |explicit.value| > 128 then Refuse(s, w, InvalidKey)
    else
      var found := FindLog(s.db.logs, call.api.tenantId, IdempotencyKey(digest, call));
      if found.None? || explicit.None? then SetSession(s, w, Unlogged(call, SessionOf(s, w).right))
      else if s.db.logs[found.value].row.requestFingerprint != FingerprintOf(digest, call)
      then Refuse(s, w, KeyConflict)
      else SetSession(s, w, Done(Repeated(BuildIdempotentResponse(s.db.logs[found.value].row))))
  }

  function NextMark(s: State, w: Worker, now: Time): State
    requires SessionOf(s, w).Unlogged?
  {
    var call := SessionOf(s, w).call;
    if !call.quotaLeft then Refuse(s, w, QuotaExceeded)
    else if now < s.guards.clock then s
    else
      var ttl := TimeToLive(call.claims.exp, now);
      var m := Mark(s.guards.seen, TokenOf(call), ttl, now);
      if !m.first then Refuse(s.(guards := s.guards.(seen := m.seen, clock := now)), w, ReplayDetected)
      else
        var record := MarkRecord(call.id, TokenOf(call), call.claims.exp, now);
        SetSession(s.(guards := s.guards.(seen := m.seen, clock := now, marks := s.guards.marks + [record])),
                   w, Marked(call, SessionOf(s, w).right))
  }

  function NextConsult(s: State, w: Worker, now: Time): State
    requires SessionOf(s, w).Marked?
  {
    var me := SessionOf(s, w);
    var key := CacheKeyOf(me.call, me.right);
    if me.call.api.requestType == ACCESS && key in s.guards.cache && now <= s.guards.cache[key].expires then
      SetSession(s, w, Done(FromCache(s.guards.cache[key].response, TokenOf(me.call))))
    else if me.call.api.requestType == ACCESS then
      SetSession(s.(guards := s.guards.(cache := s.guards.cache - {key})), w, Uncached(me.call, me.right))
    else SetSession(s, w, Uncached(me.call, me.right))
  }

  /** The decision on some basis. */
  function Judge(digest: Digest, call: Call, right: Right, basis: Basis): Session {
    var r := RequestOf(digest, call, right);
    var risk := Risk(RiskQueryOf(r), basis.history, basis.riskNow);
    Judged(call, right, LogOf(0, r, risk, basis.policy, basis.workflow, basis.stamp),
           BuildResponse(r, risk, basis.policy, basis.workflow))
  }

  function NextDecide(digest: Digest, s: State, w: Worker, basis: Basis): State
    requires SessionOf(s, w).Uncached?
  {
    SetSession(s, w, Judge(digest, SessionOf(s, w).call, SessionOf(s, w).right, basis))
  }

  /** Another transaction holds the tenant's row. */
  predicate TenantLocked(s: State, w: Worker, tenantId: string) {
    exists v :: v in s.sessions && v != w && s.sessions[v].Reserved? && s.sessions[v].call.api.tenantId == tenantId
  }

  function NextReserve(s: State, w: Worker): State
    requires SessionOf(s, w).Judged?
  {
    var me := SessionOf(s, w);
    var t := me.call.api.tenantId;
    if TenantLocked(s, w, t) then s
    else if t in s.db.tenants && s.db.tenants[t].usageCount < s.db.tenants[t].monthlyQuota then
      SetSession(s, w, Reserved(me.call, me.right, me.row, me.response, s.db.tenants[t].usageCount + 1))
    else Refuse(s, w, QuotaExceeded)
  }

  /** The conditional UPDATE of the right that an allowed request makes. */
  function WriteRight(current: Right, read: Right, row: RequestLog): Right {
    var used := current.(lastUsedAt := Some(row.createdAt));
    if row.requestType == TRANSFER && row.newOwnerId.Some? then
      used.(ownerId := row.newOwnerId.value, ownerChangeCount := read.ownerChangeCount + 1, version := read.version + 1)
    else used
  }

  /** No log has the key yet, and the right, if it is written, is still at the version that was read. */
  predicate Commits(s: State, w: Worker) {
    var me := SessionOf(s, w);
    && me.Reserved?
    && FindLog(s.db.logs, me.call.api.tenantId, me.row.idempotencyKey).None?
    && (me.row.allowed ==> KeyOf(me.call) in s.db.rights && s.db.rights[KeyOf(me.call)].version == me.right.version)
  }

  function EventsOf(row: RequestLog, usageCount: int): seq<Event> {
    [Event(row.tenantId, DecisionMade(row.traceId, row.rightId, row.riskScore, row.allowed)),
     Event(row.tenantId, UsageIncremented(usageCount))]
  }

  /** Every write of a request: counter, right, log and events. */
  function Written(db: Database, me: Session): Database
    requires me.Reserved? && (me.row.allowed ==> KeyOf(me.call) in db.rights)
  {
    var t, key := me.call.api.tenantId, KeyOf(me.call);
    db.(
      tenants := if t in db.tenants then db.tenants[t := db.tenants[t].(usageCount := me.usageCount)] else db.tenants,
      rights := if me.row.allowed then db.rights[key := WriteRight(db.rights[key], me.right, me.row)] else db.rights,
      logs := db.logs + [Entry(me.row.(id := |db.logs|), me.call.api.token, me.call.id, me.response)],
      outbox := db.outbox + EventsOf(me.row, me.usageCount))
  }

  function NextCommit(s: State, w: Worker): State
    requires SessionOf(s, w).Reserved?
  {
    var me := SessionOf(s, w);
    if Commits(s, w) then SetSession(s.(db := Written(s.db, me)), w, Stored(me.call, me.right, me.row, me.response))
    else if ExplicitKey(me.call.api).Some? then SetSession(s, w, Losing(me.call))
    else Refuse(s, w, DuplicateRequest)
  }

  function NextRemember(s: State, w: Worker, now: Time, lifetime: Time): State
    requires SessionOf(s, w).Stored?
  {
    var me := SessionOf(s, w);
    var cache := if me.call.api.requestType == ACCESS && me.row.allowed
                 then s.guards.cache[CacheKeyOf(me.call, me.right) := Cached(now + lifetime, me.response)]
                 else s.guards.cache;
    SetSession(s.(guards := s.guards.(cache := cache)), w, Done(Answered(me.response)))
  }

  /** After a failed commit under an explicit key: the log that won, if it is one. */
  function NextFindWinner(digest: Digest, s: State, w: Worker): State
    requires SessionOf(s, w).Losing?
  {
    var call := SessionOf(s, w).call;
    var found := FindLog(s.db.logs, call.api.tenantId, IdempotencyKey(digest, call));
    if found.None? then Refuse(s, w, DuplicateRequest)
    else if s.db.logs[found.value].row.requestFingerprint != FingerprintOf(digest, call) then Refuse(s, w, KeyConflict)
    else SetSession(s, w, Done(Repeated(BuildIdempotentResponse(s.db.logs[found.value].row))))
  }

  // ----- Revocation and the rest

  function NextReadForRevoke(s: State, w: Worker, key: RightKey): State {
    if !(SessionOf(s, w).Idle? || SessionOf(s, w).Done?) then s
    else if key !in s.db.rights then Refuse(s, w, RightNotFound)
    else if !s.db.rights[key].valid then SetSession(s, w, Done(Revocation(false, s.db.rights[key].version)))
    else SetSession(s, w, Revoking(key, s.db.rights[key]))
  }

  predicate Revokes(s: State, w: Worker) {
    var me := SessionOf(s, w);
    me.Revoking? && me.key in s.db.rights && s.db.rights[me.key].version == me.right.version
  }

  function NextCommitRevoke(s: State, w: Worker): State
    requires SessionOf(s, w).Revoking?
  {
    var me := SessionOf(s, w);
    if Revokes(s, w) then
      var version := me.right.version + 1;
      var db := s.db.(
        rights := s.db.rights[me.key := s.db.rights[me.key].(valid := false, version := version)],
        outbox := s.db.outbox + [Event(me.key.tenantId, RightRevoked(me.key.rightId, me.right.ownerId, version))]);
      SetSession(s.(db := db), w, Done(Revocation(false, version)))
    else Refuse(s, w, RevokeFailed)
  }

  /** The owner of a valid right may have a token for an enabled device. */
  predicate MayIssue(s: State, jti: string, claims: Claims) {
    var key, device := RightKey(claims.tenantId, claims.rightId), DeviceKey(claims.tenantId, claims.deviceId);
    && jti !in s.guards.tokens
    && device in s.db.devices && s.db.devices[device]
    && key in s.db.rights && s.db.rights[key].valid && s.db.rights[key].ownerId == claims.sub
  }

  /** One step of the system; a step that cannot be taken, or waits for a lock, changes nothing. */
  function Next(digest: Digest, s: State, step: Step): State {
    match step
    case CreateTenant(t, quota) =>
      if t in s.db.tenants || quota < 1 then s else s.(db := s.db.(tenants := s.db.tenants[t := Tenant(0, quota)]))
    case SetDevice(device, enabled) => s.(db := s.db.(devices := s.db.devices[device := enabled]))
    case CreateRight(key, owner, valid) =>
      if key.tenantId !in s.db.tenants || key in s.db.rights then s
      else
        s.(db := s.db.(rights := s.db.rights[key := Right(owner, valid, 0, 1, None)],
                       origins := s.db.origins[key := owner]))
    case IssueToken(jti, claims) =>
      if MayIssue(s, jti, claims) then s.(guards := s.guards.(tokens := s.guards.tokens[jti := claims])) else s
    case Authenticate(w, api, now) => NextAuthenticate(s, w, api, now)
    case ReadRight(w) => if SessionOf(s, w).Authenticated? then NextReadRight(s, w) else s
    case Lookup(w) => if SessionOf(s, w).Owning? then NextLookup(digest, s, w) else s
    case MarkToken(w, now) => if SessionOf(s, w).Unlogged? then NextMark(s, w, now) else s
    case ConsultCache(w, now) => if SessionOf(s, w).Marked? then NextConsult(s, w, now) else s
    case DecideRequest(w, basis) => if SessionOf(s, w).Uncached? then NextDecide(digest, s, w, basis) else s
    case Reserve(w) => if SessionOf(s, w).Judged? then NextReserve(s, w) else s
    case Commit(w) => if SessionOf(s, w).Reserved? then NextCommit(s, w) else s
    case Remember(w, now, lifetime) => if SessionOf(s, w).Stored? then NextRemember(s, w, now, lifetime) else s
    case FindWinner(w) => if SessionOf(s, w).Losing? then NextFindWinner(digest, s, w) else s
    case ReadForRevoke(w, key) => NextReadForRevoke(s, w, key)
    case CommitRevoke(w) => if SessionOf(s, w).Revoking? then NextCommitRevoke(s, w) else s
    case Fail(w) => if SessionOf(s, w).Idle? || SessionOf(s, w).Done? then s else Refuse(s, w, Unavailable)
    case Crash(w) => SetSession(s, w, Idle)
  }

  lemma DecidingStep(digest: Digest, s: State, step: Step)
    requires step.DecideRequest? && SessionOf(s, step.worker).Uncached?
    ensures Next(digest, s, step) == NextDecide(digest, s, step.worker, step.basis)
  {
  }

  const INITIAL := State(Database(map[], map[], map[], map[], [], []), Guards(map[], map[], [], map[], 0.0), map[], 0)

  /** A run from the empty database. */
  function Run(digest: Digest, run: seq<Step>): State {
    if run == [] then INITIAL else Next(digest, Run(digest, run[..|run| - 1]), run[|run| - 1])
  }

  /** The run leads to this state. (The quantifier keeps proofs from unfolding runs where they need not.) */
  ghost predicate Reaches(digest: Digest, run: seq<Step>, s: State) {
    forall r :: r == run ==> Run(digest, r) == s
  }

  lemma ReachesNext(digest: Digest, run: seq<Step>, s: State, step: Step)
    requires Reaches(digest, run, s)
    ensures Reaches(digest, run + [step], Next(digest, s, step))
  {
    assert (run + [step])[..|run + [step]| - 1] == run;
    assert Run(digest, run) == s;
  }
}
