/**
  Decisions, their log, and the recomputation of a past decision from history
  (app/main.py: the decision part of `request_access`, and `replay_audit_log`).

  A request is a series of steps of one worker: it loads the risk history up to a first clock reading, is
  evaluated by risk and policies, each with clock readings of its own, reads the workflow configuration and
  commits its log, stamped by a last reading. Other requests, and transactions that change policies and
  workflow configurations, take their steps in between; the clock readings of different requests are in no
  particular order.
 */
module AuditReplay {
  import opened Prelude
  import opened CommaLists
  import opened AuditLog
  import opened RiskEngine
  import opened RiskHistory
  import opened PolicyEngine
  import opened PolicySelection
  import opened WorkflowEngine
  import opened PolicyStore
  import Store = VersionedStore

  type Worker = nat

  /** An authenticated request, with the owner its right has when it is decided. */
  datatype Request = Request(
    tenantId: string,
    rightId: string,
    ownerId: string,
    userId: string,
    deviceId: string,
    ipHash: string,
    countryCode: string,
    requestType: string,
    transactionAmount: Option<real>,
    newOwnerId: Option<string>,
    traceId: string,
    idempotencyKey: string,
    requestFingerprint: string,
    decisionVersion: string)

  /** The history of a request, up to `reference`; `seen` logs had been committed when it was loaded. */
  datatype Loaded = Loaded(request: Request, reference: Time, seen: nat, history: seq<RequestLog>)

  /** What risk and policies said, by which clock readings. */
  datatype Opinion = Opinion(riskNow: Time, risk: RiskDecision, policyNow: Time, hourNow: Time, policy: PolicyDecision)

  /** All that a log is made of, but its stamp. */
  datatype Findings = Findings(loaded: Loaded, opinion: Opinion, workflow: Option<Store.Row<WorkflowConfig>>)

  datatype Progress =
    | HistoryLoaded(loaded: Loaded)
    | Evaluated(loaded: Loaded, opinion: Opinion)
    | Configured(findings: Findings)

  /** The tables, and the requests under way; `made` remembers what each log was made of. */
  datatype System = System(
    tenants: set<string>,
    policies: PolicyTable,
    nextPolicyId: nat,
    workflows: WorkflowTable,
    logs: seq<RequestLog>,
    made: seq<Findings>,
    underWay: map<Worker, Progress>)

  datatype Step =
    | CreateTenant(tenant: string)
    | CreatePolicy(fields: PolicyFields)
    | ChangePolicy(policyStep: Store.Step<nat, PolicyFields>)
    | ChangeWorkflow(workflowStep: Store.Step<string, WorkflowConfig>)
    | LoadHistory(worker: Worker, request: Request, reference: Time)
    | Evaluate(worker: Worker, riskNow: Time, policyNow: Time, hourNow: Time)
    | LoadWorkflow(worker: Worker)
    | Log(worker: Worker, stamp: Time)
    | Abandon(worker: Worker)

  function HourOf(t: Time): int { (t.Floor / 3600) % 24 }

  function RiskQueryOf(r: Request): RiskQuery {
    RiskQuery(r.requestType, r.deviceId, r.ipHash, r.countryCode)
  }

  /** The context's hour is read from the clock after its time. */
  function PolicyQueryOf(r: Request, risk: RiskDecision, now: Time, hourNow: Time): Query {
    Query(r.requestType, r.deviceId, r.countryCode, risk.riskScore, Some(risk.trustScore),
          Some(now), Some(HourOf(hourNow)), r.transactionAmount)
  }

  function DecidedBy(policies: seq<Policy>, q: Query): PolicyDecision
    requires q.now.Some?
  {
    LeastApplicableDecides(policies, q);
    PolicyEngine.Evaluate(policies, q).decision
  }

  function ReasonFor(risk: RiskDecision, policy: PolicyDecision): string {
    if policy.matched && risk.allow then policy.reason else risk.reason
  }

  /** The ownership rules: a transfer names a new owner, and not the present one. */
  function OwnershipVerdict(r: Request): Option<string> {
    if r.requestType != TRANSFER then None
    else if r.newOwnerId.None? || r.newOwnerId.value == "" then Some("missing_new_owner_id")
    else if r.newOwnerId.value == r.ownerId then Some("same_owner")
    else None
  }

  function WorkflowOf(workflows: WorkflowTable, tenant: string): Option<Store.Row<WorkflowConfig>> {
    if tenant in workflows.rows then Some(workflows.rows[tenant]) else None
  }

  function ConfigIn(workflow: Option<Store.Row<WorkflowConfig>>): WorkflowConfig {
    if workflow.Some? then workflow.value.content else DEFAULT_CONFIG
  }

  /** The log row of a decision, from what the engines said and the workflow row that was read. */
  function LogOf(id: nat, r: Request, risk: RiskDecision, policy: PolicyDecision,
                 workflow: Option<Store.Row<WorkflowConfig>>, now: Time): RequestLog {
    var verdict := OwnershipVerdict(r);
    var allowed := verdict.None? && ResolveAllowed(risk.allow, policy.matched, policy.allow);
    var reason := if verdict.Some? then verdict.value else ReasonFor(risk, policy);
    var decision := Decision(ConfigIn(workflow), risk.allow, policy.matched, allowed);
    RequestLog(id, r.tenantId, r.rightId, r.deviceId, r.userId, r.ipHash, r.countryCode, r.requestType,
               r.transactionAmount, r.newOwnerId, allowed, risk.riskScore, reason, Join(Names(risk.signals)),
               policy.matched, policy.policyName, policy.policyId, policy.policyVersion,
               r.traceId, r.idempotencyKey, r.requestFingerprint, r.decisionVersion,
               if workflow.Some? then Some(workflow.value.version) else None,
               decision.decisionSource, decision.decisionPath, now)
  }

  function LogFor(id: nat, f: Findings, stamp: Time): RequestLog {
    LogOf(id, f.loaded.request, f.opinion.risk, f.opinion.policy, f.workflow, stamp)
  }

  function Load(s: System, r: Request, reference: Time): Loaded {
    Loaded(r, reference, |s.logs|, History(s.logs, r.tenantId, r.rightId, reference, false))
  }

  function Judge(s: System, loaded: Loaded, riskNow: Time, policyNow: Time, hourNow: Time): Opinion {
    var r := loaded.request;
    var risk := Risk(RiskQueryOf(r), loaded.history, riskNow);
    Opinion(riskNow, risk, policyNow, hourNow,
            DecidedBy(LoadTenantPolicies(s.policies, r.tenantId, s.nextPolicyId),
                      PolicyQueryOf(r, risk, policyNow, hourNow)))
  }

  predicate HasLoaded(s: System, w: Worker) { w in s.underWay && s.underWay[w].HistoryLoaded? }

  predicate IsEvaluated(s: System, w: Worker) { w in s.underWay && s.underWay[w].Evaluated? }

  predicate IsConfigured(s: System, w: Worker) { w in s.underWay && s.underWay[w].Configured? }

  function SetProgress(s: System, w: Worker, progress: Progress): System {
    s.(underWay := s.underWay[w := progress])
  }

  function Forget(s: System, w: Worker): System {
    s.(underWay := s.underWay - {w})
  }

  function NextEvaluate(s: System, w: Worker, riskNow: Time, policyNow: Time, hourNow: Time): System
    requires HasLoaded(s, w)
  {
    var loaded := s.underWay[w].loaded;
    if loaded.reference <= riskNow <= policyNow <= hourNow then
      SetProgress(s, w, Evaluated(loaded, Judge(s, loaded, riskNow, policyNow, hourNow)))
    else s
  }

  function NextConfigure(s: System, w: Worker): System
    requires IsEvaluated(s, w)
  {
    var loaded, opinion := s.underWay[w].loaded, s.underWay[w].opinion;
    SetProgress(s, w, Configured(Findings(loaded, opinion, WorkflowOf(s.workflows, loaded.request.tenantId))))
  }

  function NextLog(s: System, w: Worker, stamp: Time): System
    requires IsConfigured(s, w)
  {
    var f := s.underWay[w].findings;
    if f.opinion.hourNow <= stamp then
      Forget(s.(logs := s.logs + [LogFor(|s.logs|, f, stamp)], made := s.made + [f]), w)
    else s
  }

  /** One step; a worker's clock readings do not go backwards, and what cannot happen changes nothing. */
  function Next(s: System, step: Step): System {
    match step
    case CreateTenant(tenant) => s.(tenants := s.tenants + {tenant})
    case CreatePolicy(fields) =>
      if fields.tenantId !in s.tenants || NameTaken(s.policies.rows, fields.tenantId, fields.name) then s
      else s.(policies := Store.Next(s.policies, Store.Insert(s.nextPolicyId, fields)),
               nextPolicyId := s.nextPolicyId + 1)
    case ChangePolicy(p) => if p.Insert? then s else s.(policies := Store.Next(s.policies, p))
    case ChangeWorkflow(w) =>
      if w.Delete? || (w.Insert? && w.key !in s.tenants) then s else s.(workflows := Store.Next(s.workflows, w))
    case LoadHistory(w, r, reference) =>
      if r.tenantId in s.tenants then SetProgress(s, w, HistoryLoaded(Load(s, r, reference))) else s
    case Evaluate(w, riskNow, policyNow, hourNow) =>
      if HasLoaded(s, w) then NextEvaluate(s, w, riskNow, policyNow, hourNow) else s
    case LoadWorkflow(w) => if IsEvaluated(s, w) then NextConfigure(s, w) else s
    case Log(w, stamp) => if IsConfigured(s, w) then NextLog(s, w, stamp) else s
    case Abandon(w) => Forget(s, w)
  }

  const INITIAL := System({}, Store.Empty(), 0, Store.Empty(), [], [], map[])

  function Run(s: System, run: seq<Step>): System {
    if run == [] then s else Next(Run(s, run[..|run| - 1]), run[|run| - 1])
  }

  // ----- Replay

  datatype Comparison = Comparison(
    decisionMatch: bool,
    riskScoreMatch: bool,
    reasonMatch: bool,
    riskSignalsMatch: bool,
    policyMatch: bool,
    policyVersionMatch: bool,
    decisionSourceMatch: bool,
    decisionPathMatch: bool)
  {
    predicate AllMatch() {
      && decisionMatch && riskScoreMatch && reasonMatch && riskSignalsMatch
      && policyMatch && policyVersionMatch && decisionSourceMatch && decisionPathMatch
    }
  }

  datatype Replay =
    | LogNotFound
    | TenantNotFound
    | WorkflowVersionNotFound
    | PolicyReferenceIncomplete
    | PolicyVersionNotFound
    | Replayed(comparison: Comparison)

  function Compare(log: RequestLog, risk: RiskDecision, policy: PolicyDecision, config: WorkflowConfig): Comparison {
    var allowed := ResolveAllowed(risk.allow, policy.matched, policy.allow);
    var workflow := Decision(config, risk.allow, policy.matched, allowed);
    Comparison(
      allowed == log.allowed,
      risk.riskScore == log.riskScore,
      ReasonFor(risk, policy) == log.reason,
      Names(risk.signals) == Signals(log.riskSignals),
      policy.policyId == log.policyId,
      policy.policyVersion == log.policyVersion,
      workflow.decisionSource == log.decisionSource,
      workflow.decisionPath == log.decisionPath)
  }

  /** The recomputation proper, once the recorded policy and workflow versions have been found. */
  function Recompute(s: System, log: RequestLog, policy: Option<Policy>, config: WorkflowConfig): Comparison {
    var risk := Risk(RiskQuery(log.requestType, log.deviceId, log.ipHash, log.countryCode),
                     History(s.logs, log.tenantId, log.rightId, log.createdAt, true), log.createdAt);
    var q := Query(log.requestType, log.deviceId, log.countryCode, risk.riskScore, Some(risk.trustScore),
                   Some(log.createdAt), Some(HourOf(log.createdAt)), log.transactionAmount);
    Compare(log, risk, DecidedBy(if policy.Some? then [policy.value] else [], q), config)
  }

  /** A version column holds a number that may be no version at all. */
  function PolicyFor(s: System, tenant: string, id: int, version: int): Option<Policy> {
    if id >= 0 && version >= 0 then LoadPolicyVersion(s.policies, tenant, id, version) else None
  }

  function WorkflowFor(s: System, tenant: string, version: int): Option<WorkflowConfig> {
    if version >= 0 then LoadWorkflowVersion(s.workflows, tenant, version) else None
  }

  function ReplayAuditLog(s: System, id: nat): Replay {
    if id >= |s.logs| then LogNotFound
    else
      var log := s.logs[id];
      if log.tenantId !in s.tenants then TenantNotFound
      else
        var config := if log.workflowVersion.Some? then WorkflowFor(s, log.tenantId, log.workflowVersion.value)
                      else Some(DEFAULT_CONFIG);
        if config.None? then WorkflowVersionNotFound
        else if log.policyId.None? != log.policyVersion.None? then PolicyReferenceIncomplete
        else if log.policyId.None? then Replayed(Recompute(s, log, None, config.value))
        else
          var policy := PolicyFor(s, log.tenantId, log.policyId.value, log.policyVersion.value);
          if policy.None? then PolicyVersionNotFound else Replayed(Recompute(s, log, policy, config.value))
  }
}
