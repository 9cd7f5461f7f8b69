/** The answer to a decided request, and the answer rebuilt from its log row for a retry (app/main.py). */
module DecisionResponses {
  import opened Prelude
  import opened CommaLists
  import Sorting
  import opened AuditLog
  import opened RiskEngine
  import opened PolicyEngine
  import opened WorkflowEngine
  import opened AuditReplay
  import opened ReplayTheorem
  import Store = VersionedStore

  /** Every field of the response, the two nested `reason`s of the explanation excepted. */
  datatype Response = Response(
    allow: bool,
    reason: string,
    riskScore: int,
    trustScore: int,
    riskSignals: seq<string>,
    totalContribution: int,
    contributors: seq<(string, int)>,
    traceId: string,
    decisionVersion: string,
    workflowVersion: int,
    idempotencyKey: string,
    policyMatched: bool,
    policyName: Option<string>,
    policyVersion: Option<int>,
    decisionSource: Source,
    decisionPath: seq<PathStep>)

  /** `RISK_SIGNAL_SCORES.get(signal, 0)` */
  function ScoreOf(name: string): int {
    if name == Name(FailureBurst) then Score(FailureBurst)
    else if name == Name(NewDevice) then Score(NewDevice)
    else if name == Name(NewIp) then Score(NewIp)
    else if name == Name(GeoChange) then Score(GeoChange)
    else if name == Name(TransferVelocity) then Score(TransferVelocity)
    else if name == Name(SensitiveAction) then Score(SensitiveAction)
    else 0
  }

  function Contributors(names: seq<string>): (r: seq<(string, int)>)
    ensures |r| == |names| && forall i :: 0 <= i < |r| ==> r[i] == (names[i], ScoreOf(names[i]))
  {
    seq(|names|, i requires 0 <= i < |names| => (names[i], ScoreOf(names[i])))
  }

  function Total(names: seq<string>): int {
    if names == [] then 0 else Total(names[..|names| - 1]) + ScoreOf(names[|names| - 1])
  }

  function OrOne(version: Option<int>): int {
    if version.Some? then version.value else 1
  }

  /** `build_idempotent_decision_response` */
  function BuildIdempotentResponse(log: RequestLog): Response {
    var signals := Signals(log.riskSignals);
    Response(log.allowed, log.reason, log.riskScore, Max(0, Min(100, 100 - log.riskScore)), signals, Total(signals),
             Contributors(signals), log.traceId, log.decisionVersion, OrOne(log.workflowVersion), log.idempotencyKey,
             log.policyMatched, log.policyName, log.policyVersion, log.decisionSource, log.decisionPath)
  }

  /** The response at the end of `request_access`, from what the engines said. */
  function BuildResponse(r: Request, risk: RiskDecision, policy: PolicyDecision,
                         workflow: Option<Store.Row<WorkflowConfig>>): Response {
    var verdict := OwnershipVerdict(r);
    var allowed := verdict.None? && ResolveAllowed(risk.allow, policy.matched, policy.allow);
    var decision := Decision(ConfigIn(workflow), risk.allow, policy.matched, allowed);
    Response(allowed, if verdict.Some? then verdict.value else ReasonFor(risk, policy),
             risk.riskScore, risk.trustScore, Names(risk.signals), TotalScore(risk.signals),
             Contributors(Names(risk.signals)), r.traceId, r.decisionVersion,
             if workflow.Some? then workflow.value.version else 1, r.idempotencyKey,
             policy.matched, policy.policyName, policy.policyVersion,
             decision.decisionSource, decision.decisionPath)
  }

  /** What a signal adds to the score, by its name. */
  function Worth(name: string): int {
    if name == "failure_burst" then 35 else if name == "transfer_velocity" then 30
    else if name == "new_device" || name == "geo_change" then 15
    else if name == "new_ip" || name == "sensitive_action" then 10
    else 0
  }

  lemma WorthIsScore(name: string)
    ensures ScoreOf(name) == Worth(name)
  {
  }

  lemma ScoreOfName(signal: Signal)
    ensures ScoreOf(Name(signal)) == Score(signal)
  {
  }

  lemma {:induction false} TotalOfNames(signals: seq<Signal>)
    ensures Total(Names(signals)) == TotalScore(signals)
  {
    if signals != [] {
      var front := signals[..|signals| - 1];
      assert Names(signals)[..|signals| - 1] == Names(front);
      TotalOfNames(front);
      ScoreOfName(signals[|signals| - 1]);
    }
  }

  /** What every decision of the risk engine satisfies. */
  ghost predicate ScoresAddUp(risk: RiskDecision) {
    risk.riskScore == TotalScore(risk.signals) && risk.trustScore == Max(0, Min(100, 100 - risk.riskScore))
  }

  lemma VerdictAddsUp(signals: seq<Signal>)
    ensures ScoresAddUp(RiskEngine.DecisionOf(signals))
  {
    var score := TotalScore(signals);
    assert Verdict(score, signals).signals == signals;
  }

  lemma RiskScoresAddUp(q: RiskQuery, history: seq<RequestLog>, now: Time)
    ensures ScoresAddUp(Risk(q, history, now))
  {
    VerdictAddsUp(SignalsOf(q, Sorting.Sort(LogLeq, history), now));
  }

  /** The answer rebuilt from a log row, field by field. */
  lemma ResponseTellsLog(log: RequestLog)
    ensures
      var r := BuildIdempotentResponse(log);
      && r.allow == log.allowed && r.reason == log.reason && r.riskScore == log.riskScore
      && r.trustScore == (if log.riskScore < 0 then 100 else if log.riskScore > 100 then 0 else 100 - log.riskScore)
      && r.riskSignals == Signals(log.riskSignals) && |r.contributors| == |r.riskSignals|
      && (forall i :: 0 <= i < |r.contributors| ==> r.contributors[i] == (r.riskSignals[i], Worth(r.riskSignals[i])))
      && r.traceId == log.traceId && r.decisionVersion == log.decisionVersion
      && (log.workflowVersion.Some? ==> r.workflowVersion == log.workflowVersion.value)
      && (log.workflowVersion.None? ==> r.workflowVersion == 1)
      && r.idempotencyKey == log.idempotencyKey && r.policyMatched == log.policyMatched
      && r.policyName == log.policyName && r.policyVersion == log.policyVersion
      && r.decisionSource == log.decisionSource && r.decisionPath == log.decisionPath
  {
    var r := BuildIdempotentResponse(log);
    forall i | 0 <= i < |r.contributors| ensures r.contributors[i] == (r.riskSignals[i], Worth(r.riskSignals[i])) {
      WorthIsScore(r.riskSignals[i]);
    }
  }

  /** The answer rebuilt from the log row is the answer given first. */
  lemma RetryAnswersTheSame(id: nat, r: Request, risk: RiskDecision, policy: PolicyDecision,
                            workflow: Option<Store.Row<WorkflowConfig>>, now: Time)
    requires ScoresAddUp(risk)
    ensures BuildIdempotentResponse(LogOf(id, r, risk, policy, workflow, now))
      == BuildResponse(r, risk, policy, workflow)
  {
    var log := LogOf(id, r, risk, policy, workflow, now);
    assert Signals(log.riskSignals) == Names(risk.signals) by { NamesAreListable(risk.signals); }
    assert Total(Names(risk.signals)) == risk.riskScore by { TotalOfNames(risk.signals); }
  }
}
