/** app/workflow_engine.py: how risk and policy combine, and the path reported for it. */
module WorkflowEngine {
  import opened Prelude

  datatype WorkflowConfig = WorkflowConfig(includeRiskStep: bool, includePolicyStep: bool, executionMode: string)

  const DEFAULT_CONFIG := WorkflowConfig(true, true, "risk_first")

  /** The words of a decision path; they are stored and compared as a JSON list. */
  datatype PathStep = RiskEvaluated | PolicyChecked | PolicyMatched | NoPolicyMatch | FinalAllow | FinalDeny

  datatype Source = FromRisk | FromPolicy

  datatype WorkflowDecision = WorkflowDecision(decisionSource: Source, decisionPath: seq<PathStep>)

  /** A request passes unless risk denies it or a matching policy says no. */
  function ResolveAllowed(riskAllowed: bool, policyMatched: bool, policyAllowed: Option<bool>): (allowed: bool)
    ensures allowed <==> riskAllowed && !(policyMatched && policyAllowed == Some(false))
  {
    if !riskAllowed then false
    else if policyMatched && policyAllowed == Some(false) then false
    else true
  }

  function RiskPart(config: WorkflowConfig): seq<PathStep> {
    if config.includeRiskStep then [RiskEvaluated] else []
  }

  function PolicyPart(config: WorkflowConfig, policyMatched: bool): seq<PathStep> {
    if config.includePolicyStep then [PolicyChecked, if policyMatched then PolicyMatched else NoPolicyMatch] else []
  }

  function Decision(config: WorkflowConfig, riskAllowed: bool, policyMatched: bool,
                    finalAllowed: bool): WorkflowDecision {
    var steps :=
      if config.executionMode == "policy_first" then PolicyPart(config, policyMatched) + RiskPart(config)
      else RiskPart(config) + PolicyPart(config, policyMatched);
    WorkflowDecision(if riskAllowed && policyMatched then FromPolicy else FromRisk,
                     steps + [if finalAllowed then FinalAllow else FinalDeny])
  }

  /** `WorkflowEngine.evaluate`: steps are appended to a path. */
  method Evaluate(config: WorkflowConfig, riskAllowed: bool, policyMatched: bool, finalAllowed: bool)
    returns (decision: WorkflowDecision)
    ensures decision == Decision(config, riskAllowed, policyMatched, finalAllowed)
  {
    var decisionSource: Source;
    if !riskAllowed {
      decisionSource := FromRisk;
    } else if policyMatched {
      decisionSource := FromPolicy;
    } else {
      decisionSource := FromRisk;
    }
    var matchStep := if policyMatched then PolicyMatched else NoPolicyMatch;
    var path: seq<PathStep> := [];
    var policyFirst := config.executionMode == "policy_first";
    if policyFirst {
      if config.includePolicyStep {
        path := path + [PolicyChecked];
        path := path + [matchStep];
      }
      if config.includeRiskStep {
        path := path + [RiskEvaluated];
      }
    } else {
      if config.includeRiskStep {
        path := path + [RiskEvaluated];
      }
      if config.includePolicyStep {
        path := path + [PolicyChecked];
        path := path + [matchStep];
      }
    }
    assert path == if policyFirst then PolicyPart(config, policyMatched) + RiskPart(config)
                   else RiskPart(config) + PolicyPart(config, policyMatched);
    path := path + [if finalAllowed then FinalAllow else FinalDeny];
    decision := WorkflowDecision(decisionSource, path);
  }

  /** Whether a path was made with the risk step, and where the policy steps begin. */
  lemma PathParts(config: WorkflowConfig, r: bool, m: bool, a: bool)
    ensures
      var path := Decision(config, r, m, a).decisionPath;
      && |path| >= 1 && path[|path| - 1] == (if a then FinalAllow else FinalDeny)
      && (RiskEvaluated in path <==> config.includeRiskStep)
      && (PolicyChecked in path <==> config.includePolicyStep)
      && (PolicyMatched in path <==> config.includePolicyStep && m)
      && (config.includeRiskStep && config.includePolicyStep ==>
            (path[0] == PolicyChecked <==> config.executionMode == "policy_first"))
  {
  }

  /**
    The reported path alone tells, whatever the configurations were, which steps they had and in which
    order, whether a policy matched, if that was looked at, and the outcome.
   */
  lemma PathTellsOutcome(config: WorkflowConfig, r: bool, m: bool, a: bool, config': WorkflowConfig, r': bool, m': bool,
                         b: bool)
    requires Decision(config, r, m, a).decisionPath == Decision(config', r', m', b).decisionPath
    ensures a == b
    ensures config.includeRiskStep == config'.includeRiskStep && config.includePolicyStep == config'.includePolicyStep
    ensures config.includePolicyStep ==> m == m'
    ensures config.includePolicyStep && config.includeRiskStep ==>
      (config.executionMode == "policy_first" <==> config'.executionMode == "policy_first")
  {
    PathParts(config, r, m, a);
    PathParts(config', r', m', b);
  }

  /** Which steps are reported, in which order and with which words, and who is named as the source. */
  lemma DecisionMeans(config: WorkflowConfig, r: bool, m: bool, a: bool)
    ensures
      var d := Decision(config, r, m, a);
      var policyFirst := config.executionMode == "policy_first";
      var riskAt := if policyFirst && config.includePolicyStep then 2 else 0;
      var policyAt := if !policyFirst && config.includeRiskStep then 1 else 0;
      && (d.decisionSource == FromPolicy <==> r && m) && (d.decisionSource == FromRisk <==> !(r && m))
      && |d.decisionPath|
         == (if config.includeRiskStep then 1 else 0) + (if config.includePolicyStep then 2 else 0) + 1
      && (config.includeRiskStep ==> d.decisionPath[riskAt] == RiskEvaluated)
      && (config.includePolicyStep ==>
            && d.decisionPath[policyAt] == PolicyChecked
            && d.decisionPath[policyAt + 1] == if m then PolicyMatched else NoPolicyMatch)
      && d.decisionPath[|d.decisionPath| - 1] == if a then FinalAllow else FinalDeny
  {
  }
}
