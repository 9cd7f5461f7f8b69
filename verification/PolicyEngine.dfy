/** app/policy_engine.py: ordered first-match policy selection. */
module PolicyEngine {
  import opened Prelude
  import opened Sorting
  import opened Text

  datatype Policy = Policy(
    name: string,
    effect: string,
    policyId: Option<int>,
    priority: int,
    version: int,
    requestTypes: seq<string>,
    countries: seq<string>,
    deviceIds: seq<string>,
    maxRiskScore: Option<int>,
    minTrustScore: Option<int>,
    maxTransactionAmount: Option<real>,
    allowedStartHour: Option<int>,
    allowedEndHour: Option<int>,
    validFrom: Option<Time>,
    expiresAt: Option<Time>)

  /** The keyword arguments of `evaluate`, with the context dictionary's three keys spread out. */
  datatype Query = Query(
    requestType: string,
    deviceId: string,
    countryCode: string,
    riskScore: int,
    trustScore: Option<int>,
    now: Option<Time>,
    hour: Option<int>,
    transactionAmount: Option<real>)

  datatype PolicyDecision = PolicyDecision(
    matched: bool,
    allow: Option<bool>,
    reason: string,
    policyName: Option<string>,
    policyVersion: Option<int>,
    policyId: Option<int>)

  /** `evaluate` either decides or raises TypeError on comparing None with an expiry. */
  datatype Evaluation = Decided(decision: PolicyDecision) | TypeError

  const NO_MATCH := PolicyDecision(false, None, "no_policy_match", None, None, None)

  function LowerChar(c: char): char {
    if 'A' <= c <= 'Z' then c - 'A' + 'a' else c
  }

  /** `str.lower` on ASCII text. */
  function Lower(s: string): string {
    seq(|s|, i requires 0 <= i < |s| => LowerChar(s[i]))
  }

  function TrustOf(riskScore: int): (t: int)
    ensures 0 <= t <= 100
  {
    Max(0, Min(100, 100 - riskScore))
  }

  predicate HourAllowed(start: Option<int>, end: Option<int>, hour: int) {
    if start.Some? && end.Some? then
      if start.value < end.value then start.value <= hour < end.value
      else if start.value > end.value then hour >= start.value || hour < end.value
      else true
    else if start.Some? then hour >= start.value
    else if end.Some? then hour < end.value
    else true
  }

  predicate Matches(p: Policy, q: Query, trustScore: int) {
    && (p.requestTypes == [] || q.requestType in p.requestTypes)
    && (p.deviceIds == [] || q.deviceId in p.deviceIds)
    && (p.countries == [] || q.countryCode in p.countries)
    && (p.maxRiskScore.Some? ==> q.riskScore <= p.maxRiskScore.value)
    && (p.minTrustScore.Some? ==> trustScore >= p.minTrustScore.value)
    && (p.maxTransactionAmount.Some? ==>
          q.transactionAmount.Some? && q.transactionAmount.value <= p.maxTransactionAmount.value)
    && (p.allowedStartHour.Some? || p.allowedEndHour.Some? ==>
          q.hour.Some? && HourAllowed(p.allowedStartHour, p.allowedEndHour, q.hour.value))
  }

  function DecisionOf(p: Policy): PolicyDecision {
    var deny := Lower(p.effect) == "deny";
    PolicyDecision(true, Some(!deny), (if deny then "policy_deny:" else "policy_allow:") + p.name,
                   Some(p.name), Some(p.version), p.policyId)
  }

  predicate Effective(p: Policy) {
    Lower(p.effect) == "deny" || Lower(p.effect) == "allow"
  }

  function Trust(q: Query): int {
    if q.trustScore.Some? then q.trustScore.value else TrustOf(q.riskScore)
  }

  /** The loop over the sorted policies. */
  function FirstMatch(policies: seq<Policy>, q: Query): Evaluation {
    if policies == [] then Decided(NO_MATCH)
    else
      var p, rest := policies[0], policies[1..];
      if q.now.Some? && p.validFrom.Some? && q.now.value < p.validFrom.value then FirstMatch(rest, q)
      else if p.expiresAt.Some? && q.now.None? then TypeError
      else if p.expiresAt.Some? && q.now.value > p.expiresAt.value then FirstMatch(rest, q)
      else if !Matches(p, q, Trust(q)) then FirstMatch(rest, q)
      else if Effective(p) then Decided(DecisionOf(p))
      else FirstMatch(rest, q)
  }

  // ----- The sort key

  function Rank(p: Policy): int { if Lower(p.effect) == "deny" then 0 else 1 }

  function IdOrZero(p: Policy): int { if p.policyId.Some? then p.policyId.value else 0 }

  predicate TieLeq(p: Policy, q: Policy) {
    IdOrZero(p) < IdOrZero(q) || (IdOrZero(p) == IdOrZero(q) && p.version <= q.version)
  }

  predicate PolicyLeq(p: Policy, q: Policy) {
    || p.priority < q.priority
    || (p.priority == q.priority
        && (|| Rank(p) < Rank(q)
            || (Rank(p) == Rank(q)
                && (if p.name == q.name then TieLeq(p, q) else StringLeq(p.name, q.name)))))
  }

  lemma PolicyLeqTransitive(p: Policy, q: Policy, r: Policy)
    requires PolicyLeq(p, q) && PolicyLeq(q, r)
    ensures PolicyLeq(p, r)
  {
    if p.priority == q.priority == r.priority && Rank(p) == Rank(q) == Rank(r) {
      if p.name != q.name && q.name != r.name {
        StringLeqTransitive(p.name, q.name, r.name);
        StringOrder(p.name, q.name);
      }
    }
  }

  lemma PolicyOrder()
    ensures Total(PolicyLeq)
  {
    forall p, q ensures PolicyLeq(p, q) || PolicyLeq(q, p) {
      StringOrder(p.name, q.name);
    }
    forall p, q, r | PolicyLeq(p, q) && PolicyLeq(q, r) ensures PolicyLeq(p, r) {
      PolicyLeqTransitive(p, q, r);
    }
  }

  /** `PolicyEngine(policies).evaluate(...)` */
  function Evaluate(policies: seq<Policy>, q: Query): Evaluation {
    FirstMatch(Sort(PolicyLeq, policies), q)
  }
}
