/** What each log says of its decision, and what each field of a replay's comparison says, in all cases. */
module ReplayFields {
  import opened Prelude
  import opened Sorting
  import opened Text
  import opened CommaLists
  import opened AuditLog
  import opened RiskEngine
  import opened RiskHistory
  import opened PolicyEngine
  import opened PolicySelection
  import opened WorkflowEngine
  import opened PolicyStore
  import Store = VersionedStore
  import opened AuditReplay
  import opened ReplaySafety
  import opened ReplayTheorem

  // ----- What an evaluation says

  /** A policies row is in force at the time and the hour of the query. */
  predicate RowInForce(f: PolicyFields, q: Query)
    requires q.now.Some?
  {
    && !(f.validFrom.Some? && q.now.value < f.validFrom.value)
    && !(f.expiresAt.Some? && f.expiresAt.value < q.now.value)
    && (f.allowedStartHour.Some? || f.allowedEndHour.Some? ==>
          q.hour.Some? && HourAllowed(f.allowedStartHour, f.allowedEndHour, q.hour.value))
  }

  /** It concerns a request like this, at this risk. */
  predicate RowConcerns(f: PolicyFields, q: Query) {
    && (Items(f.requestTypes) != [] ==> q.requestType in Items(f.requestTypes))
    && (Items(f.deviceIds) != [] ==> q.deviceId in Items(f.deviceIds))
    && (Items(f.countries) != [] ==> q.countryCode in Items(f.countries))
    && (f.maxRiskScore.Some? ==> q.riskScore <= f.maxRiskScore.value)
    && (f.minTrustScore.Some? ==> TrustIn(q) >= f.minTrustScore.value)
    && (f.maxTransactionAmount.Some? ==>
          q.transactionAmount.Some? && q.transactionAmount.value <= f.maxTransactionAmount.value)
  }

  predicate RowApplies(f: PolicyFields, q: Query)
    requires q.now.Some?
  {
    RowInForce(f, q) && RowConcerns(f, q) && (SaysDeny(f.effect) || SaysAllow(f.effect))
  }

  /** A live, enabled policy of the tenant that applies. */
  ghost predicate LiveAndApplies(s: System, tenant: string, id: nat, q: Query)
    requires q.now.Some?
  {
    && id in s.policies.rows && s.policies.rows[id].content.tenantId == tenant
    && s.policies.rows[id].content.enabled && RowApplies(s.policies.rows[id].content, q)
  }

  /** Row `a` has a smaller priority, or says deny where `b` does not, or else a smaller name. */
  ghost predicate Precedes(a: PolicyFields, b: PolicyFields) {
    || a.priority < b.priority
    || (a.priority == b.priority && SaysDeny(a.effect) && !SaysDeny(b.effect))
    || (a.priority == b.priority && SaysDeny(a.effect) == SaysDeny(b.effect) && a.name != b.name
        && (a.name <= b.name || exists i: nat :: DiffersBelow(a.name, b.name, i)))
  }

  /** The policy that decided. */
  ghost predicate DecidedByRow(d: PolicyDecision, id: nat, row: Store.Row<PolicyFields>) {
    && d.matched && d.policyId == Some(id) && d.policyVersion == Some(row.version)
    && d.policyName == Some(row.content.name) && d.allow == Some(!SaysDeny(row.content.effect))
    && d.reason == (if SaysDeny(row.content.effect) then "policy_deny:" else "policy_allow:") + row.content.name
  }

  /** The policies' verdict is that of the most urgent live policy that applies. */
  ghost predicate PoliciesSay(s: System, tenant: string, q: Query, d: PolicyDecision)
    requires q.now.Some?
  {
    if forall id :: !LiveAndApplies(s, tenant, id, q) then
      d == PolicyDecision(false, None, "no_policy_match", None, None, None)
    else
      exists id :: LiveAndApplies(s, tenant, id, q) && DecidedByRow(d, id, s.policies.rows[id])
                   && forall other :: LiveAndApplies(s, tenant, other, q) ==>
                        !Precedes(s.policies.rows[other].content, s.policies.rows[id].content)
  }

  lemma MemberMeans(xs: seq<string>, x: string)
    ensures x in xs <==> exists i :: 0 <= i < |xs| && xs[i] == x
  {
  }

  lemma RowConcernsAsPolicy(id: nat, row: Store.Row<PolicyFields>, q: Query)
    ensures RowConcerns(row.content, q) <==> Concerns(ToPolicy(id, row), q.requestType, q.deviceId, q.countryCode,
                                                      q.transactionAmount, q.riskScore, TrustIn(q))
  {
    MemberMeans(Items(row.content.requestTypes), q.requestType);
    MemberMeans(Items(row.content.deviceIds), q.deviceId);
    MemberMeans(Items(row.content.countries), q.countryCode);
  }

  lemma RowInForceAsPolicy(id: nat, row: Store.Row<PolicyFields>, q: Query)
    requires q.now.Some?
    ensures RowInForce(row.content, q) <==> InForce(ToPolicy(id, row), q.now.value, q.hour)
  {
  }

  lemma RowAppliesAsPolicy(id: nat, row: Store.Row<PolicyFields>, q: Query)
    requires q.now.Some?
    ensures RowApplies(row.content, q) <==> Applies(ToPolicy(id, row), q)
  {
    RowConcernsAsPolicy(id, row, q);
    RowInForceAsPolicy(id, row, q);
  }

  lemma PolicyComesFromRow(s: System, tenant: string, n: nat, p: Policy) returns (id: nat)
    requires p in LoadTenantPolicies(s.policies, tenant, n)
    ensures id in s.policies.rows && s.policies.rows[id].content.tenantId == tenant
    ensures s.policies.rows[id].content.enabled && p == ToPolicy(id, s.policies.rows[id])
  {
    var ids := EnabledIds(s.policies, tenant, n);
    var i :| 0 <= i < |ids| && LoadTenantPolicies(s.policies, tenant, n)[i] == p;
    id := ids[i];
    assert id in ids;
  }

  lemma RowIsLoaded(s: System, tenant: string, n: nat, id: nat)
    requires id < n && id in s.policies.rows && s.policies.rows[id].content.tenantId == tenant
    requires s.policies.rows[id].content.enabled
    ensures ToPolicy(id, s.policies.rows[id]) in LoadTenantPolicies(s.policies, tenant, n)
  {
    var ids := EnabledIds(s.policies, tenant, n);
    assert id in ids;
    var i :| 0 <= i < |ids| && ids[i] == id;
    assert LoadTenantPolicies(s.policies, tenant, n)[i] == ToPolicy(id, s.policies.rows[id]);
  }

  lemma PrecedingIsUrgent(a: nat, ra: Store.Row<PolicyFields>, b: nat, rb: Store.Row<PolicyFields>)
    requires Precedes(ra.content, rb.content)
    ensures MoreUrgent(ToPolicy(a, ra), ToPolicy(b, rb))
  {
    StringLeqMeans(ra.content.name, rb.content.name);
  }

  lemma LiveIsLoaded(s: System, tenant: string, id: nat, q: Query)
    requires TablesOk(s) && q.now.Some? && LiveAndApplies(s, tenant, id, q)
    ensures
      var p := ToPolicy(id, s.policies.rows[id]);
      p in LoadTenantPolicies(s.policies, tenant, s.nextPolicyId) && Applies(p, q)
  {
    RowIsLoaded(s, tenant, s.nextPolicyId, id);
    RowAppliesAsPolicy(id, s.policies.rows[id], q);
  }

  lemma LoadedPoliciesSay(s: System, tenant: string, q: Query)
    requires TablesOk(s) && q.now.Some?
    ensures PoliciesSay(s, tenant, q, DecidedBy(LoadTenantPolicies(s.policies, tenant, s.nextPolicyId), q))
  {
    var policies := LoadTenantPolicies(s.policies, tenant, s.nextPolicyId);
    EvaluationMeans(policies, q);
    if forall p :: p in policies ==> !Applies(p, q) {
      forall id ensures !LiveAndApplies(s, tenant, id, q) {
        if LiveAndApplies(s, tenant, id, q) { LiveIsLoaded(s, tenant, id, q); }
      }
    } else {
      var d := DecidedBy(policies, q);
      var w :| w in policies && Applies(w, q) && MadeBy(d, w)
               && forall p :: p in policies && Applies(p, q) ==> !MoreUrgent(p, w);
      var id := PolicyComesFromRow(s, tenant, s.nextPolicyId, w);
      RowAppliesAsPolicy(id, s.policies.rows[id], q);
      forall other | LiveAndApplies(s, tenant, other, q)
        ensures !Precedes(s.policies.rows[other].content, s.policies.rows[id].content)
      {
        LiveIsLoaded(s, tenant, other, q);
        if Precedes(s.policies.rows[other].content, s.policies.rows[id].content) {
          PrecedingIsUrgent(other, s.policies.rows[other], id, s.policies.rows[id]);
        }
      }
      assert LiveAndApplies(s, tenant, id, q) && DecidedByRow(d, id, s.policies.rows[id]);
    }
  }

  /** The context of a request for the policies. */
  function ContextOf(r: Request, risk: RiskDecision, now: Time, hour: int): Query {
    Query(r.requestType, r.deviceId, r.countryCode, risk.riskScore, Some(risk.trustScore), Some(now), Some(hour),
          r.transactionAmount)
  }

  /**
    What the engines say at an evaluation: the points of the loaded history, and the verdict of the policies that
    are live then, at the time and the hour of their own clock readings.
   */
  lemma OpinionMeans(s: System, loaded: Loaded, riskNow: Time, policyNow: Time, hourNow: Time)
    requires TablesOk(s)
    ensures
      var r, o := loaded.request, Judge(s, loaded, riskNow, policyNow, hourNow);
      var q := RiskQuery(r.requestType, r.deviceId, r.ipHash, r.countryCode);
      && (exists logs :: InOrderOf(loaded.history, logs) && DecidedOn(o.risk, q, logs, riskNow))
      && PoliciesSay(s, r.tenantId, ContextOf(r, o.risk, policyNow, (hourNow.Floor / 3600) % 24), o.policy)
  {
    var r := loaded.request;
    var risk := Risk(RiskQueryOf(r), loaded.history, riskNow);
    RiskMeans(RiskQueryOf(r), loaded.history, riskNow);
    LoadedPoliciesSay(s, r.tenantId, PolicyQueryOf(r, risk, policyNow, hourNow));
  }

  // ----- What a log says

  /** The log repeats the request. */
  predicate RequestTold(log: RequestLog, r: Request) {
    && log.tenantId == r.tenantId && log.rightId == r.rightId && log.deviceId == r.deviceId && log.userId == r.userId
    && log.ipHash == r.ipHash && log.countryCode == r.countryCode && log.requestType == r.requestType
    && log.transactionAmount == r.transactionAmount && log.newOwnerId == r.newOwnerId && log.traceId == r.traceId
    && log.idempotencyKey == r.idempotencyKey && log.requestFingerprint == r.requestFingerprint
    && log.decisionVersion == r.decisionVersion
  }

  /** What the ownership rules have against a request: a transfer to nobody, or to its present owner. */
  predicate Objection(r: Request, reason: string) {
    && r.requestType == "ownership_transfer"
    && (if r.newOwnerId.None? || r.newOwnerId.value == "" then reason == "missing_new_owner_id"
        else r.newOwnerId.value == r.ownerId && reason == "same_owner")
  }

  predicate Unobjected(r: Request) {
    !Objection(r, "missing_new_owner_id") && !Objection(r, "same_owner")
  }

  /** Some policy decided, and denied. */
  predicate Denied(policy: PolicyDecision) { policy.matched && policy.allow == Some(false) }

  /** Owner, points and policies must all agree for the request to be allowed. */
  predicate VerdictTold(log: RequestLog, r: Request, points: int, policy: PolicyDecision, riskReason: string) {
    && (log.allowed <==> Unobjected(r) && points < 70 && !Denied(policy))
    && (Objection(r, "missing_new_owner_id") ==> log.reason == "missing_new_owner_id")
    && (Objection(r, "same_owner") ==> log.reason == "same_owner")
    && (Unobjected(r) ==> log.reason == if points < 70 && policy.matched then policy.reason else riskReason)
  }

  /** What the log reports of the engines: the source is the policies exactly if risk allowed and one decided. */
  predicate EnginesTold(log: RequestLog, points: int, risk: RiskDecision, policy: PolicyDecision) {
    && log.riskScore == points && Signals(log.riskSignals) == Names(risk.signals)
    && log.policyMatched == policy.matched && log.policyId == policy.policyId
    && log.policyVersion == policy.policyVersion && log.policyName == policy.policyName
    && (log.decisionSource == FromPolicy <==> points < 70 && policy.matched)
  }

  lemma ObjectionsAreVerdicts(r: Request)
    ensures OwnershipVerdict(r).None? <==> Unobjected(r)
    ensures OwnershipVerdict(r).Some? ==> Objection(r, OwnershipVerdict(r).value)
    ensures !(Objection(r, "missing_new_owner_id") && Objection(r, "same_owner"))
  {
    assert "missing_new_owner_id"[0] != "same_owner"[0];
  }

  lemma LogTells(id: nat, f: Findings, stamp: Time, points: int)
    requires f.opinion.risk.riskScore == points && (f.opinion.risk.allow <==> points < 70)
    ensures
      var log, r, o := LogFor(id, f, stamp), f.loaded.request, f.opinion;
      && RequestTold(log, r) && log.createdAt == stamp && VerdictTold(log, r, points, o.policy, o.risk.reason)
      && EnginesTold(log, points, o.risk, o.policy)
  {
    ObjectionsAreVerdicts(f.loaded.request);
    NamesAreListable(f.opinion.risk.signals);
  }

  /** The logs that a request saw: those of its right committed when it loaded, up to its reference. */
  ghost predicate Saw(s: System, loaded: Loaded, logs: seq<RequestLog>) {
    && loaded.seen <= |s.logs|
    && WholeHistory(s.logs[..loaded.seen], loaded.request.tenantId, loaded.request.rightId, loaded.reference, false,
                    logs)
  }

  /** The logs that its replay sees: those of its right stamped before it. */
  ghost predicate Earlier(s: System, log: RequestLog, logs: seq<RequestLog>) {
    WholeHistory(s.logs, log.tenantId, log.rightId, log.createdAt, true, logs)
  }

  lemma SeenRowsAreSaw(s: System, f: Findings)
    requires f.loaded.seen <= |s.logs| && DistinctIds(s.logs[..f.loaded.seen])
    ensures Saw(s, f.loaded, SeenRows(s, f))
  {
    EligibleInOrder(s.logs[..f.loaded.seen], f.loaded.request.tenantId, f.loaded.request.rightId, f.loaded.reference,
                    false);
  }

  ghost predicate LogTold(s: System, i: nat, logs: seq<RequestLog>)
    requires i < |s.logs| && i < |s.made|
  {
    var log, f := s.logs[i], s.made[i];
    var r, o := f.loaded.request, f.opinion;
    var q := RiskQuery(r.requestType, r.deviceId, r.ipHash, r.countryCode);
    var points := Points(q, logs, o.riskNow);
    && Saw(s, f.loaded, logs) && DecidedOn(o.risk, q, logs, o.riskNow)
    && f.loaded.reference <= o.riskNow <= o.policyNow <= o.hourNow <= log.createdAt
    && RequestTold(log, r) && VerdictTold(log, r, points, o.policy, o.risk.reason)
    && EnginesTold(log, points, o.risk, o.policy)
  }

  lemma LogIsTold(s: System, i: nat)
    requires LogsOk(s) && i < |s.logs|
    ensures LogOk(s, i) && LogTold(s, i, SeenRows(s, s.made[i]))
  {
    assert LogOk(s, i);
    IdsAreIndices(s);
    var f := s.made[i];
    var r, o := f.loaded.request, f.opinion;
    SeenRowsAreSaw(s, f);
    RiskOnRows(s.logs[..f.loaded.seen], r.tenantId, r.rightId, f.loaded.reference, false, RiskQueryOf(r), o.riskNow);
    RiskEngine.DecisionMeans(RiskQueryOf(r), SeenRows(s, f), o.riskNow);
    LogTells(i, f, s.logs[i].createdAt, Points(RiskQueryOf(r), SeenRows(s, f), o.riskNow));
  }

  /**
    In every run, what each log says: it repeats its request; its points are those of the logs that the request
    saw; it is allowed exactly if these are below 70, no policy denied and the ownership rules do not object.
   */
  lemma EveryLogTells(run: seq<Step>, i: nat)
    requires i < |Run(INITIAL, run).logs|
    ensures
      var s := Run(INITIAL, run);
      i < |s.made| && exists logs :: LogTold(s, i, logs)
  {
    var s := Run(INITIAL, run);
    InitiallyInv();
    RunKeepsInv(INITIAL, run);
    LogIsTold(s, i);
  }

  // ----- What a comparison says

  /** The policy version that decided applies again, at this risk and this stamp. */
  ghost predicate AppliesAgain(s: System, r: Request, policy: PolicyDecision, risk: RiskDecision, stamp: Time) {
    exists id, row :: Store.Recorded(s.policies, id, row) && row.content.tenantId == r.tenantId
                      && DecidedByRow(policy, id, row)
                      && RowApplies(row.content, ContextOf(r, risk, stamp, (stamp.Floor / 3600) % 24))
  }

  lemma BackedByRow(policy: PolicyDecision, id: nat, row: Store.Row<PolicyFields>)
    requires policy == PolicyEngine.DecisionOf(ToPolicy(id, row))
    ensures DecidedByRow(policy, id, row)
  {
    EffectsMean(row.content.effect);
  }

  /** A version on record that made the decision is the one that replay finds. */
  lemma DeciderIsFound(s: System, r: Request, policy: PolicyDecision, id: nat, row: Store.Row<PolicyFields>)
    requires Store.Inv(s.policies) && Store.Recorded(s.policies, id, row) && row.content.tenantId == r.tenantId
    requires DecidedByRow(policy, id, row)
    ensures ReplayedPolicies(s, r.tenantId, policy) == [ToPolicy(id, row)]
  {
    RecordedPolicyIsLoaded(s.policies, id, row);
  }

  /** The replay's policy verdict is that of the version that decided, if it applies again, and none otherwise. */
  lemma ReplayedPolicyMeans(s: System, r: Request, policy: PolicyDecision, q: Query, risk: RiskDecision, stamp: Time)
    requires Store.Inv(s.policies) && q.now.Some? && IsBacked(s.policies, r.tenantId, policy, q)
    ensures DecidedBy(ReplayedPolicies(s, r.tenantId, policy), PolicyQueryOf(r, risk, stamp, stamp))
         == if policy.matched && AppliesAgain(s, r, policy, risk, stamp) then policy else NO_MATCH
  {
    var again := PolicyQueryOf(r, risk, stamp, stamp);
    if policy.matched {
      var id, row :| Store.Recorded(s.policies, id, row) && row.content.tenantId == r.tenantId
                     && policy == PolicyEngine.DecisionOf(ToPolicy(id, row)) && Applicable(ToPolicy(id, row), q);
      BackedByRow(policy, id, row);
      DeciderIsFound(s, r, policy, id, row);
      DecidesAlone(ToPolicy(id, row), again);
      ApplicableMeans(ToPolicy(id, row), again);
      RowAppliesAsPolicy(id, row, again);
      if AppliesAgain(s, r, policy, risk, stamp) {
        var other, version :| Store.Recorded(s.policies, other, version) && version.content.tenantId == r.tenantId
                              && DecidedByRow(policy, other, version)
                              && RowApplies(version.content, ContextOf(r, risk, stamp, (stamp.Floor / 3600) % 24));
        DeciderIsFound(s, r, policy, other, version);
        RowAppliesAsPolicy(other, version, again);
      }
    } else {
      NobodyDecidesAlone(again);
    }
  }

  // ----- Reasons tell signals

  lemma LastNameTells(front: string, a: Signal, back: string, b: Signal)
    requires front + Name(a) + ";" == back + Name(b) + ";"
    ensures a == b && front == back
  {
    var x, y := front + Name(a) + ";", back + Name(b) + ";";
    assert x[|x| - 2] == Name(a)[|Name(a)| - 1] && x[|x| - 3] == Name(a)[|Name(a)| - 2];
    assert y[|y| - 2] == Name(b)[|Name(b)| - 1] && y[|y| - 3] == Name(b)[|Name(b)| - 2];
    assert a == b;
    assert front == x[..|front|] && back == y[..|back|];
  }

  lemma ListEndsWithName(signals: seq<Signal>)
    requires signals != []
    ensures
      var n := |signals| - 1;
      Listed(Names(signals)) == Listed(Names(signals[..n])) + Name(signals[n]) + ";"
  {
    var n := |signals| - 1;
    assert Names(signals)[..n] == Names(signals[..n]);
  }

  lemma ListIsEmpty(signals: seq<Signal>)
    ensures Listed(Names(signals)) == "" <==> signals == []
  {
    if signals != [] { ListEndsWithName(signals); }
  }

  lemma LastSignalTold(xs: seq<Signal>, ys: seq<Signal>)
    requires xs != [] && ys != [] && Listed(Names(xs)) == Listed(Names(ys))
    ensures
      var m, n := |xs| - 1, |ys| - 1;
      xs[m] == ys[n] && Listed(Names(xs[..m])) == Listed(Names(ys[..n]))
  {
    var m, n := |xs| - 1, |ys| - 1;
    ListEndsWithName(xs);
    ListEndsWithName(ys);
    LastNameTells(Listed(Names(xs[..m])), xs[m], Listed(Names(ys[..n])), ys[n]);
  }

  lemma {:induction false} ListTellsSignals(xs: seq<Signal>, ys: seq<Signal>)
    requires Listed(Names(xs)) == Listed(Names(ys))
    ensures xs == ys
  {
    ListIsEmpty(xs);
    ListIsEmpty(ys);
    if xs != [] {
      var m, n := |xs| - 1, |ys| - 1;
      LastSignalTold(xs, ys);
      ListTellsSignals(xs[..m], ys[..n]);
      assert xs == xs[..m] + [xs[m]] && ys == ys[..n] + [ys[n]];
    }
  }

  lemma FirstLetter(signals: seq<Signal>)
    ensures
      var reason := RiskEngine.DecisionOf(signals).reason;
      |reason| > 0 && reason[0] != 'p' && (signals != [] ==> reason[0] != 'a')
      && (signals == [] ==> reason == "allowed") && (signals != [] ==> reason == Reasons(Names(signals)))
  {
    SomeScore(signals);
    if signals != [] {
      ReasonsStartWithFirst(Names(signals));
      assert Reasons(Names(signals))[0] == Name(signals[0])[0];
    }
  }

  lemma ReasonTellsSignals(xs: seq<Signal>, ys: seq<Signal>)
    ensures RiskEngine.DecisionOf(xs).reason == RiskEngine.DecisionOf(ys).reason <==> xs == ys
  {
    FirstLetter(xs);
    FirstLetter(ys);
    if RiskEngine.DecisionOf(xs).reason == RiskEngine.DecisionOf(ys).reason && xs != [] && ys != [] {
      ReasonsAreListed(Names(xs));
      ReasonsAreListed(Names(ys));
      ListTellsSignals(xs, ys);
    }
  }

  // ----- The eight fields

  /** Each field of a comparison between a log, what it was made of, and what the replay computes. */
  predicate FieldsTell(c: Comparison, log: RequestLog, f: Findings, risk: RiskDecision, policy: PolicyDecision) {
    var r, then', was := f.loaded.request, f.opinion.risk, f.opinion.policy;
    && (c.decisionMatch <==> (log.allowed <==> risk.allow && !Denied(policy)))
    && (c.riskScoreMatch <==> risk.riskScore == then'.riskScore)
    && (c.reasonMatch <==>
          && Unobjected(r) && (then'.allow && was.matched <==> risk.allow && policy.matched)
          && ((then'.allow && was.matched) || risk.signals == then'.signals))
    && (c.riskSignalsMatch <==> risk.signals == then'.signals)
    && (c.policyMatch <==> (was.matched <==> policy.matched))
    && (c.policyVersionMatch <==> (was.matched <==> policy.matched))
    && (c.decisionSourceMatch <==> (then'.allow && was.matched <==> risk.allow && policy.matched))
    && (c.decisionPathMatch <==>
          && (log.allowed <==> risk.allow && !Denied(policy))
          && (ConfigIn(f.workflow).includePolicyStep ==> (was.matched <==> policy.matched)))
    && (c.AllMatch() <==> c.decisionMatch && c.riskScoreMatch && c.reasonMatch && c.riskSignalsMatch && c.policyMatch
                          && c.policyVersionMatch && c.decisionSourceMatch && c.decisionPathMatch)
  }

  lemma ReasonsMatchWhen(r: Request, risk: RiskDecision, policy: PolicyDecision, risk': RiskDecision,
                         policy': PolicyDecision)
    requires risk == RiskEngine.DecisionOf(risk.signals) && risk' == RiskEngine.DecisionOf(risk'.signals)
    requires policy.matched ==> exists p :: policy == PolicyEngine.DecisionOf(p)
    requires policy' == policy || policy' == NO_MATCH
    ensures
      var reason := if OwnershipVerdict(r).Some? then OwnershipVerdict(r).value else ReasonFor(risk, policy);
      ReasonFor(risk', policy') == reason <==>
        && Unobjected(r) && (risk.allow && policy.matched <==> risk'.allow && policy'.matched)
        && ((risk.allow && policy.matched) || risk'.signals == risk.signals)
  {
    ObjectionsAreVerdicts(r);
    OwnershipReasons();
    RiskReasonIsNoTransferReason(risk'.signals);
    FirstLetter(risk.signals);
    FirstLetter(risk'.signals);
    ReasonTellsSignals(risk.signals, risk'.signals);
    if policy.matched {
      var p :| policy == PolicyEngine.DecisionOf(p);
      PolicyReasonIsNoTransferReason(p);
      assert policy.reason[0] == 'p';
    }
  }

  lemma PathsMatchWhen(config: WorkflowConfig, r: bool, m: bool, a: bool, r': bool, m': bool, b: bool)
    ensures Decision(config, r, m, a).decisionPath == Decision(config, r', m', b).decisionPath <==>
      a == b && (config.includePolicyStep ==> m == m')
  {
    PathParts(config, r, m, a);
    PathParts(config, r', m', b);
  }

  lemma ComparisonTells(id: nat, f: Findings, stamp: Time, risk: RiskDecision, policy: PolicyDecision)
    requires f.opinion.risk == RiskEngine.DecisionOf(f.opinion.risk.signals)
    requires risk == RiskEngine.DecisionOf(risk.signals)
    requires f.opinion.policy.matched ==> exists p :: f.opinion.policy == PolicyEngine.DecisionOf(p) && p.policyId.Some?
    requires !f.opinion.policy.matched ==> f.opinion.policy == NO_MATCH
    requires policy == f.opinion.policy || policy == NO_MATCH
    ensures FieldsTell(Compare(LogFor(id, f, stamp), risk, policy, ConfigIn(f.workflow)), LogFor(id, f, stamp), f, risk,
                       policy)
  {
    var log, config := LogFor(id, f, stamp), ConfigIn(f.workflow);
    var o := f.opinion;
    ReasonsMatchWhen(f.loaded.request, o.risk, o.policy, risk, policy);
    SignalsMatchExactlyWhen(id, f, stamp, risk, policy);
    PathsMatchWhen(config, o.risk.allow, o.policy.matched, log.allowed, risk.allow, policy.matched,
                   ResolveAllowed(risk.allow, policy.matched, policy.allow));
  }

  /** What the replay of log `i` computes: the points of the earlier logs, the verdict of the version that decided. */
  ghost predicate Recomputed(s: System, i: nat, risk: RiskDecision, policy: PolicyDecision)
    requires i < |s.logs| && i < |s.made|
  {
    var log, r, was := s.logs[i], s.made[i].loaded.request, s.made[i].opinion.policy;
    var q := RiskQuery(log.requestType, log.deviceId, log.ipHash, log.countryCode);
    && (exists logs :: Earlier(s, log, logs) && DecidedOn(risk, q, logs, log.createdAt))
    && policy == if was.matched && AppliesAgain(s, r, was, risk, log.createdAt) then was
                 else PolicyDecision(false, None, "no_policy_match", None, None, None)
  }

  lemma RowsBeforeAreEarlier(s: System, log: RequestLog)
    requires DistinctIds(s.logs)
    ensures Earlier(s, log, RowsBefore(s, log))
  {
    EligibleInOrder(s.logs, log.tenantId, log.rightId, log.createdAt, true);
  }

  lemma ReplayedRiskMeans(s: System, i: nat)
    requires LogsOk(s) && i < |s.logs|
    ensures LogOk(s, i)
    ensures
      var log := s.logs[i];
      DecidedOn(ReplayedRisk(s, i), RiskQuery(log.requestType, log.deviceId, log.ipHash, log.countryCode),
                RowsBefore(s, log), log.createdAt)
    ensures ReplayedRisk(s, i) == RiskEngine.DecisionOf(ReplayedRisk(s, i).signals)
  {
    assert LogOk(s, i);
    var r, stamp := s.made[i].loaded.request, s.logs[i].createdAt;
    IdsAreIndices(s);
    RiskOnRows(s.logs, r.tenantId, r.rightId, stamp, true, RiskQueryOf(r), stamp);
    RiskEngine.DecisionMeans(RiskQueryOf(r), RowsBefore(s, s.logs[i]), stamp);
    DecisionsHaveSignals(SignalsOf(RiskQueryOf(r), RowsBefore(s, s.logs[i]), stamp));
  }

  lemma ReplayRecomputes(s: System, i: nat)
    requires Inv(s) && i < |s.logs|
    ensures LogOk(s, i) && Recomputed(s, i, ReplayedRisk(s, i), ReplayedPolicy(s, i))
    ensures ReplayedRisk(s, i) == RiskEngine.DecisionOf(ReplayedRisk(s, i).signals)
  {
    IdsAreIndices(s);
    ReplayedRiskMeans(s, i);
    RowsBeforeAreEarlier(s, s.logs[i]);
    var r, o := s.made[i].loaded.request, s.made[i].opinion;
    ReplayedPolicyMeans(s, r, o.policy, PolicyQueryOf(r, o.risk, o.policyNow, o.hourNow), ReplayedRisk(s, i),
                        s.logs[i].createdAt);
  }

  lemma FieldsOfReplay(s: System, i: nat)
    requires Inv(s) && i < |s.logs|
    ensures LogOk(s, i) && ReplayAuditLog(s, i).Replayed?
    ensures FieldsTell(ReplayAuditLog(s, i).comparison, s.logs[i], s.made[i], ReplayedRisk(s, i), ReplayedPolicy(s, i))
  {
    LogsAreReplayed(s, i);
    ReplayRecomputes(s, i);
    var f := s.made[i];
    var r, o := f.loaded.request, f.opinion;
    RiskIsDecision(RiskQueryOf(r), f.loaded.history, o.riskNow);
    if o.policy.matched {
      var p := PolicyIsFound(s, r.tenantId, o.policy, PolicyQueryOf(r, o.risk, o.policyNow, o.hourNow));
      assert o.policy == PolicyEngine.DecisionOf(p);
    }
    ComparisonTells(i, f, s.logs[i].createdAt, ReplayedRisk(s, i), ReplayedPolicy(s, i));
  }

  /**
    What a replay reports, in every run and for every log, field by field: each of the eight matches exactly when
    the recomputed points, signals and policy verdict say the same as the log in that respect.
   */
  lemma ReplayTellsEachField(run: seq<Step>, i: nat)
    requires i < |Run(INITIAL, run).logs|
    ensures
      var s := Run(INITIAL, run);
      var replay := ReplayAuditLog(s, i);
      && i < |s.made| && replay.Replayed?
      && exists risk, policy :: Recomputed(s, i, risk, policy)
           && FieldsTell(replay.comparison, s.logs[i], s.made[i], risk, policy)
  {
    var s := Run(INITIAL, run);
    InitiallyInv();
    RunKeepsInv(INITIAL, run);
    ReplayRecomputes(s, i);
    FieldsOfReplay(s, i);
  }

  // ----- Replays that fail

  ghost predicate WorkflowOnRecord(s: System, tenant: string, version: int) {
    || (tenant in s.workflows.rows && s.workflows.rows[tenant].version == version)
    || (exists k :: 0 <= k < |s.workflows.history| && s.workflows.history[k].key == tenant
                    && s.workflows.history[k].row.version == version)
  }

  ghost predicate PolicyOnRecord(s: System, tenant: string, id: int, version: int) {
    || (exists live :: live in s.policies.rows && live == id && s.policies.rows[live].version == version
                       && s.policies.rows[live].content.tenantId == tenant)
    || (exists k :: 0 <= k < |s.policies.history| && s.policies.history[k].key == id
                    && s.policies.history[k].row.version == version
                    && s.policies.history[k].row.content.tenantId == tenant)
  }

  lemma {:induction false} PastIsFound<K, C>(history: seq<Store.Snapshot<K, C>>, key: K, version: int)
    ensures Store.FirstInHistory(history, key, version).Some?
       <==> exists k :: 0 <= k < |history| && history[k].key == key && history[k].row.version == version
  {
    if history != [] {
      PastIsFound(history[1..], key, version);
      if exists k :: 0 <= k < |history| && history[k].key == key && history[k].row.version == version {
        var k :| 0 <= k < |history| && history[k].key == key && history[k].row.version == version;
        assert k > 0 ==> history[1..][k - 1] == history[k];
      }
    }
  }

  lemma {:induction false} PastFieldsAreFound(history: seq<Store.Snapshot<nat, PolicyFields>>, tenant: string, id: nat,
                                              version: nat)
    ensures PastFields(history, tenant, id, version).Some?
       <==> exists k :: 0 <= k < |history| && history[k].key == id && history[k].row.version == version
                        && history[k].row.content.tenantId == tenant
  {
    if history != [] {
      PastFieldsAreFound(history[1..], tenant, id, version);
      if exists k :: 0 <= k < |history| && history[k].key == id && history[k].row.version == version
                     && history[k].row.content.tenantId == tenant {
        var k :| 0 <= k < |history| && history[k].key == id && history[k].row.version == version
                 && history[k].row.content.tenantId == tenant;
        assert k > 0 ==> history[1..][k - 1] == history[k];
      }
    }
  }

  lemma WorkflowsAreFound(s: System, tenant: string, version: int)
    ensures WorkflowFor(s, tenant, version).Some? <==> WorkflowOnRecord(s, tenant, version)
  {
    PastIsFound(s.workflows.history, tenant, version);
  }

  lemma PoliciesAreFound(s: System, tenant: string, id: int, version: int)
    ensures PolicyFor(s, tenant, id, version).Some? <==> PolicyOnRecord(s, tenant, id, version)
  {
    if id >= 0 && version >= 0 { PastFieldsAreFound(s.policies.history, tenant, id, version); }
  }

  /** On any tables, reached or not: which answer a replay gives, by what is missing, in this order. */
  lemma ReplayAnswersExactlyWhen(s: System, id: nat)
    ensures ReplayAuditLog(s, id).LogNotFound? <==> id >= |s.logs|
    ensures id < |s.logs| ==>
      var log, replay := s.logs[id], ReplayAuditLog(s, id);
      var known := log.tenantId in s.tenants;
      var workflow := log.workflowVersion.Some? ==> WorkflowOnRecord(s, log.tenantId, log.workflowVersion.value);
      var whole := log.policyId.Some? <==> log.policyVersion.Some?;
      var policy := log.policyId.Some? && log.policyVersion.Some? ==>
        PolicyOnRecord(s, log.tenantId, log.policyId.value, log.policyVersion.value);
      && (replay.TenantNotFound? <==> !known)
      && (replay.WorkflowVersionNotFound? <==> known && !workflow)
      && (replay.PolicyReferenceIncomplete? <==> known && workflow && !whole)
      && (replay.PolicyVersionNotFound? <==> known && workflow && whole && !policy)
      && (replay.Replayed? <==> known && workflow && whole && policy)
  {
    if id < |s.logs| {
      var log := s.logs[id];
      if log.workflowVersion.Some? { WorkflowsAreFound(s, log.tenantId, log.workflowVersion.value); }
      if log.policyId.Some? && log.policyVersion.Some? {
        PoliciesAreFound(s, log.tenantId, log.policyId.value, log.policyVersion.value);
      }
    }
  }
}
