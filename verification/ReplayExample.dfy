/**
  Three runs with a log whose replay does not match: an overridden decision, an overtaken request, and a policy
  that expired between evaluation and stamp.
 */
module ReplayExample {
  import opened Prelude
  import opened Sorting
  import opened CommaLists
  import opened AuditLog
  import opened RiskEngine
  import opened RiskHistory
  import opened PolicyEngine
  import opened PolicyStore
  import opened AuditReplay
  import opened ReplaySafety
  import opened ReplayTheorem
  import opened PolicySelection
  import Store = VersionedStore

  const OPENING: seq<Step> := [CreateTenant("t")]

  const OPENED := INITIAL.(tenants := {"t"})

  lemma OpeningOpens()
    ensures Reaches(OPENING, OPENED)
  {
    assert OPENING[..0] == [];
    assert Run(INITIAL, OPENING[..0]) == INITIAL;
  }

  /** The run leads to this state. (The quantifier keeps proofs from unfolding runs where they need not.) */
  ghost predicate Reaches(run: seq<Step>, s: System) {
    forall r :: r == run ==> Run(INITIAL, r) == s
  }

  lemma ReachesNext(run: seq<Step>, s: System, step: Step)
    requires Reaches(run, s)
    ensures Reaches(run + [step], Next(s, step))
  {
    assert (run + [step])[..|run|] == run;
    assert Run(INITIAL, run) == s;
  }

  lemma ReachedInv(run: seq<Step>, s: System)
    requires Reaches(run, s)
    ensures Run(INITIAL, run) == s && Inv(s)
  {
    InitiallyInv();
    RunKeepsInv(INITIAL, run);
  }

  /** Evaluation, workflow and log of a request whose history has been loaded. */
  function Deciding(w: Worker, now: Time): seq<Step> {
    [Evaluate(w, now, now, now)] + [LoadWorkflow(w)] + [Log(w, now)]
  }

  lemma NoHistory(tenant: string, right: string, reference: Time)
    ensures History([], tenant, right, reference, false) == []
  {
    assert Eligible([], tenant, right, reference, false) == [];
    assert RecentByTime([], reference) == [] && LatestTen([]) == [];
  }

  lemma NoPolicies(s: System, q: Query)
    requires s.policies == Store.Empty() && s.nextPolicyId == 0 && q.now.Some?
    ensures DecidedBy(LoadTenantPolicies(s.policies, "t", 0), q) == NO_MATCH
  {
    assert LoadTenantPolicies(s.policies, "t", 0) == [];
    NobodyDecidesAlone(q);
  }

  /** What a request finds that has seen no history, no policy and no workflow configuration. */
  function FindingsUnseen(r: Request, reference: Time, now: Time): Findings {
    Findings(Loaded(r, reference, 0, []), Opinion(now, Risk(RiskQueryOf(r), [], now), now, now, NO_MATCH), None)
  }

  /** Nothing but logs has been written since the opening, and this request has loaded an empty history. */
  predicate HasSeenNothing(s: System, w: Worker, r: Request, reference: Time) {
    && s.tenants == {"t"} && s.policies == Store.Empty() && s.nextPolicyId == 0 && s.workflows == Store.Empty()
    && w in s.underWay && s.underWay[w] == HistoryLoaded(Loaded(r, reference, 0, [])) && r.tenantId == "t"
  }

  function Logged(s: System, w: Worker, r: Request, reference: Time, now: Time): System {
    var f := FindingsUnseen(r, reference, now);
    s.(logs := s.logs + [LogFor(|s.logs|, f, now)], made := s.made + [f], underWay := s.underWay - {w})
  }

  lemma EvaluationGives(s: System, w: Worker, loaded: Loaded, o: Opinion, now: Time)
    requires w in s.underWay && s.underWay[w] == HistoryLoaded(loaded) && loaded.reference <= now
    requires Judge(s, loaded, now, now, now) == o
    ensures Next(s, Evaluate(w, now, now, now)) == SetProgress(s, w, Evaluated(loaded, o))
  {
  }

  lemma EvaluationSeesNothing(s: System, w: Worker, r: Request, reference: Time, now: Time)
    requires HasSeenNothing(s, w, r, reference) && reference <= now
    ensures
      var f := FindingsUnseen(r, reference, now);
      Next(s, Evaluate(w, now, now, now)) == SetProgress(s, w, Evaluated(f.loaded, f.opinion))
  {
    var f := FindingsUnseen(r, reference, now);
    NoPolicies(s, PolicyQueryOf(r, f.opinion.risk, now, now));
    EvaluationGives(s, w, f.loaded, f.opinion, now);
  }

  lemma WorkflowIsDefault(s: System, w: Worker, f: Findings)
    requires s.workflows == Store.Empty() && w in s.underWay && f.workflow.None?
    requires s.underWay[w] == Evaluated(f.loaded, f.opinion)
    ensures Next(s, LoadWorkflow(w)) == SetProgress(s, w, Configured(f))
  {
  }

  lemma FindingsAreLogged(s: System, w: Worker, f: Findings, now: Time)
    requires w in s.underWay && s.underWay[w] == Configured(f) && f.opinion.hourNow <= now
    ensures Next(s, Log(w, now))
      == s.(logs := s.logs + [LogFor(|s.logs|, f, now)], made := s.made + [f], underWay := s.underWay - {w})
  {
  }

  lemma DecidingLogs(run: seq<Step>, s: System, w: Worker, r: Request, reference: Time, now: Time)
    requires Reaches(run, s) && HasSeenNothing(s, w, r, reference) && reference <= now
    ensures Reaches(run + Deciding(w, now), Logged(s, w, r, reference, now))
  {
    var f := FindingsUnseen(r, reference, now);
    var first, second := run + [Evaluate(w, now, now, now)], run + [Evaluate(w, now, now, now)] + [LoadWorkflow(w)];
    ReachesNext(run, s, Evaluate(w, now, now, now));
    EvaluationSeesNothing(s, w, r, reference, now);
    var evaluated := SetProgress(s, w, Evaluated(f.loaded, f.opinion));
    ReachesNext(first, evaluated, LoadWorkflow(w));
    WorkflowIsDefault(evaluated, w, f);
    ReachesNext(second, SetProgress(evaluated, w, Configured(f)), Log(w, now));
    FindingsAreLogged(SetProgress(evaluated, w, Configured(f)), w, f, now);
    assert second + [Log(w, now)] == run + Deciding(w, now);
  }

  lemma LoadingSeesNothing(run: seq<Step>, s: System, w: Worker, r: Request, reference: Time)
    requires Reaches(run, s) && s.logs == [] && r.tenantId == "t" && "t" in s.tenants
    ensures Reaches(run + [LoadHistory(w, r, reference)],
                    SetProgress(s, w, HistoryLoaded(Loaded(r, reference, 0, []))))
  {
    ReachesNext(run, s, LoadHistory(w, r, reference));
    NoHistory(r.tenantId, r.rightId, reference);
  }

  // ----- An overridden decision

  /** A transfer to nobody. */
  const REQUEST := Request("t", "r", "a", "a", "d", "ip", "EE", TRANSFER, None, None, "trace", "key", "print", "v8")

  const TO_NOBODY: seq<Step> := OPENING + [LoadHistory(0, REQUEST, 1.0)] + Deciding(0, 1.0)

  /** The only request is logged. */
  lemma OneIsLogged(r: Request, now: Time) returns (s: System)
    requires r.tenantId == "t"
    ensures Reaches(OPENING + [LoadHistory(0, r, now)] + Deciding(0, now), s)
    ensures s.logs == [LogFor(0, FindingsUnseen(r, now, now), now)] && s.made == [FindingsUnseen(r, now, now)]
  {
    OpeningOpens();
    LoadingSeesNothing(OPENING, OPENED, 0, r, now);
    var loaded := SetProgress(OPENED, 0, HistoryLoaded(Loaded(r, now, 0, [])));
    DecidingLogs(OPENING + [LoadHistory(0, r, now)], loaded, 0, r, now, now);
    s := Logged(loaded, 0, r, now, now);
  }

  /** Nobody overtakes the only request. */
  lemma OnlySignalsRecur(s: System)
    requires Inv(s) && |s.logs| == 1 && |s.made| == 1 && s.made[0].loaded.seen == 0
    ensures LogOk(s, 0) && SignalsRecur(s, 0)
  {
    assert LogOk(s, 0);
    SignalsRecurUndisturbed(s, 0);
  }

  /** The engines allowed it. */
  lemma OverriddenMismatches(s: System)
    requires Inv(s) && s.logs == [LogFor(0, FindingsUnseen(REQUEST, 1.0, 1.0), 1.0)]
    requires s.made == [FindingsUnseen(REQUEST, 1.0, 1.0)]
    ensures ReplayAuditLog(s, 0).Replayed? && Faithful(ReplayAuditLog(s, 0).comparison, true, true)
  {
    LogsAreReplayed(s, 0);
    OnlySignalsRecur(s);
    SameSignalsReplay(s, 0);
    EmptyHistoryAllows(RiskQueryOf(REQUEST), 1.0);
  }

  /** The engines allow the request, the rule denies it, and the replay, which lacks the rule, says so. */
  lemma OverriddenDecisionMismatches()
    ensures
      var replay := ReplayAuditLog(Run(INITIAL, TO_NOBODY), 0);
      && replay.Replayed? && !replay.comparison.AllMatch()
      && !replay.comparison.decisionMatch && !replay.comparison.reasonMatch && !replay.comparison.decisionPathMatch
  {
    var s := OneIsLogged(REQUEST, 1.0);
    ReachedInv(TO_NOBODY, s);
    OverriddenMismatches(s);
  }

  // ----- An overtaken request

  /** An access request of the same right, from this device. */
  function AccessFrom(device: string, key: string): Request {
    Request("t", "r", "a", "a", device, "ip", "EE", "access", None, None, "trace", key, "print", "v8")
  }

  const ONE := AccessFrom("one", "k")
  const TWO := AccessFrom("two", "l")

  /** Both requests load the history before either of them is logged. */
  const LOADING: seq<Step> := OPENING + [LoadHistory(0, ONE, 0.5)] + [LoadHistory(1, TWO, 0.5)]

  const OVERLAPPING: seq<Step> := LOADING + Deciding(0, 1.0) + Deciding(1, 2.0)

  lemma BothLoad()
    ensures Reaches(LOADING, OPENED.(underWay := map[0 := HistoryLoaded(Loaded(ONE, 0.5, 0, [])),
                                                    1 := HistoryLoaded(Loaded(TWO, 0.5, 0, []))]))
  {
    OpeningOpens();
    LoadingSeesNothing(OPENING, OPENED, 0, ONE, 0.5);
    var s := SetProgress(OPENED, 0, HistoryLoaded(Loaded(ONE, 0.5, 0, [])));
    LoadingSeesNothing(OPENING + [LoadHistory(0, ONE, 0.5)], s, 1, TWO, 0.5);
  }

  const FIRST_LOG := LogFor(0, FindingsUnseen(ONE, 0.5, 1.0), 1.0)
  const SECOND_LOG := LogFor(1, FindingsUnseen(TWO, 0.5, 2.0), 2.0)

  lemma BothLog() returns (s: System)
    ensures Reaches(OVERLAPPING, s) && s.logs == [FIRST_LOG, SECOND_LOG]
    ensures s.made == [FindingsUnseen(ONE, 0.5, 1.0), FindingsUnseen(TWO, 0.5, 2.0)]
  {
    BothLoad();
    var loaded := OPENED.(underWay := map[0 := HistoryLoaded(Loaded(ONE, 0.5, 0, [])),
                                          1 := HistoryLoaded(Loaded(TWO, 0.5, 0, []))]);
    DecidingLogs(LOADING, loaded, 0, ONE, 0.5, 1.0);
    var first := Logged(loaded, 0, ONE, 0.5, 1.0);
    DecidingLogs(LOADING + Deciding(0, 1.0), first, 1, TWO, 0.5, 2.0);
    s := Logged(first, 1, TWO, 0.5, 2.0);
  }

  lemma KeepOfTwo(a: RequestLog, b: RequestLog, p: RequestLog -> bool)
    ensures Keep([a], p) == if p(a) then [a] else []
    ensures p(a) && !p(b) ==> Keep([a, b], p) == [a]
  {
    assert [a, b][..1] == [a] && [a][..0] == [];
  }

  /** A single eligible row of the last hour is its own history. */
  lemma HistoryOfOne(a: RequestLog, reference: Time)
    requires a.createdAt >= reference - HOUR
    ensures AssignAll(RecentByTime([a], reference), LatestTen([a])) == [a]
  {
    var h := AssignAll(RecentByTime([a], reference), LatestTen([a]));
    LoadedIsUnion([a], reference);
    DescendingMembers([a]);
    assert a in h && forall x :: x in h ==> x == a;
    assert |h| == 1 by {
      assert forall i :: 0 <= i < |h| ==> h[i] in h;
    }
  }

  lemma OnlyFirstIsBefore()
    ensures History([FIRST_LOG, SECOND_LOG], "t", "r", 2.0, true) == [FIRST_LOG]
  {
    KeepOfTwo(FIRST_LOG, SECOND_LOG, InScope("t", "r", 2.0, true));
    HistoryOfOne(FIRST_LOG, 2.0);
  }

  lemma UnseenScoresNothing(q: RiskQuery, now: Time)
    requires q.requestType != TRANSFER
    ensures Risk(q, [], now).riskScore == 0
  {
    SignalsMean(q, [], now);
    assert Sort(LogLeq, []) == [];
    assert |Denials([], now)| == 0 by { assert Denials([], now) == {}; }
  }

  lemma OtherDeviceScores(q: RiskQuery, log: RequestLog, now: Time)
    requires log.deviceId != q.deviceId
    ensures Risk(q, [log], now).riskScore > 0
  {
    assert Sort(LogLeq, [log]) == [log] by { assert [log][..0] == []; }
    SignalsMean(q, [log], now);
    assert DeviceIsNew(q, [log]);
    RaisedSignalsScore(SignalsOf(q, [log], now));
  }

  lemma SecondScoresDifferently()
    ensures SECOND_LOG.riskScore == 0 && Risk(RiskQueryOf(TWO), [FIRST_LOG], 2.0).riskScore > 0
  {
    assert "one" != "two" && "access" != TRANSFER by {
      assert "one"[0] != "two"[0] && |"access"| != |TRANSFER|;
    }
    UnseenScoresNothing(RiskQueryOf(TWO), 2.0);
    OtherDeviceScores(RiskQueryOf(TWO), FIRST_LOG, 2.0);
  }

  lemma SecondMismatches(s: System)
    requires Inv(s) && s.logs == [FIRST_LOG, SECOND_LOG]
    requires s.made == [FindingsUnseen(ONE, 0.5, 1.0), FindingsUnseen(TWO, 0.5, 2.0)]
    ensures ReplayAuditLog(s, 1).Replayed? && !ReplayAuditLog(s, 1).comparison.riskScoreMatch
    ensures !ReplayAuditLog(s, 1).comparison.riskSignalsMatch
  {
    LogsAreReplayed(s, 1);
    OnlyFirstIsBefore();
    SecondScoresDifferently();
    SignalsMatchExactlyWhen(1, s.made[1], 2.0, ReplayedRisk(s, 1), ReplayedPolicy(s, 1));
  }

  /**
    The second request was decided on a history without the first, which is stamped earlier, and its replay
    finds other signals and another score.
   */
  lemma OverlappingRequestsMismatch()
    ensures
      var replay := ReplayAuditLog(Run(INITIAL, OVERLAPPING), 1);
      && replay.Replayed? && !replay.comparison.AllMatch()
      && !replay.comparison.riskScoreMatch && !replay.comparison.riskSignalsMatch
  {
    var s := BothLog();
    ReachedInv(OVERLAPPING, s);
    SecondMismatches(s);
  }

  // ----- An expired policy

  /** A policy that denies everything until 1.5. */
  const DENIAL := PolicyFields("t", "p", "deny", 1, "", "", "", None, None, None, None, None, true, None, Some(1.5))

  const POLICY := ToPolicy(0, Store.Row(1, DENIAL))

  const GOVERNED := OPENED.(policies := Store.Store(map[0 := Store.Row(1, DENIAL)], [], map[]), nextPolicyId := 1)

  lemma PolicyIsCreated()
    ensures Next(OPENED, CreatePolicy(DENIAL)) == GOVERNED
  {
  }

  lemma PolicyIsLoaded()
    ensures LoadTenantPolicies(GOVERNED.policies, "t", 1) == [POLICY]
  {
    assert EnabledIds(GOVERNED.policies, "t", 0) == [];
    assert EnabledIds(GOVERNED.policies, "t", 1) == [0];
  }

  lemma PolicyApplies(q: Query)
    requires q.now == Some(1.0)
    ensures Applicable(POLICY, q)
  {
    assert Items("") == [];
    assert Lower("deny") == "deny";
  }

  lemma PolicyDenies(q: Query)
    requires q.now == Some(1.0)
    ensures DecidedBy(LoadTenantPolicies(GOVERNED.policies, "t", 1), q) == PolicyEngine.DecisionOf(POLICY)
  {
    PolicyIsLoaded();
    PolicyApplies(q);
    DecidesAlone(POLICY, q);
  }

  /** What a request finds that has seen only the policy. */
  const DENIED := Findings(
    Loaded(ONE, 1.0, 0, []),
    Opinion(1.0, Risk(RiskQueryOf(ONE), [], 1.0), 1.0, 1.0, PolicyEngine.DecisionOf(POLICY)), None)

  const EXPIRING: seq<Step> :=
    OPENING + [CreatePolicy(DENIAL)] + [LoadHistory(0, ONE, 1.0)]
    + [Evaluate(0, 1.0, 1.0, 1.0)] + [LoadWorkflow(0)] + [Log(0, 2.0)]

  lemma EvaluationIsDenied(s: System)
    requires s == SetProgress(GOVERNED, 0, HistoryLoaded(DENIED.loaded))
    ensures Next(s, Evaluate(0, 1.0, 1.0, 1.0)) == SetProgress(s, 0, Evaluated(DENIED.loaded, DENIED.opinion))
  {
    PolicyDenies(PolicyQueryOf(ONE, DENIED.opinion.risk, 1.0, 1.0));
    EvaluationGives(s, 0, DENIED.loaded, DENIED.opinion, 1.0);
  }

  lemma DenialIsLogged()
    ensures Reaches(EXPIRING, GOVERNED.(logs := [LogFor(0, DENIED, 2.0)], made := [DENIED]))
  {
    OpeningOpens();
    ReachesNext(OPENING, OPENED, CreatePolicy(DENIAL));
    PolicyIsCreated();
    var governed := OPENING + [CreatePolicy(DENIAL)];
    LoadingSeesNothing(governed, GOVERNED, 0, ONE, 1.0);
    var loaded := governed + [LoadHistory(0, ONE, 1.0)];
    var there := SetProgress(GOVERNED, 0, HistoryLoaded(DENIED.loaded));
    ReachesNext(loaded, there, Evaluate(0, 1.0, 1.0, 1.0));
    EvaluationIsDenied(there);
    var evaluated := SetProgress(there, 0, Evaluated(DENIED.loaded, DENIED.opinion));
    ReachesNext(loaded + [Evaluate(0, 1.0, 1.0, 1.0)], evaluated, LoadWorkflow(0));
    WorkflowIsDefault(evaluated, 0, DENIED);
    var configured := SetProgress(evaluated, 0, Configured(DENIED));
    ReachesNext(loaded + [Evaluate(0, 1.0, 1.0, 1.0)] + [LoadWorkflow(0)], configured, Log(0, 2.0));
    FindingsAreLogged(configured, 0, DENIED, 2.0);
  }

  lemma PolicyHasExpired(s: System)
    requires s == GOVERNED.(logs := [LogFor(0, DENIED, 2.0)], made := [DENIED])
    ensures !PolicyHeld(s, s.logs[0])
  {
  }

  lemma ExpiredMismatches(s: System)
    requires Inv(s) && |s.logs| == 1 && |s.made| == 1 && s.made[0].loaded.seen == 0 && !PolicyHeld(s, s.logs[0])
    ensures ReplayAuditLog(s, 0).Replayed? && !ReplayAuditLog(s, 0).comparison.policyMatch
  {
    LogsAreReplayed(s, 0);
    OnlySignalsRecur(s);
    SameSignalsReplay(s, 0);
  }

  /** The policy that denied the request expires before the log is stamped, and no longer decides in its replay. */
  lemma ExpiredPolicyMismatches()
    ensures
      var replay := ReplayAuditLog(Run(INITIAL, EXPIRING), 0);
      replay.Replayed? && !replay.comparison.AllMatch() && !replay.comparison.policyMatch
  {
    var s := GOVERNED.(logs := [LogFor(0, DENIED, 2.0)], made := [DENIED]);
    DenialIsLogged();
    ReachedInv(EXPIRING, s);
    PolicyHasExpired(s);
    ExpiredMismatches(s);
  }
}
