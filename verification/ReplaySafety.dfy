/** What every run of requests and changes keeps: each log was made of what its request found. */
module ReplaySafety {
  import opened Prelude
  import opened RiskEngine
  import opened RiskHistory
  import opened PolicyEngine
  import opened PolicySelection
  import opened PolicyStore
  import Store = VersionedStore
  import opened AuditReplay

  ghost predicate IdsBelow(policies: PolicyTable, n: nat) {
    && (forall id :: id in policies.rows ==> id < n)
    && (forall i :: 0 <= i < |policies.history| ==> policies.history[i].key < n)
    && (forall a :: a in policies.readers ==> policies.readers[a].key < n)
  }

  /** The decision is that of a policy version on record, which applied to the query, or that none applied. */
  ghost predicate IsBacked(policies: PolicyTable, tenant: string, policy: PolicyDecision, q: Query)
    requires q.now.Some?
  {
    if policy.matched then
      exists id, row :: Store.Recorded(policies, id, row) && row.content.tenantId == tenant
                        && policy == PolicyEngine.DecisionOf(ToPolicy(id, row)) && Applicable(ToPolicy(id, row), q)
    else policy == NO_MATCH
  }

  /** The history is what the logs committed at the time of loading make it. */
  ghost predicate LoadedOk(s: System, loaded: Loaded) {
    var r := loaded.request;
    && r.tenantId in s.tenants && loaded.seen <= |s.logs|
    && loaded.history == History(s.logs[..loaded.seen], r.tenantId, r.rightId, loaded.reference, false)
  }

  ghost predicate OpinionOk(s: System, loaded: Loaded, o: Opinion) {
    var r := loaded.request;
    && loaded.reference <= o.riskNow <= o.policyNow <= o.hourNow
    && o.risk == Risk(RiskQueryOf(r), loaded.history, o.riskNow)
    && IsBacked(s.policies, r.tenantId, o.policy, PolicyQueryOf(r, o.risk, o.policyNow, o.hourNow))
  }

  ghost predicate FindingsOk(s: System, f: Findings) {
    && LoadedOk(s, f.loaded) && OpinionOk(s, f.loaded, f.opinion)
    && (f.workflow.Some? ==> Store.Recorded(s.workflows, f.loaded.request.tenantId, f.workflow.value))
  }

  ghost predicate ProgressOk(s: System, progress: Progress) {
    match progress
    case HistoryLoaded(loaded) => LoadedOk(s, loaded)
    case Evaluated(loaded, opinion) => LoadedOk(s, loaded) && OpinionOk(s, loaded, opinion)
    case Configured(f) => FindingsOk(s, f)
  }

  /** Log `i` was made of findings that hold up, and stamped after them. */
  ghost predicate LogOk(s: System, i: nat)
    requires i < |s.logs| && i < |s.made|
  {
    && FindingsOk(s, s.made[i]) && s.made[i].opinion.hourNow <= s.logs[i].createdAt
    && s.logs[i] == LogFor(i, s.made[i], s.logs[i].createdAt)
  }

  ghost predicate LogsOk(s: System) {
    |s.made| == |s.logs| && forall i :: 0 <= i < |s.logs| ==> LogOk(s, i)
  }

  ghost predicate UnderWayOk(s: System) {
    forall w :: w in s.underWay ==> ProgressOk(s, s.underWay[w])
  }

  ghost predicate TablesOk(s: System) {
    Store.Inv(s.policies) && Store.Inv(s.workflows) && IdsBelow(s.policies, s.nextPolicyId)
  }

  ghost predicate Inv(s: System) {
    TablesOk(s) && LogsOk(s) && UnderWayOk(s)
  }

  // ----- Policies and workflow configurations

  lemma IdsStayBelow(policies: PolicyTable, step: Store.Step<nat, PolicyFields>, n: nat)
    requires IdsBelow(policies, n)
    ensures step.Insert? && step.key == n ==> IdsBelow(Store.Next(policies, step), n + 1)
    ensures !step.Insert? ==> IdsBelow(Store.Next(policies, step), n)
  {
  }

  lemma CreateKeepsTables(s: System, fields: PolicyFields)
    requires TablesOk(s)
    ensures TablesOk(Next(s, CreatePolicy(fields)))
  {
    var p := Store.Insert(s.nextPolicyId, fields);
    assert Store.Inv(Store.Next(s.policies, p)) by { Store.NextKeepsInv(s.policies, p); }
    assert IdsBelow(Store.Next(s.policies, p), s.nextPolicyId + 1) by { IdsStayBelow(s.policies, p, s.nextPolicyId); }
  }

  lemma NextKeepsTables(s: System, step: Step)
    requires TablesOk(s)
    ensures TablesOk(Next(s, step))
  {
    if step.CreatePolicy? {
      CreateKeepsTables(s, step.fields);
    } else if step.ChangePolicy? {
      Store.NextKeepsInv(s.policies, step.policyStep);
      IdsStayBelow(s.policies, step.policyStep, s.nextPolicyId);
    } else if step.ChangeWorkflow? {
      Store.NextKeepsInv(s.workflows, step.workflowStep);
    }
  }

  /** What a later state still knows of an earlier one. */
  ghost predicate Extends(s: System, t: System) {
    && s.tenants <= t.tenants && s.logs <= t.logs
    && (forall id, row :: Store.Recorded(s.policies, id, row) ==> Store.Recorded(t.policies, id, row))
    && (forall tenant, row :: Store.Recorded(s.workflows, tenant, row) ==> Store.Recorded(t.workflows, tenant, row))
  }

  lemma NextExtends(s: System, step: Step)
    requires TablesOk(s)
    ensures Extends(s, Next(s, step))
  {
    var t := Next(s, step);
    forall id, row | Store.Recorded(s.policies, id, row) ensures Store.Recorded(t.policies, id, row) {
      if step.CreatePolicy? {
        Store.NextKeepsRecords(s.policies, Store.Insert(s.nextPolicyId, step.fields), id, row);
      } else if step.ChangePolicy? {
        Store.NextKeepsRecords(s.policies, step.policyStep, id, row);
      }
    }
    forall tenant, row | Store.Recorded(s.workflows, tenant, row) ensures Store.Recorded(t.workflows, tenant, row) {
      if step.ChangeWorkflow? {
        Store.NextKeepsRecords(s.workflows, step.workflowStep, tenant, row);
      }
    }
  }

  // ----- What was found stays found

  lemma BackingStays(s: System, t: System, tenant: string, policy: PolicyDecision, q: Query)
    requires Extends(s, t) && q.now.Some? && IsBacked(s.policies, tenant, policy, q)
    ensures IsBacked(t.policies, tenant, policy, q)
  {
  }

  lemma LoadedStays(s: System, t: System, loaded: Loaded)
    requires Extends(s, t) && LoadedOk(s, loaded)
    ensures LoadedOk(t, loaded)
  {
    assert t.logs[..loaded.seen] == s.logs[..loaded.seen];
  }

  lemma OpinionStays(s: System, t: System, loaded: Loaded, o: Opinion)
    requires Extends(s, t) && OpinionOk(s, loaded, o)
    ensures OpinionOk(t, loaded, o)
  {
    var r := loaded.request;
    BackingStays(s, t, r.tenantId, o.policy, PolicyQueryOf(r, o.risk, o.policyNow, o.hourNow));
  }

  lemma FindingsStay(s: System, t: System, f: Findings)
    requires Extends(s, t) && FindingsOk(s, f)
    ensures FindingsOk(t, f)
  {
    LoadedStays(s, t, f.loaded);
    OpinionStays(s, t, f.loaded, f.opinion);
  }

  lemma ProgressStays(s: System, t: System, progress: Progress)
    requires Extends(s, t) && ProgressOk(s, progress)
    ensures ProgressOk(t, progress)
  {
    match progress
    case HistoryLoaded(loaded) => LoadedStays(s, t, loaded);
    case Evaluated(loaded, opinion) =>
      LoadedStays(s, t, loaded);
      OpinionStays(s, t, loaded, opinion);
    case Configured(f) => FindingsStay(s, t, f);
  }

  lemma LogStays(s: System, t: System, i: nat)
    requires Extends(s, t) && i < |s.logs| && i < |s.made| && i < |t.made| && t.made[i] == s.made[i] && LogOk(s, i)
    ensures LogOk(t, i)
  {
    FindingsStay(s, t, s.made[i]);
  }

  // ----- A policy decision is backed

  /** A policy that wins among a tenant's enabled ones is a live row. */
  lemma WinnerIsLive(policies: PolicyTable, tenant: string, n: nat, w: Policy) returns (id: nat)
    requires w in LoadTenantPolicies(policies, tenant, n)
    ensures id in policies.rows && policies.rows[id].content.tenantId == tenant && w == ToPolicy(id, policies.rows[id])
  {
    var ids := EnabledIds(policies, tenant, n);
    var i :| 0 <= i < |ids| && LoadTenantPolicies(policies, tenant, n)[i] == w;
    id := ids[i];
    assert id in ids;
  }

  /** The deciding policy is a policy version on record, which applied. */
  lemma DecisionIsBacked(policies: PolicyTable, tenant: string, n: nat, q: Query)
    requires q.now.Some?
    ensures IsBacked(policies, tenant, DecidedBy(LoadTenantPolicies(policies, tenant, n), q), q)
  {
    var loaded := LoadTenantPolicies(policies, tenant, n);
    LeastApplicableDecides(loaded, q);
    if DecidedBy(loaded, q).matched {
      var w :| Wins(w, loaded, q) && PolicyEngine.Evaluate(loaded, q).decision == PolicyEngine.DecisionOf(w);
      var id := WinnerIsLive(policies, tenant, n, w);
      assert Store.Recorded(policies, id, policies.rows[id]);
    }
  }

  // ----- Steps

  /** Requests under way stay in order when that of one worker moves on. */
  lemma MovesOn(s: System, t: System, w: Worker)
    requires Inv(s) && TablesOk(t) && Extends(s, t) && t.logs == s.logs && t.made == s.made
    requires forall v :: v in t.underWay && v != w ==> v in s.underWay && t.underWay[v] == s.underWay[v]
    requires w in t.underWay ==> ProgressOk(t, t.underWay[w])
    ensures Inv(t)
  {
    forall v | v in t.underWay ensures ProgressOk(t, t.underWay[v]) {
      if v != w { ProgressStays(s, t, s.underWay[v]); }
    }
    forall i | 0 <= i < |t.logs| ensures LogOk(t, i) {
      LogStays(s, t, i);
    }
  }

  lemma SettingKeepsInv(s: System, w: Worker, progress: Progress)
    requires Inv(s) && ProgressOk(s, progress)
    ensures Inv(SetProgress(s, w, progress))
  {
    var t := SetProgress(s, w, progress);
    assert ProgressOk(t, progress) by { ProgressStays(s, t, progress); }
    MovesOn(s, t, w);
  }

  lemma HistoryIsLoaded(s: System, r: Request, reference: Time)
    requires r.tenantId in s.tenants
    ensures LoadedOk(s, Load(s, r, reference))
  {
    assert s.logs[..|s.logs|] == s.logs;
  }

  lemma JudgementIsOk(s: System, loaded: Loaded, riskNow: Time, policyNow: Time, hourNow: Time)
    requires loaded.reference <= riskNow <= policyNow <= hourNow
    ensures OpinionOk(s, loaded, Judge(s, loaded, riskNow, policyNow, hourNow))
  {
    var r, o := loaded.request, Judge(s, loaded, riskNow, policyNow, hourNow);
    DecisionIsBacked(s.policies, r.tenantId, s.nextPolicyId, PolicyQueryOf(r, o.risk, policyNow, hourNow));
  }

  lemma EvaluateKeepsInv(s: System, w: Worker, loaded: Loaded, riskNow: Time, policyNow: Time, hourNow: Time)
    requires Inv(s) && ProgressOk(s, HistoryLoaded(loaded)) && loaded.reference <= riskNow <= policyNow <= hourNow
    ensures Inv(SetProgress(s, w, Evaluated(loaded, Judge(s, loaded, riskNow, policyNow, hourNow))))
  {
    var evaluated := Evaluated(loaded, Judge(s, loaded, riskNow, policyNow, hourNow));
    assert ProgressOk(s, evaluated) by { JudgementIsOk(s, loaded, riskNow, policyNow, hourNow); }
    SettingKeepsInv(s, w, evaluated);
  }

  lemma ConfigureKeepsInv(s: System, w: Worker)
    requires Inv(s) && IsEvaluated(s, w)
    ensures Inv(NextConfigure(s, w))
  {
    var loaded, opinion := s.underWay[w].loaded, s.underWay[w].opinion;
    var f := Findings(loaded, opinion, WorkflowOf(s.workflows, loaded.request.tenantId));
    assert ProgressOk(s, s.underWay[w]);
    assert ProgressOk(s, Configured(f));
    SettingKeepsInv(s, w, Configured(f));
  }

  lemma NewLogIsOk(s: System, t: System, f: Findings, stamp: Time)
    requires FindingsOk(s, f) && f.opinion.hourNow <= stamp && Extends(s, t) && |s.made| == |s.logs|
    requires t.logs == s.logs + [LogFor(|s.logs|, f, stamp)] && t.made == s.made + [f]
    ensures LogOk(t, |s.logs|)
  {
    FindingsStay(s, t, f);
  }

  lemma AppendingKeepsLogs(s: System, t: System, f: Findings, stamp: Time)
    requires LogsOk(s) && FindingsOk(s, f) && f.opinion.hourNow <= stamp && Extends(s, t)
    requires t.logs == s.logs + [LogFor(|s.logs|, f, stamp)] && t.made == s.made + [f]
    ensures LogsOk(t)
  {
    NewLogIsOk(s, t, f, stamp);
    forall i | 0 <= i < |s.logs| ensures LogOk(t, i) {
      LogStays(s, t, i);
    }
  }

  lemma LogKeepsInv(s: System, w: Worker, stamp: Time)
    requires Inv(s) && IsConfigured(s, w)
    ensures Inv(NextLog(s, w, stamp))
  {
    var t, f := NextLog(s, w, stamp), s.underWay[w].findings;
    assert ProgressOk(s, s.underWay[w]);
    if f.opinion.hourNow <= stamp {
      assert Extends(s, t);
      AppendingKeepsLogs(s, t, f, stamp);
      forall v | v in t.underWay ensures ProgressOk(t, t.underWay[v]) {
        ProgressStays(s, t, s.underWay[v]);
      }
    }
  }

  lemma LoadHistoryStep(s: System, step: Step)
    requires Inv(s) && step.LoadHistory?
    ensures Inv(Next(s, step))
  {
    if step.request.tenantId in s.tenants {
      HistoryIsLoaded(s, step.request, step.reference);
      SettingKeepsInv(s, step.worker, HistoryLoaded(Load(s, step.request, step.reference)));
    }
  }

  lemma EvaluationStores(s: System, step: Step, loaded: Loaded)
    requires step.Evaluate? && HasLoaded(s, step.worker) && s.underWay[step.worker].loaded == loaded
    ensures Next(s, step) == s ||
      (loaded.reference <= step.riskNow <= step.policyNow <= step.hourNow
       && Next(s, step) == SetProgress(s, step.worker, Evaluated(loaded, Judge(s, loaded, step.riskNow, step.policyNow,
                                                                              step.hourNow))))
  {
  }

  lemma EvaluateStep(s: System, step: Step)
    requires Inv(s) && step.Evaluate?
    ensures Inv(Next(s, step))
  {
    if HasLoaded(s, step.worker) {
      var loaded := s.underWay[step.worker].loaded;
      EvaluationStores(s, step, loaded);
      if Next(s, step) != s {
        assert ProgressOk(s, s.underWay[step.worker]);
        EvaluateKeepsInv(s, step.worker, loaded, step.riskNow, step.policyNow, step.hourNow);
      }
    }
  }

  lemma LogStep(s: System, step: Step)
    requires Inv(s) && step.Log?
    ensures Inv(Next(s, step))
  {
    if IsConfigured(s, step.worker) { LogKeepsInv(s, step.worker, step.stamp); }
  }

  lemma RequestsKeepInv(s: System, step: Step)
    requires Inv(s) && (step.LoadHistory? || step.Evaluate? || step.LoadWorkflow? || step.Log? || step.Abandon?)
    ensures Inv(Next(s, step))
  {
    if step.LoadHistory? {
      LoadHistoryStep(s, step);
    } else if step.Evaluate? {
      EvaluateStep(s, step);
    } else if step.Log? {
      LogStep(s, step);
    } else if step.LoadWorkflow? {
      if IsEvaluated(s, step.worker) { ConfigureKeepsInv(s, step.worker); }
    } else {
      MovesOn(s, Forget(s, step.worker), step.worker);
    }
  }

  predicate IsChange(step: Step) {
    step.CreateTenant? || step.CreatePolicy? || step.ChangePolicy? || step.ChangeWorkflow?
  }

  lemma ChangesSpareRequests(s: System, step: Step)
    requires IsChange(step)
    ensures Next(s, step).logs == s.logs && Next(s, step).made == s.made && Next(s, step).underWay == s.underWay
  {
  }

  lemma UnchangedKeepsInv(s: System, t: System)
    requires Inv(s) && TablesOk(t) && Extends(s, t)
    requires t.logs == s.logs && t.made == s.made && t.underWay == s.underWay
    ensures Inv(t)
  {
    MovesOn(s, t, 0);
  }

  lemma ChangesKeepInv(s: System, step: Step)
    requires Inv(s) && IsChange(step)
    ensures Inv(Next(s, step))
  {
    NextKeepsTables(s, step);
    NextExtends(s, step);
    ChangesSpareRequests(s, step);
    UnchangedKeepsInv(s, Next(s, step));
  }

  lemma NextKeepsInv(s: System, step: Step)
    requires Inv(s)
    ensures Inv(Next(s, step))
  {
    if IsChange(step) { ChangesKeepInv(s, step); } else { RequestsKeepInv(s, step); }
  }

  lemma {:induction false} RunKeepsInv(s: System, run: seq<Step>)
    requires Inv(s)
    ensures Inv(Run(s, run))
  {
    if run != [] {
      RunKeepsInv(s, run[..|run| - 1]);
      NextKeepsInv(Run(s, run[..|run| - 1]), run[|run| - 1]);
    }
  }
}
