/**
  Whole requests: the transaction of `POST /request/access` together with what its decision goes by. A request
  that is past its cache loads the risk history, is evaluated and reads the workflow configuration step by step,
  and decides on these very findings; its commit writes the log that later histories and replays read.
 */
module RequestRuns {
  import opened Prelude
  import opened AuditLog
  import opened AccessProtocol
  import opened AccessSafety
  import opened AccessTokens
  import opened ReplayTheorem
  import opened ReplayFields
  import Audit = AuditReplay
  import ReplaySafety

  /** The request protocol, and the same system as the engines and the replay see it. */
  datatype Joint = Joint(access: State, audit: Audit.System)

  datatype JointStep =
    | Administer(change: Audit.Step)
    | Proceed(step: Step)
    | LoadHistory(worker: Worker, reference: Time)
    | Evaluate(worker: Worker, riskNow: Time, policyNow: Time, hourNow: Time)
    | LoadWorkflow(worker: Worker)
    | Decide(worker: Worker, stamp: Time)

  function BasisOf(f: Audit.Findings, stamp: Time): Basis {
    Basis(f.loaded.history, f.opinion.riskNow, f.opinion.policy, f.workflow, stamp)
  }

  function RequestIn(digest: Digest, s: State, w: Worker): Audit.Request
    requires SessionOf(s, w).Uncached?
  {
    RequestOf(digest, SessionOf(s, w).call, SessionOf(s, w).right)
  }

  /** The request of `w` has found out all that it decides on. */
  predicate MayDecide(digest: Digest, j: Joint, w: Worker, stamp: Time) {
    && SessionOf(j.access, w).Uncached? && Audit.IsConfigured(j.audit, w)
    && j.audit.underWay[w].findings.loaded.request == RequestIn(digest, j.access, w)
    && j.audit.underWay[w].findings.opinion.hourNow <= stamp
  }

  /** What a step of the request protocol means to the findings of its worker. */
  function AuditOf(w: Worker, before: Session, after: Session): seq<Audit.Step> {
    if before == after then []
    else if before.Reserved? && after.Stored? then [Audit.Log(w, before.row.createdAt)]
    else if after.Reserved? then []
    else [Audit.Abandon(w)]
  }

  /** The step of the request protocol that a joint step takes, if it takes one. */
  function AccessPart(digest: Digest, j: Joint, step: JointStep): seq<Step> {
    match step
    case Proceed(p) => if p.DecideRequest? then [] else [p]
    case Decide(w, stamp) =>
      if MayDecide(digest, j, w, stamp) then [DecideRequest(w, BasisOf(j.audit.underWay[w].findings, stamp))] else []
    case _ => []
  }

  /** The step of the engines' system that it takes, if it takes one. */
  function AuditPart(digest: Digest, j: Joint, step: JointStep): seq<Audit.Step> {
    match step
    case Administer(change) =>
      if change.CreatePolicy? || change.ChangePolicy? || change.ChangeWorkflow? then [change] else []
    case Proceed(p) =>
      if p.CreateTenant? then if p.monthlyQuota >= 1 then [Audit.CreateTenant(p.tenantId)] else []
      else if IsAdmin(p) || p.DecideRequest? then []
      else AuditOf(p.worker, SessionOf(j.access, p.worker), SessionOf(Next(digest, j.access, p), p.worker))
    case LoadHistory(w, reference) =>
      if SessionOf(j.access, w).Uncached? then [Audit.LoadHistory(w, RequestIn(digest, j.access, w), reference)] else []
    case Evaluate(w, riskNow, policyNow, hourNow) =>
      if SessionOf(j.access, w).Uncached? then [Audit.Evaluate(w, riskNow, policyNow, hourNow)] else []
    case LoadWorkflow(w) => if SessionOf(j.access, w).Uncached? then [Audit.LoadWorkflow(w)] else []
    case Decide(_, _) => []
  }

  function NextAccess(digest: Digest, s: State, part: seq<Step>): State {
    if part == [] then s else Next(digest, s, part[0])
  }

  function NextAudit(s: Audit.System, part: seq<Audit.Step>): Audit.System {
    if part == [] then s else Audit.Next(s, part[0])
  }

  function NextJoint(digest: Digest, j: Joint, step: JointStep): Joint {
    Joint(NextAccess(digest, j.access, AccessPart(digest, j, step)), NextAudit(j.audit, AuditPart(digest, j, step)))
  }

  function RunJoint(digest: Digest, run: seq<JointStep>): Joint {
    if run == [] then Joint(INITIAL, Audit.INITIAL)
    else NextJoint(digest, RunJoint(digest, run[..|run| - 1]), run[|run| - 1])
  }

  // ----- A joint run is a run of either system

  function AccessRun(digest: Digest, run: seq<JointStep>): seq<Step> {
    if run == [] then []
    else
      var front := run[..|run| - 1];
      AccessRun(digest, front) + AccessPart(digest, RunJoint(digest, front), run[|run| - 1])
  }

  function AuditRun(digest: Digest, run: seq<JointStep>): seq<Audit.Step> {
    if run == [] then []
    else
      var front := run[..|run| - 1];
      AuditRun(digest, front) + AuditPart(digest, RunJoint(digest, front), run[|run| - 1])
  }

  lemma PartsAreSteps(digest: Digest, j: Joint, step: JointStep)
    ensures |AccessPart(digest, j, step)| <= 1 && |AuditPart(digest, j, step)| <= 1
  {
  }

  lemma RunOneMore(digest: Digest, run: seq<Step>, part: seq<Step>)
    requires |part| <= 1
    ensures Run(digest, run + part) == NextAccess(digest, Run(digest, run), part)
  {
    if part == [] {
      assert run + part == run;
    } else {
      assert (run + part)[..|run + part| - 1] == run;
    }
  }

  lemma AuditOneMore(run: seq<Audit.Step>, part: seq<Audit.Step>)
    requires |part| <= 1
    ensures Audit.Run(Audit.INITIAL, run + part) == NextAudit(Audit.Run(Audit.INITIAL, run), part)
  {
    if part == [] {
      assert run + part == run;
    } else {
      assert (run + part)[..|run + part| - 1] == run;
    }
  }

  /** So whatever holds of all runs of the request protocol, or of all decisions and replays, holds here. */
  lemma {:induction false} JointRunsProject(digest: Digest, run: seq<JointStep>)
    ensures RunJoint(digest, run).access == Run(digest, AccessRun(digest, run))
    ensures RunJoint(digest, run).audit == Audit.Run(Audit.INITIAL, AuditRun(digest, run))
  {
    if run != [] {
      var front, last := run[..|run| - 1], run[|run| - 1];
      var j := RunJoint(digest, front);
      JointRunsProject(digest, front);
      PartsAreSteps(digest, j, last);
      RunOneMore(digest, AccessRun(digest, front), AccessPart(digest, j, last));
      AuditOneMore(AuditRun(digest, front), AuditPart(digest, j, last));
    }
  }

  // ----- Both keep the same logs

  /** The row of a decided request is made of the findings of its worker. */
  ghost predicate IsFounded(audit: Audit.System, w: Worker, row: RequestLog) {
    && Audit.IsConfigured(audit, w) && audit.underWay[w].findings.opinion.hourNow <= row.createdAt
    && row == Audit.LogFor(0, audit.underWay[w].findings, row.createdAt)
  }

  ghost predicate DecisionsFounded(j: Joint) {
    forall w :: w in j.access.sessions && (j.access.sessions[w].Judged? || j.access.sessions[w].Reserved?) ==>
      IsFounded(j.audit, w, j.access.sessions[w].row)
  }

  ghost predicate SameLogs(logs: seq<Entry>, rows: seq<RequestLog>) {
    |logs| == |rows| && forall i :: 0 <= i < |logs| ==> logs[i].row == rows[i]
  }

  /** Both keep the same logs, and decisions are founded. */
  ghost predicate RowsOk(j: Joint) {
    SameLogs(j.access.db.logs, j.audit.logs) && DecisionsFounded(j)
  }

  ghost predicate Linked(j: Joint) {
    && ReplaySafety.Inv(j.audit) && RowsOk(j)
    && j.access.db.tenants.Keys <= j.audit.tenants
  }

  /** Findings of other workers than `v` are as they were. */
  ghost predicate SparesOthers(s: Audit.System, t: Audit.System, v: Worker) {
    forall w :: w != v && w in s.underWay ==> w in t.underWay && t.underWay[w] == s.underWay[w]
  }

  lemma AuditIsOwn(s: Audit.System, step: Audit.Step)
    requires step.LoadHistory? || step.Evaluate? || step.LoadWorkflow? || step.Log? || step.Abandon?
    ensures SparesOthers(s, Audit.Next(s, step), step.worker)
    ensures !step.Log? ==> Audit.Next(s, step).logs == s.logs
  {
  }

  lemma AdminSparesFindings(s: Audit.System, step: Audit.Step)
    requires ReplaySafety.IsChange(step)
    ensures Audit.Next(s, step).underWay == s.underWay && Audit.Next(s, step).logs == s.logs
  {
  }

  /** One worker moves on in either system; its own decision, if it has one, is founded. */
  lemma OneMovesOn(j: Joint, k: Joint, w: Worker)
    requires DecisionsFounded(j) && OnlySessionOf(j.access, k.access, w) && SparesOthers(j.audit, k.audit, w)
    requires SessionOf(k.access, w).Judged? || SessionOf(k.access, w).Reserved? ==>
      IsFounded(k.audit, w, SessionOf(k.access, w).row)
    ensures DecisionsFounded(k)
  {
  }

  /** What the steps of a request do to its row and to the logs. */
  ghost predicate RowsGo(s: State, t: State, w: Worker) {
    var before, after := SessionOf(s, w), SessionOf(t, w);
    && (after.Judged? ==> after == before)
    && (after.Reserved? && after != before ==> before.Judged? && after.row == before.row)
    && (if before.Reserved? && after.Stored? then
          |t.db.logs| == |s.db.logs| + 1 && t.db.logs[..|s.db.logs|] == s.db.logs
          && t.db.logs[|s.db.logs|].row == before.row.(id := |s.db.logs|)
        else t.db.logs == s.db.logs)
  }

  lemma EarlyStepsMoveRows(digest: Digest, s: State, step: Step)
    requires IsEarly(step) && !step.DecideRequest?
    ensures RowsGo(s, Next(digest, s, step), step.worker)
  {
    match step
    case Authenticate(w, api, now) =>
    case ReadRight(w) =>
    case Lookup(w) =>
    case MarkToken(w, now) =>
    case ConsultCache(w, now) =>
  }

  lemma LateStepsMoveRows(digest: Digest, s: State, step: Step)
    requires !IsAdmin(step) && !IsEarly(step)
    ensures RowsGo(s, Next(digest, s, step), step.worker)
  {
    match step
    case Reserve(w) =>
    case Commit(w) =>
    case Remember(w, now, lifetime) =>
    case FindWinner(w) =>
    case ReadForRevoke(w, key) =>
    case CommitRevoke(w) =>
    case Fail(w) =>
    case Crash(w) =>
  }

  lemma RequestsMoveRows(digest: Digest, s: State, step: Step)
    requires !IsAdmin(step) && !step.DecideRequest?
    ensures RowsGo(s, Next(digest, s, step), step.worker)
  {
    if IsEarly(step) { EarlyStepsMoveRows(digest, s, step); } else { LateStepsMoveRows(digest, s, step); }
  }

  lemma LoggedRow(id: nat, f: Audit.Findings, row: RequestLog)
    requires row == Audit.LogFor(0, f, row.createdAt)
    ensures row.(id := id) == Audit.LogFor(id, f, row.createdAt)
  {
  }

  lemma FoundedLogs(audit: Audit.System, w: Worker, row: RequestLog)
    requires IsFounded(audit, w, row)
    ensures Audit.Next(audit, Audit.Log(w, row.createdAt)).logs == audit.logs + [row.(id := |audit.logs|)]
  {
    LoggedRow(|audit.logs|, audit.underWay[w].findings, row);
  }

  lemma LogsGrowAlike(logs: seq<Entry>, rows: seq<RequestLog>, more: seq<Entry>, row: RequestLog)
    requires SameLogs(logs, rows) && |more| == |logs| + 1 && more[..|logs|] == logs
    requires more[|logs|].row == row.(id := |logs|)
    ensures SameLogs(more, rows + [row.(id := |rows|)])
  {
    forall i | 0 <= i < |logs| ensures more[i].row == rows[i] {
      assert more[..|logs|][i] == logs[i];
    }
  }

  /** A commit that stores its log does so in both systems. */
  lemma StoringKeepsLogs(s: State, t: State, audit: Audit.System, w: Worker, row: RequestLog)
    requires SameLogs(s.db.logs, audit.logs) && IsFounded(audit, w, row)
    requires |t.db.logs| == |s.db.logs| + 1 && t.db.logs[..|s.db.logs|] == s.db.logs
    requires t.db.logs[|s.db.logs|].row == row.(id := |s.db.logs|)
    ensures SameLogs(t.db.logs, Audit.Next(audit, Audit.Log(w, row.createdAt)).logs)
  {
    FoundedLogs(audit, w, row);
    LogsGrowAlike(s.db.logs, audit.logs, t.db.logs, row);
  }

  lemma ProceedKeepsLogs(s: State, t: State, audit: Audit.System, w: Worker)
    requires SameLogs(s.db.logs, audit.logs) && RowsGo(s, t, w)
    requires SessionOf(s, w).Reserved? ==> IsFounded(audit, w, SessionOf(s, w).row)
    ensures SameLogs(t.db.logs, NextAudit(audit, AuditOf(w, SessionOf(s, w), SessionOf(t, w))).logs)
  {
    if SessionOf(s, w).Reserved? && SessionOf(t, w).Stored? {
      StoringKeepsLogs(s, t, audit, w, SessionOf(s, w).row);
    }
  }

  lemma ProceedKeepsFounded(digest: Digest, j: Joint, k: Joint, p: Step)
    requires Linked(j) && !IsAdmin(p) && !p.DecideRequest? && RowsGo(j.access, k.access, p.worker)
    requires OnlySessionOf(j.access, k.access, p.worker)
    requires k.audit == NextAudit(j.audit, AuditOf(p.worker, SessionOf(j.access, p.worker),
                                                   SessionOf(k.access, p.worker)))
    ensures DecisionsFounded(k)
  {
    var w := p.worker;
    AuditIsOwn(j.audit, Audit.Abandon(w));
    if SessionOf(j.access, w).Reserved? {
      AuditIsOwn(j.audit, Audit.Log(w, SessionOf(j.access, w).row.createdAt));
    }
    OneMovesOn(j, k, w);
  }

  lemma ProceedKeepsLinked(digest: Digest, j: Joint, p: Step)
    requires Linked(j) && !IsAdmin(p) && !p.DecideRequest?
    ensures RowsOk(NextJoint(digest, j, Proceed(p)))
  {
    var k := NextJoint(digest, j, Proceed(p));
    RequestsMoveRows(digest, j.access, p);
    StepsAreOwn(digest, j.access, p);
    ProceedKeepsLogs(j.access, k.access, j.audit, p.worker);
    ProceedKeepsFounded(digest, j, k, p);
  }

  lemma AdminKeepsLinked(digest: Digest, j: Joint, p: Step)
    requires Linked(j) && IsAdmin(p)
    ensures RowsOk(NextJoint(digest, j, Proceed(p)))
  {
    AdminStepGrows(digest, j.access, p);
    if p.CreateTenant? { AdminSparesFindings(j.audit, Audit.CreateTenant(p.tenantId)); }
  }

  lemma FindingKeepsLinked(j: Joint, step: Audit.Step)
    requires Linked(j) && (step.LoadHistory? || step.Evaluate? || step.LoadWorkflow?)
    requires SessionOf(j.access, step.worker).Uncached?
    ensures RowsOk(j.(audit := Audit.Next(j.audit, step)))
  {
    AuditIsOwn(j.audit, step);
    OneMovesOn(j, j.(audit := Audit.Next(j.audit, step)), step.worker);
  }

  /** The decision goes by the risk that its worker was evaluated with. */
  lemma DecisionIsFounded(digest: Digest, j: Joint, w: Worker, stamp: Time)
    requires ReplaySafety.Inv(j.audit) && MayDecide(digest, j, w, stamp)
    ensures
      var me := Judge(digest, SessionOf(j.access, w).call, SessionOf(j.access, w).right,
                      BasisOf(j.audit.underWay[w].findings, stamp));
      me.Judged? && IsFounded(j.audit, w, me.row)
  {
    assert ReplaySafety.ProgressOk(j.audit, j.audit.underWay[w]);
  }

  lemma DecideKeepsLinked(digest: Digest, j: Joint, w: Worker, stamp: Time)
    requires Linked(j) && MayDecide(digest, j, w, stamp)
    ensures
      var t := NextDecide(digest, j.access, w, BasisOf(j.audit.underWay[w].findings, stamp));
      t.db == j.access.db && DecisionsFounded(j.(access := t))
  {
    DecisionIsFounded(digest, j, w, stamp);
    var t := NextDecide(digest, j.access, w, BasisOf(j.audit.underWay[w].findings, stamp));
    OneMovesOn(j, j.(access := t), w);
  }

  lemma AuditKeepsInv(s: Audit.System, part: seq<Audit.Step>)
    requires ReplaySafety.Inv(s)
    ensures ReplaySafety.Inv(NextAudit(s, part)) && s.tenants <= NextAudit(s, part).tenants
  {
    if part != [] {
      ReplaySafety.NextKeepsInv(s, part[0]);
      ReplaySafety.NextExtends(s, part[0]);
    }
  }

  lemma CommitCreatesNoTenant(db: Database, me: Session)
    requires me.Reserved? && (me.row.allowed ==> KeyOf(me.call) in db.rights)
    ensures Written(db, me).tenants.Keys == db.tenants.Keys
  {
  }

  lemma OnlyTenantsAreCreated(digest: Digest, s: State, step: Step)
    ensures Next(digest, s, step).db.tenants.Keys
      <= s.db.tenants.Keys + if step.CreateTenant? && step.monthlyQuota >= 1 then {step.tenantId} else {}
  {
    if step.Commit? && Commits(s, step.worker) {
      CommitCreatesNoTenant(s.db, SessionOf(s, step.worker));
    }
  }

  lemma TenantsAreCreatedInBoth(digest: Digest, j: Joint, step: JointStep)
    ensures
      var part := AccessPart(digest, j, step);
      part != [] && part[0].CreateTenant? && part[0].monthlyQuota >= 1 ==>
        AuditPart(digest, j, step) == [Audit.CreateTenant(part[0].tenantId)]
  {
  }

  lemma TenantsStayKnown(digest: Digest, s: State, audit: Audit.System, part: seq<Step>, auditPart: seq<Audit.Step>)
    requires s.db.tenants.Keys <= audit.tenants && ReplaySafety.Inv(audit)
    requires part != [] && part[0].CreateTenant? && part[0].monthlyQuota >= 1 ==>
      auditPart == [Audit.CreateTenant(part[0].tenantId)]
    ensures NextAccess(digest, s, part).db.tenants.Keys <= NextAudit(audit, auditPart).tenants
  {
    AuditKeepsInv(audit, auditPart);
    if part != [] { OnlyTenantsAreCreated(digest, s, part[0]); }
  }

  lemma FindingKeepsRows(digest: Digest, j: Joint, step: JointStep)
    requires Linked(j) && (step.LoadHistory? || step.Evaluate? || step.LoadWorkflow?)
    ensures RowsOk(NextJoint(digest, j, step))
  {
    var part := AuditPart(digest, j, step);
    assert NextJoint(digest, j, step) == j.(audit := NextAudit(j.audit, part));
    if part != [] { FindingKeepsLinked(j, part[0]); }
  }

  lemma DecideKeepsRows(digest: Digest, j: Joint, step: JointStep)
    requires Linked(j) && step.Decide?
    ensures RowsOk(NextJoint(digest, j, step))
  {
    var part := AccessPart(digest, j, step);
    assert NextJoint(digest, j, step) == j.(access := NextAccess(digest, j.access, part));
    if part != [] {
      DecidingStep(digest, j.access, part[0]);
      DecideKeepsLinked(digest, j, step.worker, step.stamp);
    }
  }

  lemma NextKeepsRows(digest: Digest, j: Joint, step: JointStep)
    requires Linked(j)
    ensures RowsOk(NextJoint(digest, j, step))
  {
    if step.Decide? {
      DecideKeepsRows(digest, j, step);
    } else if step.LoadHistory? || step.Evaluate? || step.LoadWorkflow? {
      FindingKeepsRows(digest, j, step);
    } else if step.Administer? {
      if ReplaySafety.IsChange(step.change) { AdminSparesFindings(j.audit, step.change); }
    } else if IsAdmin(step.step) {
      AdminKeepsLinked(digest, j, step.step);
    } else if !step.step.DecideRequest? {
      ProceedKeepsLinked(digest, j, step.step);
    }
  }

  lemma NextKeepsLinked(digest: Digest, j: Joint, step: JointStep)
    requires Linked(j)
    ensures Linked(NextJoint(digest, j, step))
  {
    NextKeepsRows(digest, j, step);
    AuditKeepsInv(j.audit, AuditPart(digest, j, step));
    TenantsAreCreatedInBoth(digest, j, step);
    TenantsStayKnown(digest, j.access, j.audit, AccessPart(digest, j, step), AuditPart(digest, j, step));
  }

  lemma {:induction false} RunKeepsLinked(digest: Digest, run: seq<JointStep>)
    ensures Linked(RunJoint(digest, run))
  {
    if run == [] {
      InitiallyInv();
    } else {
      RunKeepsLinked(digest, run[..|run| - 1]);
      NextKeepsLinked(digest, RunJoint(digest, run[..|run| - 1]), run[|run| - 1]);
    }
  }

  // ----- A request can always decide

  function Finding(w: Worker, reference: Time, riskNow: Time, policyNow: Time, hourNow: Time,
                   stamp: Time): seq<JointStep> {
    [LoadHistory(w, reference)] + [Evaluate(w, riskNow, policyNow, hourNow)] + [LoadWorkflow(w)] + [Decide(w, stamp)]
  }

  /** The run leads to this state. (The quantifier keeps proofs from unfolding runs where they need not.) */
  ghost predicate ReachesJoint(digest: Digest, run: seq<JointStep>, j: Joint) {
    forall r :: r == run ==> RunJoint(digest, r) == j
  }

  lemma JointStepOn(digest: Digest, run: seq<JointStep>, j: Joint, step: JointStep)
    requires ReachesJoint(digest, run, j)
    ensures ReachesJoint(digest, run + [step], NextJoint(digest, j, step))
  {
    assert (run + [step])[..|run + [step]| - 1] == run;
    assert RunJoint(digest, run) == j;
  }

  /** The findings of `w` go as far as this. */
  ghost predicate HasFound(s: State, k: Joint, w: Worker, progress: Audit.Progress) {
    k.access == s && w in k.audit.underWay && k.audit.underWay[w] == progress
  }

  lemma HistoryGetsLoaded(digest: Digest, j: Joint, w: Worker, reference: Time)
    requires SessionOf(j.access, w).Uncached? && SessionOf(j.access, w).call.api.tenantId in j.audit.tenants
    ensures HasFound(j.access, NextJoint(digest, j, LoadHistory(w, reference)), w,
                     Audit.HistoryLoaded(Audit.Load(j.audit, RequestIn(digest, j.access, w), reference)))
  {
  }

  lemma AuditEvaluates(s: Audit.System, w: Worker, loaded: Audit.Loaded, riskNow: Time, policyNow: Time, hourNow: Time)
    requires w in s.underWay && s.underWay[w] == Audit.HistoryLoaded(loaded)
    requires loaded.reference <= riskNow <= policyNow <= hourNow
    ensures Audit.Next(s, Audit.Evaluate(w, riskNow, policyNow, hourNow))
         == Audit.SetProgress(s, w, Audit.Evaluated(loaded, Audit.Judge(s, loaded, riskNow, policyNow, hourNow)))
  {
  }

  lemma EvaluationTakesPlace(digest: Digest, j: Joint, w: Worker, loaded: Audit.Loaded, riskNow: Time, policyNow: Time,
                             hourNow: Time)
    requires SessionOf(j.access, w).Uncached? && HasFound(j.access, j, w, Audit.HistoryLoaded(loaded))
    requires loaded.reference <= riskNow <= policyNow <= hourNow
    ensures HasFound(j.access, NextJoint(digest, j, Evaluate(w, riskNow, policyNow, hourNow)), w,
                     Audit.Evaluated(loaded, Audit.Judge(j.audit, loaded, riskNow, policyNow, hourNow)))
  {
    AuditEvaluates(j.audit, w, loaded, riskNow, policyNow, hourNow);
  }

  lemma WorkflowGetsLoaded(digest: Digest, j: Joint, w: Worker, loaded: Audit.Loaded, opinion: Audit.Opinion)
    requires SessionOf(j.access, w).Uncached? && HasFound(j.access, j, w, Audit.Evaluated(loaded, opinion))
    ensures
      var workflow := Audit.WorkflowOf(j.audit.workflows, loaded.request.tenantId);
      HasFound(j.access, NextJoint(digest, j, LoadWorkflow(w)), w,
               Audit.Configured(Audit.Findings(loaded, opinion, workflow)))
  {
  }

  lemma StampIsKept(digest: Digest, s: State, w: Worker, basis: Basis)
    requires SessionOf(s, w).Uncached?
    ensures
      var me := SessionOf(NextDecide(digest, s, w, basis), w);
      me.Judged? && me.row.createdAt == basis.stamp
  {
  }

  lemma DecisionIsTaken(digest: Digest, j: Joint, w: Worker, f: Audit.Findings, stamp: Time)
    requires SessionOf(j.access, w).Uncached? && HasFound(j.access, j, w, Audit.Configured(f))
    requires f.loaded.request == RequestIn(digest, j.access, w) && f.opinion.hourNow <= stamp
    ensures
      var me := SessionOf(NextJoint(digest, j, Decide(w, stamp)).access, w);
      me.Judged? && me.row.createdAt == stamp
  {
    assert AccessPart(digest, j, Decide(w, stamp)) == [DecideRequest(w, BasisOf(f, stamp))];
    DecidingStep(digest, j.access, DecideRequest(w, BasisOf(f, stamp)));
    StampIsKept(digest, j.access, w, BasisOf(f, stamp));
  }

  lemma TenantExists(digest: Digest, run: seq<Step>, w: Worker)
    requires SessionOf(Run(digest, run), w).Uncached?
    ensures SessionOf(Run(digest, run), w).call.api.tenantId in Run(digest, run).db.tenants
  {
    AccessSafety.RunKeepsInv(digest, run);
    WorkerIsOk(digest, Run(digest, run), w);
  }

  lemma TenantIsKnown(digest: Digest, run: seq<JointStep>, w: Worker)
    requires SessionOf(RunJoint(digest, run).access, w).Uncached?
    ensures SessionOf(RunJoint(digest, run).access, w).call.api.tenantId in RunJoint(digest, run).audit.tenants
  {
    assert Linked(RunJoint(digest, run)) by { RunKeepsLinked(digest, run); }
    JointRunsProject(digest, run);
    TenantExists(digest, AccessRun(digest, run), w);
  }

  lemma FindingsAreMade(digest: Digest, run: seq<JointStep>, j: Joint, w: Worker, reference: Time, riskNow: Time,
                        policyNow: Time, hourNow: Time) returns (k: Joint, f: Audit.Findings)
    requires ReachesJoint(digest, run, j) && reference <= riskNow <= policyNow <= hourNow
    requires SessionOf(j.access, w).Uncached? && SessionOf(j.access, w).call.api.tenantId in j.audit.tenants
    ensures ReachesJoint(digest, run + [LoadHistory(w, reference)] + [Evaluate(w, riskNow, policyNow, hourNow)]
                                 + [LoadWorkflow(w)], k)
    ensures HasFound(j.access, k, w, Audit.Configured(f))
    ensures f.loaded.request == RequestIn(digest, j.access, w) && f.opinion.hourNow == hourNow
  {
    var loaded := Audit.Load(j.audit, RequestIn(digest, j.access, w), reference);
    var a := NextJoint(digest, j, LoadHistory(w, reference));
    JointStepOn(digest, run, j, LoadHistory(w, reference));
    HistoryGetsLoaded(digest, j, w, reference);
    var b := NextJoint(digest, a, Evaluate(w, riskNow, policyNow, hourNow));
    JointStepOn(digest, run + [LoadHistory(w, reference)], a, Evaluate(w, riskNow, policyNow, hourNow));
    EvaluationTakesPlace(digest, a, w, loaded, riskNow, policyNow, hourNow);
    var opinion := Audit.Judge(a.audit, loaded, riskNow, policyNow, hourNow);
    k := NextJoint(digest, b, LoadWorkflow(w));
    JointStepOn(digest, run + [LoadHistory(w, reference)] + [Evaluate(w, riskNow, policyNow, hourNow)], b,
                LoadWorkflow(w));
    WorkflowGetsLoaded(digest, b, w, loaded, opinion);
    f := Audit.Findings(loaded, opinion, Audit.WorkflowOf(b.audit.workflows, loaded.request.tenantId));
  }

  lemma DecidesFrom(digest: Digest, run: seq<JointStep>, j: Joint, w: Worker, reference: Time, riskNow: Time,
                    policyNow: Time, hourNow: Time, stamp: Time) returns (k: Joint)
    requires ReachesJoint(digest, run, j) && reference <= riskNow <= policyNow <= hourNow <= stamp
    requires SessionOf(j.access, w).Uncached? && SessionOf(j.access, w).call.api.tenantId in j.audit.tenants
    ensures ReachesJoint(digest, run + Finding(w, reference, riskNow, policyNow, hourNow, stamp), k)
    ensures SessionOf(k.access, w).Judged? && SessionOf(k.access, w).row.createdAt == stamp
  {
    var c, f := FindingsAreMade(digest, run, j, w, reference, riskNow, policyNow, hourNow);
    var third := run + [LoadHistory(w, reference)] + [Evaluate(w, riskNow, policyNow, hourNow)] + [LoadWorkflow(w)];
    JointStepOn(digest, third, c, Decide(w, stamp));
    DecisionIsTaken(digest, c, w, f, stamp);
    k := NextJoint(digest, c, Decide(w, stamp));
    assert third + [Decide(w, stamp)] == run + Finding(w, reference, riskNow, policyNow, hourNow, stamp);
  }

  /**
    A request that is past its cache can always find out what it decides on: with clock readings in order, four
    steps of its own lead to its decision, stamped with the last.
   */
  lemma RequestsCanDecide(digest: Digest, run: seq<JointStep>, w: Worker, reference: Time, riskNow: Time,
                          policyNow: Time, hourNow: Time, stamp: Time)
    requires SessionOf(RunJoint(digest, run).access, w).Uncached?
    requires reference <= riskNow <= policyNow <= hourNow <= stamp
    ensures
      var me := SessionOf(RunJoint(digest, run + Finding(w, reference, riskNow, policyNow, hourNow, stamp)).access, w);
      me.Judged? && me.row.createdAt == stamp
  {
    TenantIsKnown(digest, run, w);
    var k := DecidesFrom(digest, run, RunJoint(digest, run), w, reference, riskNow, policyNow, hourNow, stamp);
  }

  // ----- Its log can be replayed

  /**
    Every log of the request protocol can be replayed, and the comparison tells exactly whether it still
    matches, by what its own request had found.
   */
  lemma RequestsReplayExactly(digest: Digest, run: seq<JointStep>, i: nat)
    requires i < |RunJoint(digest, run).access.db.logs|
    ensures
      var j := RunJoint(digest, run);
      && i < |j.audit.logs| && j.audit.logs[i] == j.access.db.logs[i].row
      && i < |j.audit.made| && j.audit.made[i].loaded.seen <= |j.audit.logs|
      && j.audit.logs[i] == Audit.LogFor(i, j.audit.made[i], j.audit.logs[i].createdAt)
      && Audit.ReplayAuditLog(j.audit, i).Replayed?
      && TellsExactly(j.audit, i, Audit.ReplayAuditLog(j.audit, i).comparison)
  {
    RunKeepsLinked(digest, run);
    LogsAreReplayed(RunJoint(digest, run).audit, i);
    ReplayTellsExactly(RunJoint(digest, run).audit, i);
  }

  /** What each log of a request says, and what its replay reports, field by field. */
  lemma RequestsTellTheirDecisions(digest: Digest, run: seq<JointStep>, i: nat)
    requires i < |RunJoint(digest, run).access.db.logs|
    ensures
      var j := RunJoint(digest, run);
      var replay := Audit.ReplayAuditLog(j.audit, i);
      && i < |j.audit.logs| && i < |j.audit.made| && j.audit.logs[i] == j.access.db.logs[i].row
      && (exists logs :: LogTold(j.audit, i, logs)) && replay.Replayed?
      && exists risk, policy :: Recomputed(j.audit, i, risk, policy)
           && FieldsTell(replay.comparison, j.audit.logs[i], j.audit.made[i], risk, policy)
  {
    RequestsReplayExactly(digest, run, i);
    JointRunsProject(digest, run);
    EveryLogTells(AuditRun(digest, run), i);
    ReplayTellsEachField(AuditRun(digest, run), i);
  }
}
