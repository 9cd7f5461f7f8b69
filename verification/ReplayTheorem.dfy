/** When replaying a log gives back its decision, whatever happened to policies and workflows since. */
module ReplayTheorem {
  import opened Prelude
  import opened Sorting
  import opened CommaLists
  import opened AuditLog
  import opened RiskEngine
  import opened RiskHistory
  import opened PolicyEngine
  import opened PolicySelection
  import opened WorkflowEngine
  import opened PolicyStore
  import Store = VersionedStore
  import opened AuditReplay
  import opened ReplaySafety

  // ----- The condition

  /** The logs a request took into account, in time order. */
  function SeenRows(s: System, f: Findings): seq<RequestLog>
    requires f.loaded.seen <= |s.logs|
  {
    var r := f.loaded.request;
    Sort(RowLeq, Eligible(s.logs[..f.loaded.seen], r.tenantId, r.rightId, f.loaded.reference, false))
  }

  /** The logs its replay takes into account. */
  function RowsBefore(s: System, log: RequestLog): seq<RequestLog> {
    Sort(RowLeq, Eligible(s.logs, log.tenantId, log.rightId, log.createdAt, true))
  }

  /** They raise the same signals, each at the time at which they are looked at. */
  ghost predicate SignalsRecur(s: System, i: nat)
    requires i < |s.logs| && i < |s.made| && s.made[i].loaded.seen <= |s.logs|
  {
    SameFacts(RiskQueryOf(s.made[i].loaded.request), SeenRows(s, s.made[i]), s.made[i].opinion.riskNow,
              RowsBefore(s, s.logs[i]), s.logs[i].createdAt)
  }

  /** A policy in force before is still so at `stamp`. */
  predicate StillOpen(p: Policy, stamp: Time) {
    && (p.expiresAt.Some? ==> stamp <= p.expiresAt.value)
    && (p.allowedStartHour.Some? || p.allowedEndHour.Some? ==>
          HourAllowed(p.allowedStartHour, p.allowedEndHour, HourOf(stamp)))
  }

  /** The version that decided, if one did, was still open when the log was stamped. */
  predicate PolicyHeld(s: System, log: RequestLog) {
    log.policyId.Some? && log.policyVersion.Some? ==>
      var p := PolicyFor(s, log.tenantId, log.policyId.value, log.policyVersion.value);
      p.Some? && StillOpen(p.value, log.createdAt)
  }

  // ----- Risk

  lemma IdsAreIndices(s: System)
    requires LogsOk(s)
    ensures DistinctIds(s.logs) && forall n :: 0 <= n <= |s.logs| ==> DistinctIds(s.logs[..n])
  {
    assert forall i :: 0 <= i < |s.logs| ==> LogOk(s, i) && s.logs[i].id == i;
  }

  /** The truncated history decides as all eligible rows, in time order, do. */
  lemma RiskOnRows(table: seq<RequestLog>, tenant: string, right: string, reference: Time, strict: bool,
                   q: RiskQuery, now: Time)
    requires DistinctIds(table) && now >= reference
    ensures Risk(q, History(table, tenant, right, reference, strict), now)
         == RiskEngine.DecisionOf(SignalsOf(q, Sort(RowLeq, Eligible(table, tenant, right, reference, strict)), now))
  {
    var rows := Eligible(table, tenant, right, reference, strict);
    TruncatedHistoryIsExact(table, tenant, right, reference, strict, q, now,
                            History(table, tenant, right, reference, strict), rows);
    KeepsDistinctIds(table, InScope(tenant, right, reference, strict));
    SortsAgree(rows);
  }

  lemma DecisionsHaveSignals(signals: seq<Signal>)
    ensures RiskEngine.DecisionOf(signals).signals == signals
  {
  }

  /** The risk that the replay of log `i` computes. */
  function ReplayedRisk(s: System, i: nat): RiskDecision
    requires i < |s.logs| && i < |s.made|
  {
    var r := s.made[i].loaded.request;
    Risk(RiskQueryOf(r), History(s.logs, r.tenantId, r.rightId, s.logs[i].createdAt, true), s.logs[i].createdAt)
  }

  /** The replay computes the signals, and then the risk, of the decision exactly when the facts are the same. */
  lemma RiskRecursExactlyWhen(s: System, i: nat)
    requires LogsOk(s) && i < |s.logs|
    ensures LogOk(s, i)
    ensures s.made[i].opinion.risk.signals == ReplayedRisk(s, i).signals <==> SignalsRecur(s, i)
    ensures SignalsRecur(s, i) ==> ReplayedRisk(s, i) == s.made[i].opinion.risk
  {
    assert LogOk(s, i);
    IdsAreIndices(s);
    var f, stamp := s.made[i], s.logs[i].createdAt;
    var r := f.loaded.request;
    RiskOnRows(s.logs[..f.loaded.seen], r.tenantId, r.rightId, f.loaded.reference, false, RiskQueryOf(r),
               f.opinion.riskNow);
    RiskOnRows(s.logs, r.tenantId, r.rightId, stamp, true, RiskQueryOf(r), stamp);
    DecisionsHaveSignals(SignalsOf(RiskQueryOf(r), SeenRows(s, f), f.opinion.riskNow));
    DecisionsHaveSignals(SignalsOf(RiskQueryOf(r), RowsBefore(s, s.logs[i]), stamp));
    SignalsAgreeExactlyWhen(RiskQueryOf(r), SeenRows(s, f), f.opinion.riskNow, RowsBefore(s, s.logs[i]), stamp);
  }

  lemma NamesAreListable(signals: seq<Signal>)
    ensures Signals(Join(Names(signals))) == Names(signals)
  {
    forall i | 0 <= i < |signals| ensures CommaFree(Name(signals[i])) && Name(signals[i]) != "" {
    }
    SignalsOfJoin(Names(signals));
  }

  // ----- An overridden decision is always noticed

  predicate TransferReason(reason: string) {
    |reason| >= 2 && (reason[..2] == "mi" || reason[..2] == "sa")
  }

  lemma {:induction false} ReasonsStartWithFirst(names: seq<string>)
    requires names != []
    ensures names[0] <= Reasons(names)
  {
    if |names| > 1 {
      ReasonsStartWithFirst(names[..|names| - 1]);
    }
  }

  lemma NamesAreNoTransferReason(signal: Signal)
    ensures |Name(signal)| >= 2 && Name(signal)[..2] != "mi" && Name(signal)[..2] != "sa"
  {
    assert Name(signal)[0] != 'm';
    assert Name(signal)[0] == 's' ==> Name(signal)[1] == 'e';
  }

  lemma RiskReasonIsNoTransferReason(signals: seq<Signal>)
    ensures !TransferReason(RiskEngine.DecisionOf(signals).reason)
  {
    var reason := RiskEngine.DecisionOf(signals).reason;
    if signals != [] {
      ReasonsStartWithFirst(Names(signals));
      NamesAreNoTransferReason(signals[0]);
      var name := Name(signals[0]);
      assert reason[..2] == name[..2];
    } else {
      assert reason == "allowed";
      assert reason[..2] == "al";
    }
  }

  lemma PolicyReasonIsNoTransferReason(p: Policy)
    ensures !TransferReason(PolicyEngine.DecisionOf(p).reason)
  {
    var reason := PolicyEngine.DecisionOf(p).reason;
    assert reason[0] == 'p';
    assert |reason| >= 2 ==> reason[..2][0] == reason[0];
  }

  lemma OwnershipReasons()
    ensures TransferReason("missing_new_owner_id") && TransferReason("same_owner")
  {
    assert "missing_new_owner_id"[..2] == "mi";
    assert "same_owner"[..2] == "sa";
  }

  /**
    What a comparison says of a decision that the ownership rule did or did not override, the engines having
    said `allowed`.
   */
  predicate Faithful(c: Comparison, overridden: bool, allowed: bool) {
    && (c.AllMatch() <==> !overridden)
    && (c.reasonMatch <==> !overridden)
    && (c.decisionMatch <==> !(overridden && allowed))
    && (c.decisionPathMatch <==> !(overridden && allowed))
    && c.riskScoreMatch && c.riskSignalsMatch && c.policyMatch && c.policyVersionMatch && c.decisionSourceMatch
  }

  /** Comparing a decision's log with the inputs of that decision. */
  lemma CompareWithItself(id: nat, r: Request, risk: RiskDecision, policy: PolicyDecision,
                          workflow: Option<Store.Row<WorkflowConfig>>, now: Time)
    requires !TransferReason(ReasonFor(risk, policy))
    ensures Faithful(Compare(LogOf(id, r, risk, policy, workflow, now), risk, policy, ConfigIn(workflow)),
                     OwnershipVerdict(r).Some?, ResolveAllowed(risk.allow, policy.matched, policy.allow))
  {
    NamesAreListable(risk.signals);
    OwnershipReasons();
    var config, allowed := ConfigIn(workflow), ResolveAllowed(risk.allow, policy.matched, policy.allow);
    PathParts(config, risk.allow, policy.matched, allowed);
    PathParts(config, risk.allow, policy.matched, false);
  }

  // ----- Policy and workflow

  /** The deciding policy is found again by id and version. */
  lemma PolicyIsFound(s: System, tenant: string, policy: PolicyDecision, q: Query) returns (p: Policy)
    requires Store.Inv(s.policies) && q.now.Some? && policy.matched && IsBacked(s.policies, tenant, policy, q)
    ensures policy == PolicyEngine.DecisionOf(p) && Applicable(p, q)
    ensures policy.policyId.Some? && policy.policyVersion.Some?
    ensures PolicyFor(s, tenant, policy.policyId.value, policy.policyVersion.value) == Some(p)
  {
    var id, row :| Store.Recorded(s.policies, id, row) && row.content.tenantId == tenant
                   && policy == PolicyEngine.DecisionOf(ToPolicy(id, row)) && Applicable(ToPolicy(id, row), q);
    p := ToPolicy(id, row);
    RecordedPolicyIsLoaded(s.policies, id, row);
  }

  /** The workflow configuration in force at a decision is found again by its version. */
  lemma WorkflowIsFound(s: System, tenant: string, row: Store.Row<WorkflowConfig>)
    requires Store.Inv(s.workflows) && Store.Recorded(s.workflows, tenant, row)
    ensures WorkflowFor(s, tenant, row.version) == Some(row.content)
  {
    Store.RecordsAreLoaded(s.workflows, tenant, row);
  }

  /** A policy that applied goes on to apply to the same risk until it expires or closes for the hour. */
  lemma AppliesWhileOpen(p: Policy, r: Request, risk: RiskDecision, now: Time, hourNow: Time, stamp: Time)
    requires Applicable(p, PolicyQueryOf(r, risk, now, hourNow)) && now <= stamp
    ensures Applicable(p, PolicyQueryOf(r, risk, stamp, stamp)) <==> StillOpen(p, stamp)
  {
  }

  lemma DecidesAlone(p: Policy, q: Query)
    requires q.now.Some?
    ensures DecidedBy([p], q) == if Applicable(p, q) then PolicyEngine.DecisionOf(p) else NO_MATCH
  {
    LeastApplicableDecides([p], q);
    if Applicable(p, q) {
      assert p in [p] && Wins(p, [p], q);
      WinnerDecidesAlone([p], q, p);
    }
  }

  /** What a replay puts to the policy engine: the version that decided, if one did. */
  function ReplayedPolicies(s: System, tenant: string, policy: PolicyDecision): seq<Policy> {
    if policy.policyId.None? || policy.policyVersion.None? then []
    else
      var found := PolicyFor(s, tenant, policy.policyId.value, policy.policyVersion.value);
      if found.Some? then [found.value] else []
  }

  /** On the same risk, the version that decided decides again exactly if it is still open. */
  lemma PolicyRecursExactlyWhen(s: System, r: Request, risk: RiskDecision, policy: PolicyDecision, now: Time,
                                hourNow: Time, stamp: Time)
    requires Store.Inv(s.policies) && now <= stamp
    requires IsBacked(s.policies, r.tenantId, policy, PolicyQueryOf(r, risk, now, hourNow))
    ensures
      var replayed := DecidedBy(ReplayedPolicies(s, r.tenantId, policy), PolicyQueryOf(r, risk, stamp, stamp));
      var held := policy.policyId.Some? && policy.policyVersion.Some? ==>
        var p := PolicyFor(s, r.tenantId, policy.policyId.value, policy.policyVersion.value);
        p.Some? && StillOpen(p.value, stamp);
      (held ==> replayed == policy) && (!held ==> policy.policyId.Some? && replayed == NO_MATCH)
  {
    if policy.matched {
      var p := PolicyIsFound(s, r.tenantId, policy, PolicyQueryOf(r, risk, now, hourNow));
      AppliesWhileOpen(p, r, risk, now, hourNow, stamp);
      DecidesAlone(p, PolicyQueryOf(r, risk, stamp, stamp));
    } else {
      NobodyDecidesAlone(PolicyQueryOf(r, risk, stamp, stamp));
    }
  }

  // ----- The replay of a log

  function ReplayedPolicy(s: System, i: nat): PolicyDecision
    requires i < |s.logs| && i < |s.made|
  {
    var f := s.made[i];
    var r := f.loaded.request;
    DecidedBy(ReplayedPolicies(s, r.tenantId, f.opinion.policy),
              PolicyQueryOf(r, ReplayedRisk(s, i), s.logs[i].createdAt, s.logs[i].createdAt))
  }

  function ReplayedComparison(s: System, i: nat): Comparison
    requires i < |s.logs| && i < |s.made|
  {
    Compare(s.logs[i], ReplayedRisk(s, i), ReplayedPolicy(s, i), ConfigIn(s.made[i].workflow))
  }

  lemma ReplayWith(s: System, i: nat, f: Findings, found: Option<Policy>)
    requires i < |s.logs| && i < |s.made| && s.made[i] == f && s.logs[i] == LogFor(i, f, s.logs[i].createdAt)
    requires f.loaded.request.tenantId in s.tenants
    requires f.workflow.Some? ==>
      WorkflowFor(s, f.loaded.request.tenantId, f.workflow.value.version) == Some(f.workflow.value.content)
    requires f.opinion.policy.policyId.None? <==> f.opinion.policy.policyVersion.None?
    requires f.opinion.policy.policyId.None? ==> found.None?
    requires f.opinion.policy.policyId.Some? ==>
      found.Some? && PolicyFor(s, f.loaded.request.tenantId, f.opinion.policy.policyId.value,
                               f.opinion.policy.policyVersion.value) == found
    ensures ReplayAuditLog(s, i) == Replayed(ReplayedComparison(s, i))
  {
  }

  /** Every log can be replayed, and is compared with the risk of earlier rows and the version that decided. */
  lemma LogsAreReplayed(s: System, i: nat)
    requires Inv(s) && i < |s.logs|
    ensures LogOk(s, i) && ReplayAuditLog(s, i) == Replayed(ReplayedComparison(s, i))
  {
    assert LogOk(s, i);
    var f := s.made[i];
    var r, o := f.loaded.request, f.opinion;
    if f.workflow.Some? { WorkflowIsFound(s, r.tenantId, f.workflow.value); }
    if o.policy.matched {
      var p := PolicyIsFound(s, r.tenantId, o.policy, PolicyQueryOf(r, o.risk, o.policyNow, o.hourNow));
      ReplayWith(s, i, f, Some(p));
    } else {
      ReplayWith(s, i, f, None);
    }
  }

  lemma NamesTellSignals(a: Signal, b: Signal)
    requires Name(a) == Name(b)
    ensures a == b
  {
    assert |Name(a)| == |Name(b)| && Name(a)[0] == Name(b)[0];
  }

  lemma NamesOfSignals(xs: seq<Signal>, ys: seq<Signal>)
    ensures Names(xs) == Names(ys) <==> xs == ys
  {
    if Names(xs) == Names(ys) {
      assert |xs| == |ys|;
      forall i | 0 <= i < |xs| ensures xs[i] == ys[i] {
        assert Names(xs)[i] == Names(ys)[i];
        NamesTellSignals(xs[i], ys[i]);
      }
    }
  }

  /** A log matches a recomputed risk in its signals exactly if the signals are the same. */
  lemma SignalsMatchExactlyWhen(id: nat, f: Findings, stamp: Time, risk: RiskDecision, policy: PolicyDecision)
    ensures Compare(LogFor(id, f, stamp), risk, policy, ConfigIn(f.workflow)).riskSignalsMatch
       <==> risk.signals == f.opinion.risk.signals
  {
    NamesAreListable(f.opinion.risk.signals);
    NamesOfSignals(risk.signals, f.opinion.risk.signals);
  }

  /** What the engines said of the request, the ownership rules apart. */
  function EnginesAllow(f: Findings): bool {
    ResolveAllowed(f.opinion.risk.allow, f.opinion.policy.matched, f.opinion.policy.allow)
  }

  /** The comparison tells exactly whether the rule overrode the engines, the signals recur and the policy held. */
  ghost predicate TellsExactly(s: System, i: nat, c: Comparison)
    requires i < |s.logs| && i < |s.made| && s.made[i].loaded.seen <= |s.logs|
  {
    var overridden := OwnershipVerdict(s.made[i].loaded.request).Some?;
    && (c.AllMatch() <==> !overridden && SignalsRecur(s, i) && PolicyHeld(s, s.logs[i]))
    && (c.riskSignalsMatch <==> SignalsRecur(s, i))
    && (SignalsRecur(s, i) ==> c.riskScoreMatch && (c.policyMatch <==> PolicyHeld(s, s.logs[i])))
    && (SignalsRecur(s, i) && PolicyHeld(s, s.logs[i]) ==> Faithful(c, overridden, EnginesAllow(s.made[i])))
  }

  lemma ReasonIsNoTransferReason(policies: PolicyTable, tenant: string, risk: RiskDecision, policy: PolicyDecision,
                                 q: Query)
    requires risk == RiskEngine.DecisionOf(risk.signals) && q.now.Some? && IsBacked(policies, tenant, policy, q)
    ensures !TransferReason(ReasonFor(risk, policy))
  {
    RiskReasonIsNoTransferReason(risk.signals);
    if policy.matched {
      var id, row :| Store.Recorded(policies, id, row) && policy == PolicyEngine.DecisionOf(ToPolicy(id, row));
      PolicyReasonIsNoTransferReason(ToPolicy(id, row));
    }
  }

  /** The risk on record is a decision of the engine. */
  lemma RiskIsDecision(q: RiskQuery, history: seq<RequestLog>, now: Time)
    ensures Risk(q, history, now) == RiskEngine.DecisionOf(Risk(q, history, now).signals)
  {
    DecisionsHaveSignals(SignalsOf(q, Sort(LogLeq, history), now));
  }

  lemma SameSignalsReplay(s: System, i: nat)
    requires Inv(s) && i < |s.logs| && LogOk(s, i) && SignalsRecur(s, i)
    ensures TellsExactly(s, i, ReplayedComparison(s, i))
  {
    var f, stamp := s.made[i], s.logs[i].createdAt;
    var r, o := f.loaded.request, f.opinion;
    RiskRecursExactlyWhen(s, i);
    SignalsMatchExactlyWhen(i, f, stamp, o.risk, ReplayedPolicy(s, i));
    PolicyRecursExactlyWhen(s, r, o.risk, o.policy, o.policyNow, o.hourNow, stamp);
    if PolicyHeld(s, s.logs[i]) {
      RiskIsDecision(RiskQueryOf(r), f.loaded.history, o.riskNow);
      ReasonIsNoTransferReason(s.policies, r.tenantId, o.risk, o.policy,
                               PolicyQueryOf(r, o.risk, o.policyNow, o.hourNow));
      CompareWithItself(i, r, o.risk, o.policy, f.workflow, stamp);
    }
  }

  lemma OtherSignalsReplay(s: System, i: nat)
    requires Inv(s) && i < |s.logs| && LogOk(s, i) && !SignalsRecur(s, i)
    ensures TellsExactly(s, i, ReplayedComparison(s, i))
  {
    RiskRecursExactlyWhen(s, i);
    SignalsMatchExactlyWhen(i, s.made[i], s.logs[i].createdAt, ReplayedRisk(s, i), ReplayedPolicy(s, i));
  }

  lemma ReplayTellsExactly(s: System, i: nat)
    requires Inv(s) && i < |s.logs|
    ensures i < |s.made| && s.made[i].loaded.seen <= |s.logs|
    ensures ReplayAuditLog(s, i).Replayed? && TellsExactly(s, i, ReplayAuditLog(s, i).comparison)
  {
    LogsAreReplayed(s, i);
    if SignalsRecur(s, i) { SameSignalsReplay(s, i); } else { OtherSignalsReplay(s, i); }
  }

  lemma InitiallyInv()
    ensures Inv(INITIAL)
  {
  }

  /**
    When audit replay matches. In every run of concurrent requests and concurrent changes of policies and
    workflow configurations, every log can be replayed, and everything matches exactly when three things
    hold: the ownership rule did not override the engines; the logs that the request saw, at the time of
    its evaluation, raise the same signals as those stamped before its own log, at the time of that stamp;
    and the version that decided was still open at the stamp. The signals match exactly when the second
    holds; if it does, the policy matches exactly when the third holds.
   */
  lemma ReplayMatchesExactlyWhen(run: seq<Step>, i: nat)
    requires i < |Run(INITIAL, run).logs|
    ensures
      var s := Run(INITIAL, run);
      && i < |s.made| && s.made[i].loaded.seen <= |s.logs|
      && ReplayAuditLog(s, i).Replayed? && TellsExactly(s, i, ReplayAuditLog(s, i).comparison)
  {
    InitiallyInv();
    RunKeepsInv(INITIAL, run);
    ReplayTellsExactly(Run(INITIAL, run), i);
  }

  // ----- Requests that nobody has overtaken

  predicate SameRight(a: RequestLog, b: RequestLog) { a.tenantId == b.tenantId && a.rightId == b.rightId }

  /**
    Among the logs of its right, those the request saw are those stamped before its own: none that was
    committed when it loaded its history is stamped between the two, and none was committed since with an
    earlier stamp.
   */
  ghost predicate NobodyOvertook(s: System, i: nat)
    requires i < |s.logs| && i < |s.made| && s.made[i].loaded.seen <= |s.logs|
  {
    var seen, reference, log := s.made[i].loaded.seen, s.made[i].loaded.reference, s.logs[i];
    && (forall j :: 0 <= j < seen && SameRight(s.logs[j], log) ==>
          (s.logs[j].createdAt <= reference <==> s.logs[j].createdAt < log.createdAt))
    && (forall j :: seen <= j < |s.logs| && SameRight(s.logs[j], log) ==> s.logs[j].createdAt >= log.createdAt)
  }

  /** As far as the windows of the signals are concerned, this log is as old at one time as at the other. */
  predicate AgesAlike(log: RequestLog, now: Time, later: Time) {
    && (now - log.createdAt <= 900.0 <==> later - log.createdAt <= 900.0)
    && (now - log.createdAt <= 3600.0 <==> later - log.createdAt <= 3600.0)
  }

  /** Between evaluation and stamp, no log of the right grew older than 15 minutes or an hour. */
  ghost predicate NothingAged(s: System, i: nat)
    requires i < |s.logs| && i < |s.made| && s.made[i].loaded.seen <= |s.logs|
  {
    forall j :: 0 <= j < s.made[i].loaded.seen && SameRight(s.logs[j], s.logs[i]) ==>
      AgesAlike(s.logs[j], s.made[i].opinion.riskNow, s.logs[i].createdAt)
  }

  /** Two filters agree on what was there, and the second keeps nothing of what came since. */
  lemma {:induction false} KeepOfPrefix(xs: seq<RequestLog>, ys: seq<RequestLog>, p: RequestLog -> bool,
                                        q: RequestLog -> bool)
    requires xs <= ys
    requires forall i :: 0 <= i < |xs| ==> p(xs[i]) == q(xs[i])
    requires forall i :: |xs| <= i < |ys| ==> !q(ys[i])
    ensures Keep(xs, p) == Keep(ys, q)
  {
    if |ys| > |xs| {
      KeepOfPrefix(xs, ys[..|ys| - 1], p, q);
    } else if xs != [] {
      assert xs == ys;
      KeepOfPrefix(xs[..|xs| - 1], ys[..|ys| - 1], p, q);
    }
  }

  lemma RowsAreSame(s: System, i: nat)
    requires i < |s.logs| && i < |s.made| && LogOk(s, i) && NobodyOvertook(s, i)
    ensures SeenRows(s, s.made[i]) == RowsBefore(s, s.logs[i])
  {
    var loaded, log := s.made[i].loaded, s.logs[i];
    KeepOfPrefix(s.logs[..loaded.seen], s.logs, InScope(log.tenantId, log.rightId, loaded.reference, false),
                 InScope(log.tenantId, log.rightId, log.createdAt, true));
  }

  lemma SortHasMembers(rows: seq<RequestLog>)
    ensures forall x :: x in Sort(RowLeq, rows) <==> x in rows
  {
    RowOrder();
    SortIsSorting(RowLeq, rows);
    SameMembers(rows, Sort(RowLeq, rows));
  }

  lemma RowsAreSeen(s: System, i: nat)
    requires i < |s.logs| && i < |s.made| && LogOk(s, i)
    ensures forall x :: x in SeenRows(s, s.made[i]) ==>
      exists j :: 0 <= j < s.made[i].loaded.seen && s.logs[j] == x && SameRight(s.logs[j], s.logs[i])
  {
    var loaded := s.made[i].loaded;
    var r := loaded.request;
    SortHasMembers(Eligible(s.logs[..loaded.seen], r.tenantId, r.rightId, loaded.reference, false));
    forall x | x in SeenRows(s, s.made[i])
      ensures exists j :: 0 <= j < loaded.seen && s.logs[j] == x && SameRight(s.logs[j], s.logs[i])
    {
      var j :| 0 <= j < loaded.seen && s.logs[..loaded.seen][j] == x;
      assert s.logs[j] == x && SameRight(s.logs[j], s.logs[i]);
    }
  }

  lemma SameRowsSameFacts(q: RiskQuery, rows: seq<RequestLog>, now: Time, later: Time)
    requires forall k :: 0 <= k < |rows| ==> AgesAlike(rows[k], now, later)
    ensures SameFacts(q, rows, now, rows, later)
  {
    assert Denials(rows, now) == Denials(rows, later);
    assert Transfers(rows, now) == Transfers(rows, later);
  }

  lemma SeenRowsAgeAlike(s: System, i: nat, rows: seq<RequestLog>)
    requires i < |s.logs| && i < |s.made| && LogOk(s, i) && NothingAged(s, i) && rows == SeenRows(s, s.made[i])
    ensures forall k :: 0 <= k < |rows| ==> AgesAlike(rows[k], s.made[i].opinion.riskNow, s.logs[i].createdAt)
  {
    RowsAreSeen(s, i);
    forall k | 0 <= k < |rows| ensures AgesAlike(rows[k], s.made[i].opinion.riskNow, s.logs[i].createdAt) {
      assert rows[k] in rows;
    }
  }

  lemma SignalsRecurUndisturbed(s: System, i: nat)
    requires i < |s.logs| && i < |s.made| && LogOk(s, i) && NobodyOvertook(s, i) && NothingAged(s, i)
    ensures SignalsRecur(s, i)
  {
    RowsAreSame(s, i);
    SeenRowsAgeAlike(s, i, SeenRows(s, s.made[i]));
    SameRowsSameFacts(RiskQueryOf(s.made[i].loaded.request), SeenRows(s, s.made[i]), s.made[i].opinion.riskNow,
                      s.logs[i].createdAt);
  }

  /**
    Audit replay is faithful. In every run, for every log whose request was not overtaken by another one of
    the same right, replay finds the recorded versions and recomputes the decision: everything matches
    exactly when the ownership rule did not override it, and when it did, the reason differs, decision and
    path differ exactly when the engines alone would have allowed the request, and score, signals, policy
    and source still match. Between evaluation and stamp the clock must not have passed the edge of a signal's
    window, nor the policy's expiry or hours.
   */
  lemma ReplayIsFaithful(run: seq<Step>, i: nat)
    requires
      var s := Run(INITIAL, run);
      && i < |s.logs| && i < |s.made| && s.made[i].loaded.seen <= |s.logs|
      && NobodyOvertook(s, i) && NothingAged(s, i) && PolicyHeld(s, s.logs[i])
    ensures
      var s := Run(INITIAL, run);
      var replay := ReplayAuditLog(s, i);
      replay.Replayed? && Faithful(replay.comparison, OwnershipVerdict(s.made[i].loaded.request).Some?,
                                  EnginesAllow(s.made[i]))
  {
    var s := Run(INITIAL, run);
    InitiallyInv();
    RunKeepsInv(INITIAL, run);
    LogsAreReplayed(s, i);
    SignalsRecurUndisturbed(s, i);
    SameSignalsReplay(s, i);
  }
}
