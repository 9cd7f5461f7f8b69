/**
  The administration endpoints for policies and workflow configurations (app/main.py), on versioned
  tables that other administrators use at the same time.
 */
module PolicyStore {
  import opened Prelude
  import opened CommaLists
  import opened PolicyEngine
  import opened WorkflowEngine
  import opened VersionedStore

  /** The columns of a policies row other than id and version. */
  datatype PolicyFields = PolicyFields(
    tenantId: string,
    name: string,
    effect: string,
    priority: int,
    requestTypes: string,
    countries: string,
    deviceIds: string,
    maxRiskScore: Option<int>,
    minTrustScore: Option<int>,
    maxTransactionAmount: Option<real>,
    allowedStartHour: Option<int>,
    allowedEndHour: Option<int>,
    enabled: bool,
    validFrom: Option<Time>,
    expiresAt: Option<Time>)

  type PolicyTable = Store<nat, PolicyFields>

  type WorkflowTable = Store<string, WorkflowConfig>

  /** The engine's view of a stored policy; it has the same shape for live rows and for the history. */
  function ToPolicy(id: nat, row: Row<PolicyFields>): Policy {
    var f := row.content;
    Policy(f.name, f.effect, Some(id), f.priority, row.version,
           Items(f.requestTypes), Items(f.countries), Items(f.deviceIds),
           f.maxRiskScore, f.minTrustScore, f.maxTransactionAmount,
           f.allowedStartHour, f.allowedEndHour, f.validFrom, f.expiresAt)
  }

  /** `load_policy_version` */
  function LoadPolicyVersion(policies: PolicyTable, tenant: string, id: nat, version: nat): Option<Policy> {
    if id in policies.rows && policies.rows[id].content.tenantId == tenant && policies.rows[id].version == version then
      Some(ToPolicy(id, policies.rows[id]))
    else
      match PastFields(policies.history, tenant, id, version)
      case Some(fields) => Some(ToPolicy(id, Row(version, fields)))
      case None => None
  }

  /** `.filter_by(tenant_id, policy_id, version).first()` */
  function PastFields(history: seq<Snapshot<nat, PolicyFields>>, tenant: string, id: nat,
                      version: nat): Option<PolicyFields> {
    if history == [] then None
    else if history[0].key == id && history[0].row.version == version && history[0].row.content.tenantId == tenant then
      Some(history[0].row.content)
    else PastFields(history[1..], tenant, id, version)
  }

  /** `load_workflow_config_version` */
  function LoadWorkflowVersion(workflows: WorkflowTable, tenant: string, version: nat): Option<WorkflowConfig> {
    Load(workflows, tenant, version)
  }

  /** The ids below `n` of a tenant's enabled policies. */
  function EnabledIds(policies: PolicyTable, tenant: string, n: nat): (ids: seq<nat>)
    ensures forall id :: id in ids <==>
      id < n && id in policies.rows && policies.rows[id].content.tenantId == tenant && policies.rows[id].content.enabled
  {
    if n == 0 then []
    else
      var rest := EnabledIds(policies, tenant, n - 1);
      var id := n - 1;
      if id in policies.rows && policies.rows[id].content.tenantId == tenant && policies.rows[id].content.enabled then
        rest + [id]
      else rest
  }

  function PoliciesOf(policies: PolicyTable, ids: seq<nat>): (r: seq<Policy>)
    requires forall i :: 0 <= i < |ids| ==> ids[i] in policies.rows
    ensures |r| == |ids| && forall i :: 0 <= i < |ids| ==> r[i] == ToPolicy(ids[i], policies.rows[ids[i]])
  {
    seq(|ids|, i requires 0 <= i < |ids| => ToPolicy(ids[i], policies.rows[ids[i]]))
  }

  /**
    `load_tenant_policies`: the tenant's enabled policies among ids below `n`. The query's ORDER BY is
    not reproduced: the engine sorts again by a finer key.
   */
  function LoadTenantPolicies(policies: PolicyTable, tenant: string, n: nat): seq<Policy> {
    PoliciesOf(policies, EnabledIds(policies, tenant, n))
  }

  // ----- Version recovery for policies and workflows

  lemma {:induction false} PastFieldsFound(history: seq<Snapshot<nat, PolicyFields>>, i: nat)
    requires SnapshottedOnce(history) && i < |history|
    ensures PastFields(history, history[i].row.content.tenantId, history[i].key, history[i].row.version)
         == Some(history[i].row.content)
  {
    if i > 0 {
      PastFieldsFound(history[1..], i - 1);
      assert history[1..][i - 1] == history[i];
    }
  }

  lemma RecordedPolicyIsLoaded(policies: PolicyTable, id: nat, row: Row<PolicyFields>)
    requires Inv(policies) && Recorded(policies, id, row)
    ensures LoadPolicyVersion(policies, row.content.tenantId, id, row.version) == Some(ToPolicy(id, row))
  {
    if !(id in policies.rows && policies.rows[id] == row) {
      var i :| 0 <= i < |policies.history| && policies.history[i] == Snapshot(id, row);
      PastFieldsFound(policies.history, i);
    }
  }

  /**
    A policy version that was ever live is given back by `load_policy_version`, with exactly the policy
    the engine saw, after any later interleaving of updates and deletes, even of the policy itself.
   */
  lemma PolicyVersionsAreRecovered(earlier: seq<Step<nat, PolicyFields>>, later: seq<Step<nat, PolicyFields>>, id: nat)
    requires id in Run(Empty(), earlier).rows
    ensures
      var row := Run(Empty(), earlier).rows[id];
      LoadPolicyVersion(Run(Run(Empty(), earlier), later), row.content.tenantId, id, row.version)
      == Some(ToPolicy(id, row))
  {
    var s := Run(Empty(), earlier);
    RunKeepsInv(Empty(), earlier);
    RunKeepsInv(s, later);
    RunKeepsRecords(s, later, id, s.rows[id]);
    RecordedPolicyIsLoaded(Run(s, later), id, s.rows[id]);
  }

  // ----- The body of PATCH /admin/policies/{policy_id}

  datatype PolicyUpdate = PolicyUpdate(
    expectedVersion: Option<int>,
    effect: Option<string>,
    priority: Option<int>,
    requestTypes: Option<seq<string>>,
    countries: Option<seq<string>>,
    deviceIds: Option<seq<string>>,
    maxRiskScore: Option<int>,
    minTrustScore: Option<int>,
    maxTransactionAmount: Option<real>,
    allowedStartHour: Option<int>,
    allowedEndHour: Option<int>,
    enabled: Option<bool>,
    validFrom: Option<Time>,
    expiresAt: Option<Time>)

  function Or<T>(given: Option<T>, kept: T): T {
    if given.Some? then given.value else kept
  }

  function OrKeep<T>(given: Option<T>, kept: Option<T>): Option<T> {
    if given.Some? then given else kept
  }

  function OrList(given: Option<seq<string>>, kept: string): string {
    if given.Some? then Join(given.value) else kept
  }

  /** The stored fields after an update: what is given replaces, what is omitted stays. */
  function Patched(f: PolicyFields, u: PolicyUpdate): PolicyFields {
    PolicyFields(f.tenantId, f.name, Or(u.effect, f.effect), Or(u.priority, f.priority),
                 OrList(u.requestTypes, f.requestTypes), OrList(u.countries, f.countries),
                 OrList(u.deviceIds, f.deviceIds),
                 OrKeep(u.maxRiskScore, f.maxRiskScore), OrKeep(u.minTrustScore, f.minTrustScore),
                 OrKeep(u.maxTransactionAmount, f.maxTransactionAmount),
                 OrKeep(u.allowedStartHour, f.allowedStartHour), OrKeep(u.allowedEndHour, f.allowedEndHour),
                 Or(u.enabled, f.enabled), OrKeep(u.validFrom, f.validFrom), OrKeep(u.expiresAt, f.expiresAt))
  }

  /** After the update a column has the given value, or the old one if none is given. */
  predicate Takes<T(==)>(given: Option<T>, before: T, after: T) {
    (given.Some? ==> after == given.value) && (given.None? ==> after == before)
  }

  /** The same for a column that may be empty; an update cannot empty it. */
  predicate TakesOption<T(==)>(given: Option<T>, before: Option<T>, after: Option<T>) {
    (given.Some? ==> after == given) && (given.None? ==> after == before)
  }

  /** The same for a list kept in one column. */
  predicate TakesList(given: Option<seq<string>>, before: string, after: string) {
    (given.Some? ==> after == Join(given.value)) && (given.None? ==> after == before)
  }

  /** The row after an update, column by column. */
  predicate IsPatched(before: PolicyFields, u: PolicyUpdate, after: PolicyFields) {
    && after.tenantId == before.tenantId && after.name == before.name
    && Takes(u.effect, before.effect, after.effect) && Takes(u.priority, before.priority, after.priority)
    && TakesList(u.requestTypes, before.requestTypes, after.requestTypes)
    && TakesList(u.countries, before.countries, after.countries)
    && TakesList(u.deviceIds, before.deviceIds, after.deviceIds)
    && TakesOption(u.maxRiskScore, before.maxRiskScore, after.maxRiskScore)
    && TakesOption(u.minTrustScore, before.minTrustScore, after.minTrustScore)
    && TakesOption(u.maxTransactionAmount, before.maxTransactionAmount, after.maxTransactionAmount)
    && TakesOption(u.allowedStartHour, before.allowedStartHour, after.allowedStartHour)
    && TakesOption(u.allowedEndHour, before.allowedEndHour, after.allowedEndHour)
    && Takes(u.enabled, before.enabled, after.enabled)
    && TakesOption(u.validFrom, before.validFrom, after.validFrom)
    && TakesOption(u.expiresAt, before.expiresAt, after.expiresAt)
  }

  lemma PatchedIsPatched(before: PolicyFields, u: PolicyUpdate)
    ensures IsPatched(before, u, Patched(before, u))
  {
  }

  /** The policy ends before it starts. */
  predicate EndsFirst(validFrom: Option<Time>, expiresAt: Option<Time>) {
    validFrom.Some? && expiresAt.Some? && expiresAt.value < validFrom.value
  }

  /** An update of the expected version that would leave a policy that ends before it starts. */
  predicate AsksForBadWindow(row: Row<PolicyFields>, u: PolicyUpdate) {
    && (u.expectedVersion.Some? ==> u.expectedVersion.value == row.version)
    && EndsFirst(if u.validFrom.Some? then u.validFrom else row.content.validFrom,
                 if u.expiresAt.Some? then u.expiresAt else row.content.expiresAt)
  }

  /** The live row is not, or no longer, at this version. */
  predicate HasMovedOn<K(==), C>(rows: map<K, Row<C>>, key: K, version: nat) {
    !(key in rows && rows[key].version == version)
  }

  /** The caller expects a version that is not the live one. */
  predicate IsOutdated<K(==), C>(expected: Option<int>, rows: map<K, Row<C>>, key: K) {
    expected.Some? && !(key in rows && rows[key].version == expected.value)
  }

  datatype Response = Done(version: nat) | UnknownTenant | NameExists | NotFound | VersionConflict | InvalidWindow

  /** The last step of the run, whoever took it, wrote nothing. */
  ghost predicate LastWroteNothing<K, C>(run: seq<Step<K, C>>) {
    && run != []
    && Run(Empty(), run).rows == Run(Empty(), run[..|run| - 1]).rows
    && Run(Empty(), run).history == Run(Empty(), run[..|run| - 1]).history
  }

  lemma LastStepIdle<K, C>(run: seq<Step<K, C>>, step: Step<K, C>)
    requires Next(Run(Empty(), run), step).rows == Run(Empty(), run).rows
    requires Next(Run(Empty(), run), step).history == Run(Empty(), run).history
    ensures LastWroteNothing(run + [step])
  {
    assert (run + [step])[..|run + [step]| - 1] == run;
  }

  /** How many writes of an administrator went through in a run from the empty table. */
  ghost function WritesBy<K, C>(run: seq<Step<K, C>>, a: Admin): nat {
    if run == [] then 0
    else
      var before, last := run[..|run| - 1], run[|run| - 1];
      WritesBy(before, a) + if (last == Step.Delete(a) || (last.Update? && last.admin == a))
          && Current(Run(Empty(), before), a) then 1 else 0
  }

  predicate StepOf<K, C>(step: Step<K, C>, a: Admin) {
    !step.Insert? && step.admin == a
  }

  lemma OneMoreStep<K, C>(run: seq<Step<K, C>>, step: Step<K, C>, a: Admin)
    ensures Run(Empty(), run + [step]) == Next(Run(Empty(), run), step)
    ensures WritesBy(run + [step], a)
         == WritesBy(run, a)
            + if (step == Step.Delete(a) || (step.Update? && step.admin == a))
              && Current(Run(Empty(), run), a) then 1 else 0
  {
    assert (run + [step])[..|run + [step]| - 1] == run;
  }

  lemma OthersKeepReader<K, C>(s: Store<K, C>, step: Step<K, C>, a: Admin)
    requires !StepOf(step, a)
    ensures a in Next(s, step).readers <==> a in s.readers
    ensures a in s.readers ==> Next(s, step).readers[a] == s.readers[a]
  {
  }

  /** One versioned table and the transactions open on it. */
  class Table<K(==, !new), C(!new)> {
    var rows: map<K, Row<C>>
    var history: seq<Snapshot<K, C>>
    var readers: map<Admin, Snapshot<K, C>>
    ghost var trace: seq<Step<K, C>>

    function View(): Store<K, C>
      reads this
    {
      Store(rows, history, readers)
    }

    /** The table is where the recorded run leads. */
    ghost predicate Valid()
      reads this
    {
      View() == Run(Empty(), trace)
    }

    constructor ()
      ensures Valid() && rows == map[] && history == []
    {
      rows, history, readers, trace := map[], [], map[], [];
    }

    /** Whatever other administrators do between the statements of `a`. */
    method Interfere(a: Admin)
      requires Valid()
      modifies this
      ensures Valid() && old(trace) <= trace && WritesBy(trace, a) == old(WritesBy(trace, a))
      ensures (a in readers <==> a in old(readers)) && (a in readers ==> readers[a] == old(readers)[a])
    {
      var steps: seq<Step<K, C>> := *;
      for i := 0 to |steps|
        invariant Valid() && old(trace) <= trace && WritesBy(trace, a) == old(WritesBy(trace, a))
        invariant (a in readers <==> a in old(readers)) && (a in readers ==> readers[a] == old(readers)[a])
      {
        if !StepOf(steps[i], a) {
          TakeStep(a, steps[i]);
        }
      }
    }

    method TakeStep(a: Admin, step: Step<K, C>)
      requires Valid() && !StepOf(step, a)
      modifies this
      ensures Valid() && old(trace) <= trace && WritesBy(trace, a) == old(WritesBy(trace, a))
      ensures (a in readers <==> a in old(readers)) && (a in readers ==> readers[a] == old(readers)[a])
    {
      OneMoreStep(trace, step, a);
      OthersKeepReader(View(), step, a);
      var t := Next(Store(rows, history, readers), step);
      rows, history, readers := t.rows, t.history, t.readers;
      trace := trace + [step];
    }

    /** INSERT with the given primary key, which fails when the key is taken. */
    method Insert(a: Admin, key: K, content: C) returns (ok: bool)
      requires Valid()
      modifies this
      ensures Valid() && trace == old(trace) + [Step.Insert(key, content)]
      ensures WritesBy(trace, a) == old(WritesBy(trace, a))
      ensures ok <==> old(Unused(View(), key))
      ensures rows == (if ok then old(rows)[key := Row(1, content)] else old(rows)) && history == old(history)
    {
      OneMoreStep(trace, Step.Insert(key, content), a);
      ok := key !in rows && !InHistory(history, key);
      if ok {
        rows := rows[key := Row(1, content)];
      }
      trace := trace + [Step.Insert(key, content)];
    }

    method Read(a: Admin, key: K) returns (row: Option<Row<C>>)
      requires Valid()
      modifies this
      ensures Valid() && trace == old(trace) + [Step.Read(a, key)] && WritesBy(trace, a) == old(WritesBy(trace, a))
      ensures rows == old(rows) && history == old(history)
      ensures row.Some? <==> key in rows
      ensures row.Some? ==> row.value == rows[key] && a in readers && readers[a] == Snapshot(key, row.value)
    {
      OneMoreStep(trace, Step.Read(a, key), a);
      if key in rows {
        readers := readers[a := Snapshot(key, rows[key])];
        row := Some(rows[key]);
      } else {
        readers := map b | b in readers && b != a :: readers[b];
        row := None;
      }
      trace := trace + [Step.Read(a, key)];
    }

    /** Ends a transaction without writing. */
    method Abandon(a: Admin)
      requires Valid()
      modifies this
      ensures Valid() && trace == old(trace) + [Step.Abandon(a)] && WritesBy(trace, a) == old(WritesBy(trace, a))
      ensures rows == old(rows) && history == old(history)
    {
      OneMoreStep(trace, Step.Abandon(a), a);
      readers := map b | b in readers && b != a :: readers[b];
      trace := trace + [Step.Abandon(a)];
    }

    /** The history row and the versioned UPDATE, committed together or, when stale, not at all. */
    method CommitUpdate(a: Admin, content: C) returns (ok: bool)
      requires Valid() && a in readers
      modifies this
      ensures Valid() && trace == old(trace) + [Update(a, content)]
      ensures WritesBy(trace, a) == old(WritesBy(trace, a)) + if ok then 1 else 0
      ensures
        var read := old(readers)[a];
        && (ok <==> read.key in old(rows) && old(rows)[read.key].version == read.row.version)
        && rows == (if ok then old(rows)[read.key := Row(read.row.version + 1, content)] else old(rows))
        && history == (if ok then old(history) + [read] else old(history))
    {
      OneMoreStep(trace, Update(a, content), a);
      var read := readers[a];
      ok := read.key in rows && rows[read.key].version == read.row.version;
      if ok {
        history := history + [read];
        rows := rows[read.key := Row(read.row.version + 1, content)];
      }
      readers := map b | b in readers && b != a :: readers[b];
      trace := trace + [Update(a, content)];
    }

    method CommitDelete(a: Admin) returns (ok: bool)
      requires Valid() && a in readers
      modifies this
      ensures Valid() && trace == old(trace) + [Step.Delete(a)]
      ensures WritesBy(trace, a) == old(WritesBy(trace, a)) + if ok then 1 else 0
      ensures
        var read := old(readers)[a];
        && (ok <==> read.key in old(rows) && old(rows)[read.key].version == read.row.version)
        && rows == (if ok then old(rows) - {read.key} else old(rows))
        && history == (if ok then old(history) + [read] else old(history))
    {
      OneMoreStep(trace, Step.Delete(a), a);
      var read := readers[a];
      ok := read.key in rows && rows[read.key].version == read.row.version;
      if ok {
        history := history + [read];
        rows := map k | k in rows && k != read.key :: rows[k];
      }
      readers := map b | b in readers && b != a :: readers[b];
      trace := trace + [Step.Delete(a)];
    }
  }

  /** A live policy of the tenant has this name: the unique constraint on (tenant, name). */
  predicate NameTaken(rows: map<nat, Row<PolicyFields>>, tenant: string, name: string) {
    exists id :: id in rows && rows[id].content.tenantId == tenant && rows[id].content.name == name
  }

  /** POST /admin/policies, with the id the database draws for the new row. */
  method CreatePolicy(policies: Table<nat, PolicyFields>, tenants: set<string>, a: Admin, id: nat, fields: PolicyFields)
    returns (r: Response)
    requires policies.Valid() && Unused(policies.View(), id)
    modifies policies
    ensures policies.Valid() && old(policies.trace) <= policies.trace && policies.history == old(policies.history)
    ensures r == Done(1) || r.UnknownTenant? || r.NameExists?
    ensures r.UnknownTenant? <==> fields.tenantId !in tenants
    ensures r.NameExists? <==>
      && fields.tenantId in tenants
      && exists k :: k in old(policies.rows) && old(policies.rows)[k].content.tenantId == fields.tenantId
                     && old(policies.rows)[k].content.name == fields.name
    ensures policies.rows == if r.Done? then old(policies.rows)[id := Row(1, fields)] else old(policies.rows)
  {
    if fields.tenantId !in tenants {
      return UnknownTenant;
    }
    if NameTaken(policies.rows, fields.tenantId, fields.name) {
      return NameExists;
    }
    var _ := policies.Insert(a, id, fields);
    r := Done(1);
  }

  /** The insertion of a first configuration, or the update of the one that was read; 0 when it fails. */
  method WriteConfig(workflows: Table<string, WorkflowConfig>, a: Admin, tenant: string, config: WorkflowConfig,
                     row: Option<Row<WorkflowConfig>>) returns (version: nat)
    requires workflows.Valid()
    requires row.Some? ==> a in workflows.readers && workflows.readers[a] == Snapshot(tenant, row.value)
    modifies workflows
    ensures workflows.Valid() && old(workflows.trace) <= workflows.trace
    ensures version > 0 ==>
      && version == (if row.Some? then row.value.version + 1 else 1)
      && tenant in workflows.rows && workflows.rows[tenant] == Row(version, config)
      && (row.Some? ==> workflows.history == old(workflows.history) + [Snapshot(tenant, row.value)])
    ensures version == 0 ==>
      && WritesBy(workflows.trace, a) == old(WritesBy(workflows.trace, a)) && LastWroteNothing(workflows.trace)
      && (if row.Some? then HasMovedOn(workflows.rows, tenant, row.value.version)
          else !Unused(workflows.View(), tenant))
  {
    ghost var before := workflows.trace;
    if row.None? {
      var ok := workflows.Insert(a, tenant, config);
      if !ok { LastStepIdle(before, Step.Insert(tenant, config)); }
      version := if ok then 1 else 0;
    } else {
      var ok := workflows.CommitUpdate(a, config);
      if !ok { LastStepIdle(before, Update(a, config)); }
      version := if ok then row.value.version + 1 else 0;
    }
  }

  /** PUT /admin/workflow-config: the first configuration is inserted, later ones replace it by version. */
  method UpdateWorkflowConfig(workflows: Table<string, WorkflowConfig>, tenants: set<string>, a: Admin, tenant: string,
                              config: WorkflowConfig, expectedVersion: Option<int>) returns (r: Response)
    requires workflows.Valid()
    modifies workflows
    ensures workflows.Valid() && old(workflows.trace) <= workflows.trace
    ensures r.Done? ==> tenant in workflows.rows && workflows.rows[tenant] == Row(r.version, config)
    ensures r.Done? && r.version > 1 ==>
      && |workflows.history| > 0
      && var last := workflows.history[|workflows.history| - 1];
         && last.key == tenant && last.row.version + 1 == r.version
    ensures r.Done? && expectedVersion.Some? ==> expectedVersion.value + 1 == r.version
    ensures r.UnknownTenant? <==> tenant !in tenants
    ensures r.UnknownTenant? ==> workflows.rows == old(workflows.rows) && workflows.trace == old(workflows.trace)
    ensures r.Done? || r.UnknownTenant? || r.VersionConflict?
    ensures r.VersionConflict? ==>
      && WritesBy(workflows.trace, a) == old(WritesBy(workflows.trace, a)) && LastWroteNothing(workflows.trace)
    ensures tenant in tenants && IsOutdated(expectedVersion, old(workflows.rows), tenant) ==> r.VersionConflict?
    ensures r.VersionConflict? ==>
      || IsOutdated(expectedVersion, old(workflows.rows), tenant)
      || (if tenant in old(workflows.rows) then HasMovedOn(workflows.rows, tenant, old(workflows.rows)[tenant].version)
          else !Unused(workflows.View(), tenant))
  {
    if tenant !in tenants {
      return UnknownTenant;
    }
    var row := workflows.Read(a, tenant);
    if expectedVersion.Some? && (row.None? || row.value.version != expectedVersion.value) {
      LastStepIdle(workflows.trace, Step.Abandon(a));
      workflows.Abandon(a);
      return VersionConflict;
    }
    workflows.Interfere(a);
    var version := WriteConfig(workflows, a, tenant, config, row);
    r := if version > 0 then Done(version) else VersionConflict;
  }

  /** The dates after the update, in the wrong order. */
  method ChecksWindow(policy: PolicyFields, u: PolicyUpdate) returns (bad: bool)
    ensures bad <==> EndsFirst(if u.validFrom.Some? then u.validFrom else policy.validFrom,
                               if u.expiresAt.Some? then u.expiresAt else policy.expiresAt)
  {
    var effectiveValidFrom := if u.validFrom.Some? then u.validFrom else policy.validFrom;
    var effectiveExpiresAt := if u.expiresAt.Some? then u.expiresAt else policy.expiresAt;
    bad := effectiveValidFrom.Some? && effectiveExpiresAt.Some? && effectiveValidFrom.value > effectiveExpiresAt.value;
  }

  /** The live policy is the update of the version that the history has just saved. */
  ghost predicate IsUpdated(policies: Table<nat, PolicyFields>, id: nat, u: PolicyUpdate, version: nat)
    reads policies
  {
    && id in policies.rows && policies.rows[id].version == version && |policies.history| > 0
    && var last := policies.history[|policies.history| - 1];
       && last.key == id && last.row.version + 1 == version
       && (u.expectedVersion.Some? ==> last.row.version == u.expectedVersion.value)
       && IsPatched(last.row.content, u, policies.rows[id].content)
       && !EndsFirst(policies.rows[id].content.validFrom, policies.rows[id].content.expiresAt)
  }

  /** The policy as it is now, or the refusal of the update. */
  method BeginUpdate(policies: Table<nat, PolicyFields>, a: Admin, id: nat, u: PolicyUpdate)
    returns (refusal: Option<Response>, row: Option<Row<PolicyFields>>)
    requires policies.Valid()
    modifies policies
    ensures policies.Valid() && old(policies.trace) <= policies.trace && policies.rows == old(policies.rows)
    ensures WritesBy(policies.trace, a) == old(WritesBy(policies.trace, a))
    ensures refusal ==
      if id !in policies.rows then Some(NotFound)
      else if IsOutdated(u.expectedVersion, policies.rows, id) then Some(VersionConflict)
      else if AsksForBadWindow(policies.rows[id], u) then Some(InvalidWindow)
      else None
    ensures refusal.None? ==>
      row == Some(policies.rows[id]) && a in policies.readers && policies.readers[a] == Snapshot(id, row.value)
  {
    refusal := None;
    row := policies.Read(a, id);
    if row.None? {
      return Some(NotFound), row;
    }
    if u.expectedVersion.Some? && row.value.version != u.expectedVersion.value {
      policies.Abandon(a);
      return Some(VersionConflict), row;
    }
    var badWindow := ChecksWindow(row.value.content, u);
    if badWindow {
      policies.Abandon(a);
      return Some(InvalidWindow), row;
    }
  }

  /** The history row and the UPDATE of the version that was read, some time later. */
  method WritePolicy(policies: Table<nat, PolicyFields>, a: Admin, id: nat, row: Row<PolicyFields>,
                     fields: PolicyFields)
    returns (r: Response)
    requires policies.Valid() && a in policies.readers && policies.readers[a] == Snapshot(id, row)
    modifies policies
    ensures policies.Valid() && old(policies.trace) <= policies.trace && (r.Done? || r.VersionConflict?)
    ensures WritesBy(policies.trace, a) == old(WritesBy(policies.trace, a)) + if r.Done? then 1 else 0
    ensures r.Done? ==>
      && r.version == row.version + 1 && id in policies.rows && policies.rows[id] == Row(r.version, fields)
      && |policies.history| > 0 && policies.history[|policies.history| - 1] == Snapshot(id, row)
    ensures r.VersionConflict? ==> HasMovedOn(policies.rows, id, row.version)
  {
    policies.Interfere(a);
    var ok := policies.CommitUpdate(a, fields);
    r := if ok then Done(row.version + 1) else VersionConflict;
  }

  /** Every answer of an update or delete other than Done leaves no write of the caller behind. */
  method UpdatePolicy(policies: Table<nat, PolicyFields>, a: Admin, id: nat, u: PolicyUpdate) returns (r: Response)
    requires policies.Valid()
    modifies policies
    ensures policies.Valid() && old(policies.trace) <= policies.trace
    ensures WritesBy(policies.trace, a) == old(WritesBy(policies.trace, a)) + if r.Done? then 1 else 0
    ensures r.Done? ==> IsUpdated(policies, id, u, r.version)
    ensures r.NotFound? <==> id !in old(policies.rows)
    ensures r.InvalidWindow? <==> id in old(policies.rows) && AsksForBadWindow(old(policies.rows)[id], u)
    ensures id in old(policies.rows) && IsOutdated(u.expectedVersion, old(policies.rows), id) ==> r.VersionConflict?
    ensures r.VersionConflict? ==>
      && id in old(policies.rows)
      && (|| IsOutdated(u.expectedVersion, old(policies.rows), id)
          || HasMovedOn(policies.rows, id, old(policies.rows)[id].version))
    ensures r.Done? || r.NotFound? || r.InvalidWindow? || r.VersionConflict?
  {
    var refusal, row := BeginUpdate(policies, a, id, u);
    if refusal.Some? {
      return refusal.value;
    }
    PatchedIsPatched(row.value.content, u);
    r := WritePolicy(policies, a, id, row.value, Patched(row.value.content, u));
  }

  method DeletePolicy(policies: Table<nat, PolicyFields>, a: Admin, id: nat,
                      expectedVersion: Option<int>) returns (r: Response)
    requires policies.Valid()
    modifies policies
    ensures policies.Valid() && old(policies.trace) <= policies.trace
    ensures WritesBy(policies.trace, a) == old(WritesBy(policies.trace, a)) + if r.Done? then 1 else 0
    ensures r.Done? ==>
      && id !in policies.rows && |policies.history| > 0
      && var last := policies.history[|policies.history| - 1];
         && last.key == id && last.row.version == r.version
         && (expectedVersion.Some? ==> last.row.version == expectedVersion.value)
    ensures r.NotFound? <==> id !in old(policies.rows)
    ensures id in old(policies.rows) && IsOutdated(expectedVersion, old(policies.rows), id) ==> r.VersionConflict?
    ensures r.VersionConflict? ==>
      && id in old(policies.rows)
      && (|| IsOutdated(expectedVersion, old(policies.rows), id)
          || HasMovedOn(policies.rows, id, old(policies.rows)[id].version))
    ensures r.Done? || r.NotFound? || r.VersionConflict?
  {
    var row := policies.Read(a, id);
    if row.None? {
      return NotFound;
    }
    if expectedVersion.Some? && row.value.version != expectedVersion.value {
      policies.Abandon(a);
      return VersionConflict;
    }
    policies.Interfere(a);
    var ok := policies.CommitDelete(a);
    r := if ok then Done(row.value.version) else VersionConflict;
  }

  /** An update of a policy version leaves behind, under that version, exactly what was live before it. */
  lemma UpdatedVersionIsKept(run: seq<Step<nat, PolicyFields>>, a: Admin, content: PolicyFields)
    requires Current(Run(Empty(), run), a)
    ensures
      var s := Run(Empty(), run);
      var key := s.readers[a].key;
      var t := Next(s, Update(a, content));
      && key in s.rows && key in t.rows
      && t.rows[key] == Row(s.rows[key].version + 1, content)
      && Load(t, key, s.rows[key].version) == Some(s.rows[key].content)
  {
    var s := Run(Empty(), run);
    RunKeepsInv(Empty(), run);
    var key := s.readers[a].key;
    NextKeepsInv(s, Update(a, content));
    NextKeepsRecords(s, Update(a, content), key, s.rows[key]);
    RecordsAreLoaded(Next(s, Update(a, content)), key, s.rows[key]);
  }
}
