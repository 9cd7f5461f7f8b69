/** Quota and billing: what the tables say about a tenant's usage after any run. */
module AccessLedger {
  import opened Prelude
  import opened AuditLog
  import opened AccessProtocol
  import opened AccessSafety

  /** The usage counts of a tenant's billing events, in commit order. */
  function Billed(outbox: seq<Event>, t: string): seq<int> {
    if outbox == [] then []
    else
      var e := outbox[|outbox| - 1];
      Billed(outbox[..|outbox| - 1], t)
      + if e.tenantId == t && e.body.UsageIncremented? then [e.body.usageCount] else []
  }

  /** A tenant's decision events, in commit order. */
  function Announced(outbox: seq<Event>, t: string): seq<EventBody> {
    if outbox == [] then []
    else
      var e := outbox[|outbox| - 1];
      Announced(outbox[..|outbox| - 1], t) + if e.tenantId == t && e.body.DecisionMade? then [e.body] else []
  }

  /** A tenant's log rows, in commit order. */
  function RowsOf(logs: seq<Entry>, t: string): seq<RequestLog> {
    if logs == [] then []
    else
      var row := logs[|logs| - 1].row;
      RowsOf(logs[..|logs| - 1], t) + if row.tenantId == t then [row] else []
  }

  function DecisionEvent(row: RequestLog): EventBody {
    DecisionMade(row.traceId, row.rightId, row.riskScore, row.allowed)
  }

  function DecisionEvents(rows: seq<RequestLog>): (r: seq<EventBody>)
    ensures |r| == |rows| && forall i :: 0 <= i < |r| ==> r[i] == DecisionEvent(rows[i])
  {
    seq(|rows|, i requires 0 <= i < |rows| => DecisionEvent(rows[i]))
  }

  function Usage(db: Database, t: string): int {
    if t in db.tenants then db.tenants[t].usageCount else 0
  }

  function Quota(db: Database, t: string): int {
    if t in db.tenants then db.tenants[t].monthlyQuota else 0
  }

  /** The tenant's counter, logs, decision events and billing events agree. */
  ghost predicate Balanced(db: Database, t: string) {
    && 0 <= Usage(db, t) <= Quota(db, t)
    && |RowsOf(db.logs, t)| == Usage(db, t)
    && Announced(db.outbox, t) == DecisionEvents(RowsOf(db.logs, t))
    && Billed(db.outbox, t) == CountTo(Usage(db, t))
  }

  lemma AppendEvent(outbox: seq<Event>, e: Event, t: string)
    ensures Billed(outbox + [e], t)
      == Billed(outbox, t) + if e.tenantId == t && e.body.UsageIncremented? then [e.body.usageCount] else []
    ensures Announced(outbox + [e], t)
      == Announced(outbox, t) + if e.tenantId == t && e.body.DecisionMade? then [e.body] else []
  {
    assert (outbox + [e])[..|outbox + [e]| - 1] == outbox;
  }

  lemma AppendDecision(outbox: seq<Event>, row: RequestLog, usage: int, t: string)
    ensures Billed(outbox + EventsOf(row, usage), t) == Billed(outbox, t) + if row.tenantId == t then [usage] else []
    ensures Announced(outbox + EventsOf(row, usage), t)
         == Announced(outbox, t) + if row.tenantId == t then [DecisionEvent(row)] else []
  {
    var e, f := EventsOf(row, usage)[0], EventsOf(row, usage)[1];
    assert outbox + EventsOf(row, usage) == (outbox + [e]) + [f];
    AppendEvent(outbox, e, t);
    AppendEvent(outbox + [e], f, t);
  }

  lemma AppendRow(logs: seq<Entry>, entry: Entry, t: string)
    ensures RowsOf(logs + [entry], t) == RowsOf(logs, t) + if entry.row.tenantId == t then [entry.row] else []
  {
    assert (logs + [entry])[..|logs + [entry]| - 1] == logs;
  }

  lemma DecisionEventsOfMore(rows: seq<RequestLog>, row: RequestLog)
    ensures DecisionEvents(rows + [row]) == DecisionEvents(rows) + [DecisionEvent(row)]
  {
  }

  lemma WrittenCounts(db: Database, me: Session, t: string)
    requires me.Reserved? && (me.row.allowed ==> KeyOf(me.call) in db.rights) && me.call.api.tenantId in db.tenants
    ensures Usage(Written(db, me), t) == if t == me.call.api.tenantId then me.usageCount else Usage(db, t)
    ensures Quota(Written(db, me), t) == Quota(db, t)
  {
  }

  lemma WrittenEvents(db: Database, me: Session, t: string)
    requires me.Reserved? && (me.row.allowed ==> KeyOf(me.call) in db.rights)
    ensures Billed(Written(db, me).outbox, t)
      == Billed(db.outbox, t) + if me.row.tenantId == t then [me.usageCount] else []
    ensures Announced(Written(db, me).outbox, t)
      == Announced(db.outbox, t) + if me.row.tenantId == t then [DecisionEvent(me.row)] else []
  {
    AppendDecision(db.outbox, me.row, me.usageCount, t);
  }

  /** One more row, decision event and billing event agree as before. */
  lemma OneMoreBalances(rows: seq<RequestLog>, row: RequestLog, n: nat, announced: seq<EventBody>, billed: seq<int>)
    requires |rows| == n && announced == DecisionEvents(rows) && billed == CountTo(n)
    ensures |rows + [row]| == n + 1 && announced + [DecisionEvent(row)] == DecisionEvents(rows + [row])
    ensures billed + [n + 1] == CountTo(n + 1)
  {
    DecisionEventsOfMore(rows, row);
  }

  /** The writes of a reservation that is next in its tenant's count keep the books. */
  lemma WrittenBalances(db: Database, me: Session, t: string)
    requires me.Reserved? && (me.row.allowed ==> KeyOf(me.call) in db.rights)
    requires me.row.tenantId == me.call.api.tenantId && me.row.tenantId in db.tenants
    requires me.usageCount == Usage(db, me.row.tenantId) + 1 <= Quota(db, me.row.tenantId)
    requires Balanced(db, t)
    ensures Balanced(Written(db, me), t)
  {
    var row := me.row.(id := |db.logs|);
    var after := Written(db, me);
    WrittenCounts(db, me, t);
    assert RowsOf(after.logs, t) == RowsOf(db.logs, t) + if row.tenantId == t then [row] else [] by {
      AppendRow(db.logs, Entry(row, me.call.api.token, me.call.id, me.response), t);
    }
    WrittenEvents(db, me, t);
    if t == row.tenantId {
      OneMoreBalances(RowsOf(db.logs, t), row, Usage(db, t), Announced(db.outbox, t), Billed(db.outbox, t));
    }
  }

  lemma CommitBalances(digest: Digest, s: State, w: Worker, t: string)
    requires Inv(digest, s) && Commits(s, w) && Balanced(s.db, t)
    ensures Balanced(NextCommit(s, w).db, t)
  {
    assert SessionOk(digest, s, SessionOf(s, w));
    WrittenBalances(s.db, SessionOf(s, w), t);
  }

  lemma RevokeBalances(s: State, w: Worker, t: string)
    requires Revokes(s, w) && Balanced(s.db, t)
    ensures Balanced(NextCommitRevoke(s, w).db, t)
  {
    var me := SessionOf(s, w);
    AppendEvent(s.db.outbox,
                Event(me.key.tenantId, RightRevoked(me.key.rightId, me.right.ownerId, me.right.version + 1)), t);
  }

  /** Only these steps write tables. */
  predicate Writes(s: State, step: Step) {
    match step
    case CreateTenant(t, _) => t !in s.db.tenants
    case SetDevice(_, _) => true
    case CreateRight(key, _, _) => key !in s.db.rights
    case Commit(w) => Commits(s, w)
    case CommitRevoke(w) => Revokes(s, w)
    case _ => false
  }

  lemma OthersOnlyRead(digest: Digest, s: State, step: Step)
    requires !Writes(s, step)
    ensures Next(digest, s, step).db == s.db
  {
  }

  lemma AdminStepBalances(digest: Digest, s: State, step: Step, t: string)
    requires step.CreateTenant? || step.SetDevice? || step.CreateRight?
    requires Balanced(s.db, t)
    ensures Balanced(Next(digest, s, step).db, t)
  {
  }

  lemma NextBalances(digest: Digest, s: State, step: Step, t: string)
    requires Inv(digest, s) && Balanced(s.db, t)
    ensures Balanced(Next(digest, s, step).db, t)
  {
    if !Writes(s, step) {
      OthersOnlyRead(digest, s, step);
    } else if step.Commit? {
      CommitBalances(digest, s, step.worker, t);
    } else if step.CommitRevoke? {
      RevokeBalances(s, step.worker, t);
    } else {
      AdminStepBalances(digest, s, step, t);
    }
  }

  /**
    Quota and billing are conserved over every run, aborts and crashes included: a tenant's usage count is
    the number of its committed logs and within its quota, each log has its one decision event, and the
    billing events carry 1, 2, ..., usage count, without gap or repetition.
   */
  lemma {:induction false} QuotaIsConserved(digest: Digest, run: seq<Step>, t: string)
    ensures Balanced(Run(digest, run).db, t)
  {
    if run != [] {
      QuotaIsConserved(digest, run[..|run| - 1], t);
      RunKeepsInv(digest, run[..|run| - 1]);
      NextBalances(digest, Run(digest, run[..|run| - 1]), run[|run| - 1], t);
    }
  }

  /** A commit never fails for want of quota: what is reserved is still there. */
  lemma ReservationsAreKept(digest: Digest, run: seq<Step>, w: Worker)
    requires SessionOf(Run(digest, run), w).Reserved?
    ensures
      var s := Run(digest, run);
      var me := SessionOf(s, w);
      && me.usageCount == |RowsOf(s.db.logs, me.call.api.tenantId)| + 1
      && me.usageCount <= Quota(s.db, me.call.api.tenantId)
  {
    RunKeepsInv(digest, run);
    QuotaIsConserved(digest, run, SessionOf(Run(digest, run), w).call.api.tenantId);
    assert SessionOk(digest, Run(digest, run), SessionOf(Run(digest, run), w));
  }
}
