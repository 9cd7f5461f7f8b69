/** The rows of the request_logs table and the two orders in which they are read. */
module AuditLog {
  import opened Prelude
  import opened Sorting
  import opened Text
  import opened WorkflowEngine

  datatype RequestLog = RequestLog(
    id: nat,
    tenantId: string,
    rightId: string,
    deviceId: string,
    userId: string,
    ipHash: string,
    countryCode: string,
    requestType: string,
    transactionAmount: Option<real>,
    newOwnerId: Option<string>,
    allowed: bool,
    riskScore: int,
    reason: string,
    riskSignals: string,
    policyMatched: bool,
    policyName: Option<string>,
    policyId: Option<int>,
    policyVersion: Option<int>,
    traceId: string,
    idempotencyKey: string,
    requestFingerprint: string,
    decisionVersion: string,
    workflowVersion: Option<int>,
    decisionSource: Source,
    decisionPath: seq<PathStep>,
    createdAt: Time)

  const TRANSFER := "ownership_transfer"

  /** Rows have distinct ids: `id` is the primary key. */
  ghost predicate DistinctIds(logs: seq<RequestLog>) {
    forall i, j :: 0 <= i < j < |logs| ==> logs[i].id != logs[j].id
  }

  /** ORDER BY created_at, id */
  predicate RowLeq(a: RequestLog, b: RequestLog) {
    a.createdAt < b.createdAt || (a.createdAt == b.createdAt && a.id <= b.id)
  }

  /** The sort key of the risk engine: (created_at, id, trace_id). */
  predicate LogLeq(a: RequestLog, b: RequestLog) {
    || a.createdAt < b.createdAt
    || (a.createdAt == b.createdAt && (a.id < b.id || (a.id == b.id && StringLeq(a.traceId, b.traceId))))
  }

  lemma LogOrder()
    ensures Total(LogLeq)
  {
    forall a, b ensures LogLeq(a, b) || LogLeq(b, a) {
      StringOrder(a.traceId, b.traceId);
    }
    forall a, b, c | LogLeq(a, b) && LogLeq(b, c) ensures LogLeq(a, c) {
      if a.createdAt == b.createdAt == c.createdAt && a.id == b.id == c.id {
        StringLeqTransitive(a.traceId, b.traceId, c.traceId);
      }
    }
  }
}
