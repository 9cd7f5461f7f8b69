/** At most one log per tenant and idempotency key, and retries that answer the same and change nothing. */
module AccessIdempotency {
  import opened Prelude
  import opened DecisionResponses
  import opened AccessProtocol
  import opened AccessSafety
  import opened AccessLedger

  /** The unique constraint over (tenant_id, idempotency_key). */
  ghost predicate KeysAreUnique(logs: seq<Entry>) {
    forall i, j :: 0 <= i < j < |logs| ==>
      !(logs[i].row.tenantId == logs[j].row.tenantId && logs[i].row.idempotencyKey == logs[j].row.idempotencyKey)
  }

  /** The answer that went with each log can be rebuilt from it. */
  ghost predicate AnswersAreKept(logs: seq<Entry>) {
    forall i :: 0 <= i < |logs| ==> logs[i].row.id == i && logs[i].response == BuildIdempotentResponse(logs[i].row)
  }

  lemma CommitAppends(digest: Digest, s: State, w: Worker)
    requires Inv(digest, s) && Commits(s, w)
    ensures
      var me, t := SessionOf(s, w), NextCommit(s, w);
      && t.db.logs == s.db.logs + [Entry(me.row.(id := |s.db.logs|), me.call.api.token, me.call.id, me.response)]
      && me.response == BuildIdempotentResponse(me.row.(id := |s.db.logs|))
      && me.row.tenantId == me.call.api.tenantId
      && me.row.idempotencyKey == IdempotencyKey(digest, me.call)
      && me.row.requestFingerprint == FingerprintOf(digest, me.call)
  {
    assert SessionOk(digest, s, SessionOf(s, w));
  }

  ghost predicate LogsOk(logs: seq<Entry>) {
    KeysAreUnique(logs) && AnswersAreKept(logs)
  }

  lemma CommitKeepsKeys(digest: Digest, s: State, w: Worker)
    requires Inv(digest, s) && Commits(s, w) && LogsOk(s.db.logs)
    ensures LogsOk(NextCommit(s, w).db.logs)
  {
    CommitAppends(digest, s, w);
  }

  lemma NextKeepsKeys(digest: Digest, s: State, step: Step)
    requires Inv(digest, s) && LogsOk(s.db.logs)
    ensures LogsOk(Next(digest, s, step).db.logs)
  {
    if step.Commit? && Commits(s, step.worker) {
      CommitKeepsKeys(digest, s, step.worker);
    } else if !Writes(s, step) {
      OthersOnlyRead(digest, s, step);
    }
  }

  /** In every reachable state there is at most one log per tenant and key, and it determines the answer given. */
  lemma {:induction false} OneLogPerKey(digest: Digest, run: seq<Step>)
    ensures LogsOk(Run(digest, run).db.logs)
  {
    if run != [] {
      OneLogPerKey(digest, run[..|run| - 1]);
      RunKeepsInv(digest, run[..|run| - 1]);
      NextKeepsKeys(digest, Run(digest, run[..|run| - 1]), run[|run| - 1]);
    }
  }

  /** A request that looks for a log by an explicit key: before its mark, or after losing the race at the commit. */
  predicate Looks(me: Session) {
    && (me.Owning? || me.Losing?)
    && ExplicitKey(me.call.api).Some? && |ExplicitKey(me.call.api).value| <= 128
  }

  function LookAgain(digest: Digest, s: State, w: Worker): State
    requires Looks(SessionOf(s, w))
  {
    if SessionOf(s, w).Owning? then Next(digest, s, Lookup(w)) else Next(digest, s, FindWinner(w))
  }

  /** Log `i` has the tenant and key of the request. */
  predicate HasKeyOf(logs: seq<Entry>, i: nat, call: Call) {
    && i < |logs| && logs[i].row.tenantId == call.api.tenantId
    && Some(logs[i].row.idempotencyKey) == ExplicitKey(call.api)
  }

  lemma FoundLogIsTheOne(digest: Digest, logs: seq<Entry>, call: Call, i: nat)
    requires KeysAreUnique(logs) && HasKeyOf(logs, i, call)
    ensures FindLog(logs, call.api.tenantId, IdempotencyKey(digest, call)) == Some(i)
  {
    var found := FindLog(logs, call.api.tenantId, IdempotencyKey(digest, call));
    assert found.Some?;
  }

  /**
    The same request again gets the answer of the log, another request under its key is refused; nothing else
    happens.
   */
  ghost predicate Answers(digest: Digest, s: State, w: Worker, i: nat)
    requires Looks(SessionOf(s, w)) && HasKeyOf(s.db.logs, i, SessionOf(s, w).call)
  {
    LookAgain(digest, s, w) ==
      if s.db.logs[i].row.requestFingerprint == FingerprintOf(digest, SessionOf(s, w).call)
      then SetSession(s, w, Done(Repeated(s.db.logs[i].response)))
      else Refuse(s, w, KeyConflict)
  }

  lemma OwningLooksUp(digest: Digest, s: State, w: Worker, i: nat)
    requires LogsOk(s.db.logs) && Looks(SessionOf(s, w)) && HasKeyOf(s.db.logs, i, SessionOf(s, w).call)
    requires SessionOf(s, w).Owning?
    ensures Answers(digest, s, w, i)
  {
    FoundLogIsTheOne(digest, s.db.logs, SessionOf(s, w).call, i);
    assert LookAgain(digest, s, w) == NextLookup(digest, s, w);
  }

  lemma LosingLooksUp(digest: Digest, s: State, w: Worker, i: nat)
    requires LogsOk(s.db.logs) && Looks(SessionOf(s, w)) && HasKeyOf(s.db.logs, i, SessionOf(s, w).call)
    requires SessionOf(s, w).Losing?
    ensures Answers(digest, s, w, i)
  {
    FoundLogIsTheOne(digest, s.db.logs, SessionOf(s, w).call, i);
    assert LookAgain(digest, s, w) == NextFindWinner(digest, s, w);
  }

  lemma LooksUpTheOne(digest: Digest, s: State, w: Worker, i: nat)
    requires LogsOk(s.db.logs) && Looks(SessionOf(s, w)) && HasKeyOf(s.db.logs, i, SessionOf(s, w).call)
    ensures Answers(digest, s, w, i)
  {
    if SessionOf(s, w).Owning? {
      OwningLooksUp(digest, s, w, i);
    } else {
      LosingLooksUp(digest, s, w, i);
    }
  }

  /**
    A request that reaches the lookup with the key and the fingerprint of an earlier one gets that one's
    answer, and changes no log, usage, right, event, mark or cache entry; with another fingerprint it is
    refused. So does a request that loses the race at the commit.
   */
  lemma RetriesAreIdempotent(digest: Digest, run: seq<Step>, w: Worker, i: nat)
    requires Looks(SessionOf(Run(digest, run), w))
    requires HasKeyOf(Run(digest, run).db.logs, i, SessionOf(Run(digest, run), w).call)
    ensures Answers(digest, Run(digest, run), w, i)
  {
    OneLogPerKey(digest, run);
    LooksUpTheOne(digest, Run(digest, run), w, i);
  }
}
