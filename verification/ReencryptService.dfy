/**
  `reencrypt_webhook_secrets` as it runs: the table is updated in place, other workers take any steps in
  between (none in a quiet store), and every statement is a step of the protocol.
 */
module ReencryptService {
  import opened Prelude
  import opened Secrets
  import opened ReencryptProtocol
  import opened ReencryptSafety
  import opened ReencryptProgress

  datatype RowOutcome = Rewrote(rekeyed: bool) | Missed | Undecryptable | Locked

  datatype Result = Done(reencrypted: nat, remaining: bool) | ValueError | DatabaseError

  predicate StepOf(step: Step, w: Worker) {
    !step.AddKey? && !step.Subscribe? && step.worker == w
  }

  lemma OthersKeepOut(s: State, step: Step, w: Worker)
    requires !StepOf(step, w)
    ensures SessionOf(Next(s, step), w) == SessionOf(s, w)
    ensures forall k :: k in s.keys ==> k in Next(s, step).keys && Next(s, step).keys[k] == s.keys[k]
  {
  }

  // ----- A call that runs alone, from the table `before`

  function RowsIn(claimed: seq<Lease>): (ids: seq<nat>)
    ensures |ids| == |claimed| && forall k :: 0 <= k < |ids| ==> ids[k] == claimed[k].row
  {
    seq(|claimed|, k requires 0 <= k < |claimed| => claimed[k].row)
  }

  predicate SameSecret(a: Sub, b: Sub) {
    a.cipher == b.cipher && a.keyVersion == b.keyVersion && a.verified == b.verified
  }

  /** Only claim columns of the leased rows have changed, and the leases stand. */
  ghost predicate Leased(before: seq<Sub>, rows: seq<Sub>, claimed: seq<Lease>) {
    && |rows| == |before|
    && (forall i :: 0 <= i < |rows| ==>
          SameSecret(before[i], rows[i]) && (i !in RowsIn(claimed) ==> rows[i] == before[i]))
    && (forall k :: 0 <= k < |claimed| ==>
          claimed[k].row < |rows| && rows[claimed[k].row].claimedBy == Some(claimed[k].token))
  }

  ghost predicate NoLocks(s: State, w: Worker) {
    forall v :: v in s.sessions && v != w ==> s.sessions[v].Idle?
  }

  ghost predicate SoloClaiming(before: seq<Sub>, s: State, w: Worker, ring: Keyring, now: Time, limit: nat) {
    var me := SessionOf(s, w);
    && NoLocks(s, w)
    && me.Claiming? && me.ring == ring && me.now == now && me.limit == limit
    && me.candidates == CandidateIds(before, ring.active, now, 0, limit + 1)
    && me.tried <= |me.candidates| && |me.claimed| <= limit
    && RowsIn(me.claimed) == me.candidates[..me.tried]
    && Leased(before, s.rows, me.claimed)
  }

  lemma RowsInMore(claimed: seq<Lease>, lease: Lease)
    ensures RowsIn(claimed + [lease]) == RowsIn(claimed) + [lease.row]
  {
  }

  lemma LeaseOneMore(before: seq<Sub>, rows: seq<Sub>, claimed: seq<Lease>, lease: Lease, expires: Time)
    requires Leased(before, rows, claimed) && lease.row < |rows| && lease.row !in RowsIn(claimed)
    ensures
      var leased := rows[lease.row].(claimedBy := Some(lease.token), claimExpiresAt := Some(expires));
      Leased(before, rows[lease.row := leased], claimed + [lease])
  {
    var more := claimed + [lease];
    assert RowsIn(more) == RowsIn(claimed) + [lease.row];
    var leased := rows[lease.row].(claimedBy := Some(lease.token), claimExpiresAt := Some(expires));
    var after := rows[lease.row := leased];
    forall k | 0 <= k < |more| ensures more[k].row < |after| && after[more[k].row].claimedBy == Some(more[k].token) {
      if k < |claimed| {
        assert RowsIn(claimed)[k] == claimed[k].row;
      }
    }
  }

  /** In a quiet store the next candidate is claimed at once. */
  lemma SoloClaimSucceeds(before: seq<Sub>, s: State, w: Worker, ring: Keyring, now: Time, limit: nat, lease: Time)
    requires SoloClaiming(before, s, w, ring, now, limit)
    requires SessionOf(s, w).tried < |SessionOf(s, w).candidates| && |SessionOf(s, w).claimed| < limit
    ensures
      var me, t := SessionOf(s, w), NextClaim(s, w, lease);
      var row := me.candidates[me.tried];
      && row < |s.rows| && row !in RowsIn(me.claimed)
      && t.rows == s.rows[row := s.rows[row].(claimedBy := Some(s.nextToken), claimExpiresAt := Some(now + lease))]
      && t.sessions == s.sessions[w := me.(tried := me.tried + 1, claimed := me.claimed + [Lease(row, s.nextToken)])]
  {
    var me := SessionOf(s, w);
    CandidatesAreStale(before, ring.active, now, 0, limit + 1);
    var row := me.candidates[me.tried];
    assert row in me.candidates;
    assert row !in me.candidates[..me.tried] by {
      forall k | 0 <= k < me.tried ensures me.candidates[..me.tried][k] != row {
      }
    }
    assert s.rows[row] == before[row];
    assert !LockedFor(s, w, row);
  }

  lemma SoloClaimGoesOn(before: seq<Sub>, s: State, t: State, w: Worker, ring: Keyring, now: Time, limit: nat,
                        lease: Time)
    requires SoloClaiming(before, s, w, ring, now, limit)
    requires SessionOf(s, w).tried < |SessionOf(s, w).candidates| && |SessionOf(s, w).claimed| < limit
    requires
      var me := SessionOf(s, w);
      var row := me.candidates[me.tried];
      && row < |s.rows| && row !in RowsIn(me.claimed)
      && t.rows == s.rows[row := s.rows[row].(claimedBy := Some(s.nextToken), claimExpiresAt := Some(now + lease))]
      && t.sessions == s.sessions[w := me.(tried := me.tried + 1, claimed := me.claimed + [Lease(row, s.nextToken)])]
    ensures SoloClaiming(before, t, w, ring, now, limit)
  {
    var me := SessionOf(s, w);
    var row := me.candidates[me.tried];
    LeaseOneMore(before, s.rows, me.claimed, Lease(row, s.nextToken), now + lease);
    RowsInMore(me.claimed, Lease(row, s.nextToken));
    assert me.candidates[..me.tried] + [row] == me.candidates[..me.tried + 1];
  }

  lemma SoloClaimStep(before: seq<Sub>, s: State, w: Worker, ring: Keyring, now: Time, limit: nat, lease: Time)
    requires SoloClaiming(before, s, w, ring, now, limit)
    requires SessionOf(s, w).tried < |SessionOf(s, w).candidates| && |SessionOf(s, w).claimed| < limit
    ensures SoloClaiming(before, NextClaim(s, w, lease), w, ring, now, limit)
  {
    SoloClaimSucceeds(before, s, w, ring, now, limit, lease);
    SoloClaimGoesOn(before, s, NextClaim(s, w, lease), w, ring, now, limit, lease);
  }

  /** How many of these rows do not open under the active key first. */
  function CountRekeyed(ring: Keyring, rows: seq<Sub>, ids: seq<nat>): nat
    requires forall k :: 0 <= k < |ids| ==> ids[k] < |rows|
  {
    if ids == [] then 0
    else
      var row := rows[ids[|ids| - 1]];
      var found := Decrypt(ring, row.cipher, Some(row.keyVersion));
      CountRekeyed(ring, rows, ids[..|ids| - 1]) + if found.Some? && found.value.kid != ring.active then 1 else 0
  }

  /** Exactly the first `done` leased rows have been rewritten. */
  ghost predicate Written(ring: Keyring, before: seq<Sub>, claimed: seq<Lease>, done: nat, writes: map<nat, Write>) {
    && done <= |claimed|
    && (forall k :: 0 <= k < done ==>
          && claimed[k].row < |before| && claimed[k].row in writes
          && Migrated(ring, before[claimed[k].row], writes[claimed[k].row].target))
    && (forall i :: i in writes ==> exists k :: 0 <= k < done && claimed[k].row == i)
  }

  ghost predicate SoloWorking(before: seq<Sub>, s: State, w: Worker, ring: Keyring, now: Time, limit: nat) {
    var me := SessionOf(s, w);
    && NoLocks(s, w)
    && me.Working? && me.ring == ring && me.loaded.None?
    && RowsIn(me.claimed) == Chosen(before, ring.active, now, limit)
    && Leased(before, s.rows, me.claimed)
    && Written(ring, before, me.claimed, me.done, me.writes)
  }

  /** The claiming loop stops after min(limit, candidates) rows: the chosen ones. */
  lemma PrefixIsChosen(before: seq<Sub>, ring: Keyring, now: Time, limit: nat, tried: nat)
    requires
      var ids := CandidateIds(before, ring.active, now, 0, limit + 1);
      tried <= |ids| && tried <= limit && (tried == |ids| || tried == limit)
    ensures CandidateIds(before, ring.active, now, 0, limit + 1)[..tried] == Chosen(before, ring.active, now, limit)
  {
    CandidatesArePrefix(before, ring.active, now, 0, limit);
    CandidatesAreCounted(before, ring.active, now, 0, limit);
    CandidatesAreCounted(before, ring.active, now, 0, limit + 1);
  }

  lemma SoloBegins(before: seq<Sub>, s: State, w: Worker, ring: Keyring, now: Time, limit: nat)
    requires SoloClaiming(before, s, w, ring, now, limit)
    requires var me := SessionOf(s, w); me.tried == |me.candidates| || |me.claimed| >= limit
    ensures SoloWorking(before, Next(s, BeginWork(w)), w, ring, now, limit)
  {
    var me := SessionOf(s, w);
    PrefixIsChosen(before, ring, now, limit, me.tried);
    assert me.tried == |RowsIn(me.claimed)| == |me.claimed|;
  }

  lemma RewritingMigrates(keys: map<Kid, Key>, ring: Keyring, before: Sub, row: Sub, nonce: nat)
    requires RingOk(keys, ring) && SameSecret(before, row) && Rewritten(ring, row, nonce).Some?
    ensures Migrated(ring, before, Rewritten(ring, row, nonce).value)
  {
    DecryptFindsTheKey(ring, row.cipher, Some(row.keyVersion));
  }

  lemma WriteOneMore(ring: Keyring, before: seq<Sub>, claimed: seq<Lease>, done: nat, writes: map<nat, Write>,
                     write: Write)
    requires Written(ring, before, claimed, done, writes) && done < |claimed|
    requires claimed[done].row < |before| && Migrated(ring, before[claimed[done].row], write.target)
    requires forall i, j :: 0 <= i < j < |claimed| ==> claimed[i].row != claimed[j].row
    ensures claimed[done].row !in writes
    ensures Written(ring, before, claimed, done + 1, writes[claimed[done].row := write])
  {
    var more := writes[claimed[done].row := write];
    forall i | i in more ensures exists k :: 0 <= k < done + 1 && claimed[k].row == i {
      if i in writes && i != claimed[done].row {
        var k :| 0 <= k < done && claimed[k].row == i;
        assert claimed[k].row == i;
      } else {
        assert claimed[done].row == i;
      }
    }
  }

  lemma ChosenRowsDiffer(rows: seq<Sub>, ring: Keyring, now: Time, limit: nat, claimed: seq<Lease>)
    requires RowsIn(claimed) == Chosen(rows, ring.active, now, limit)
    ensures forall i, j :: 0 <= i < j < |claimed| ==> claimed[i].row != claimed[j].row
    ensures forall i :: 0 <= i < |claimed| ==> claimed[i].row < |rows|
  {
    var ids := RowsIn(claimed);
    assert forall i, j :: 0 <= i < j < |ids| ==> ids[i] < ids[j];
    forall i | 0 <= i < |claimed| ensures claimed[i].row < |rows| {
      assert ids[i] == claimed[i].row;
    }
    forall i, j | 0 <= i < j < |claimed| ensures claimed[i].row != claimed[j].row {
      assert ids[i] < ids[j];
    }
  }

  /** In a quiet store nothing is in the way of the next row. */
  lemma SoloRowIsFree(before: seq<Sub>, s: State, w: Worker, ring: Keyring, now: Time, limit: nat)
    requires SoloWorking(before, s, w, ring, now, limit) && SessionOf(s, w).done < |SessionOf(s, w).claimed|
    ensures
      var me := SessionOf(s, w);
      var lease := me.claimed[me.done];
      var loaded := me.(loaded := Some(s.rows[lease.row]));
      && lease.row < |s.rows| && s.rows[lease.row].claimedBy == Some(lease.token) && lease.row !in me.writes
      && NextLoad(s, w) == SetSession(s, w, loaded) && !LockedFor(SetSession(s, w, loaded), w, lease.row)
  {
    ChosenRowsDiffer(before, ring, now, limit, SessionOf(s, w).claimed);
  }

  /** In a quiet store a leased row that opens is rewritten at once. */
  lemma SoloRewriteStep(before: seq<Sub>, s: State, w: Worker, ring: Keyring, now: Time, limit: nat, nonce: nat)
    requires RingOk(s.keys, ring) && SoloWorking(before, s, w, ring, now, limit)
    requires SessionOf(s, w).done < |SessionOf(s, w).claimed|
    requires Rewritten(ring, s.rows[SessionOf(s, w).claimed[SessionOf(s, w).done].row], nonce).Some?
    ensures SessionOf(NextLoad(s, w), w).Working?
    ensures
      var me := SessionOf(s, w);
      var row := me.claimed[me.done].row;
      var write := Write(s.rows[row], Rewritten(ring, s.rows[row], nonce).value);
      var t := NextRewrite(NextLoad(s, w), w, nonce);
      && t.rows == s.rows && NoLocks(t, w)
      && SessionOf(t, w) == me.(done := me.done + 1, loaded := None, writes := me.writes[row := write])
  {
    SoloRowIsFree(before, s, w, ring, now, limit);
    RewriteApplies(NextLoad(s, w), w, nonce);
  }

  lemma SoloWorkingStep(before: seq<Sub>, s: State, w: Worker, ring: Keyring, now: Time, limit: nat, nonce: nat)
    requires RingOk(s.keys, ring) && SoloWorking(before, s, w, ring, now, limit)
    requires SessionOf(s, w).done < |SessionOf(s, w).claimed|
    requires Rewritten(ring, s.rows[SessionOf(s, w).claimed[SessionOf(s, w).done].row], nonce).Some?
    ensures SessionOf(NextLoad(s, w), w).Working?
    ensures SoloWorking(before, NextRewrite(NextLoad(s, w), w, nonce), w, ring, now, limit)
  {
    var me := SessionOf(s, w);
    var row := me.claimed[me.done].row;
    SoloRewriteStep(before, s, w, ring, now, limit, nonce);
    ChosenRowsDiffer(before, ring, now, limit, me.claimed);
    RewritingMigrates(s.keys, ring, before[row], s.rows[row], nonce);
    WriteOneMore(ring, before, me.claimed, me.done, me.writes,
                 Write(s.rows[row], Rewritten(ring, s.rows[row], nonce).value));
  }

  lemma SoloCommitStep(before: seq<Sub>, s: State, w: Worker, ring: Keyring, now: Time, limit: nat)
    requires SoloWorking(before, s, w, ring, now, limit) && SessionOf(s, w).done == |SessionOf(s, w).claimed|
    ensures Call(ring, now, limit, before, Next(s, Commit(w)).rows)
  {
    var me := SessionOf(s, w);
    var rows := Applied(s.rows, me.writes);
    var ids := RowsIn(me.claimed);
    forall i | 0 <= i < |before|
      ensures if i in ids then Migrated(ring, before[i], rows[i]) else rows[i] == before[i]
    {
      if i in ids {
        var k :| 0 <= k < |ids| && ids[k] == i;
        assert me.claimed[k].row == i;
      } else {
        assert forall k :: 0 <= k < |me.claimed| ==> me.claimed[k].row == ids[k];
      }
    }
  }

  // ----- The failing call

  /** No secret, label or verified flag has changed. */
  ghost predicate SecretsUnchanged(before: seq<Sub>, rows: seq<Sub>) {
    |rows| == |before| && forall i :: 0 <= i < |rows| ==> SameSecret(before[i], rows[i])
  }

  predicate ClaimsExist(claimed: seq<Lease>, rows: seq<Sub>) {
    forall k :: 0 <= k < |claimed| ==> claimed[k].row < |rows|
  }

  ghost predicate SoloReleasing(before: seq<Sub>, s: State, w: Worker) {
    && NoLocks(s, w) && SessionOf(s, w).Releasing? && SecretsUnchanged(before, s.rows)
    && SessionOf(s, w).released <= |SessionOf(s, w).claimed|
    && ClaimsExist(SessionOf(s, w).claimed, s.rows)
  }

  lemma SoloReleaseStep(before: seq<Sub>, s: State, w: Worker)
    requires SoloReleasing(before, s, w) && SessionOf(s, w).released < |SessionOf(s, w).claimed|
    ensures SoloReleasing(before, NextRelease(s, w), w)
    ensures SoloReleasing(before, Next(s, ReleaseFails(w)), w)
    ensures SessionOf(NextRelease(s, w), w).released == SessionOf(s, w).released + 1
    ensures SessionOf(NextRelease(s, w), w).claimed == SessionOf(s, w).claimed
  {
    assert !LockedFor(s, w, SessionOf(s, w).claimed[SessionOf(s, w).released].row);
  }

  /** In a quiet store, the row just loaded opens exactly if it did before the call. */
  lemma SoloLoads(before: seq<Sub>, s: State, w: Worker, ring: Keyring, now: Time, limit: nat)
    requires SoloWorking(before, s, w, ring, now, limit) && SessionOf(s, w).done < |SessionOf(s, w).claimed|
    ensures
      var me := SessionOf(s, w);
      var row := me.claimed[me.done].row;
      && row < |s.rows| == |before| && SameSecret(before[row], s.rows[row])
      && row == Chosen(before, ring.active, now, limit)[me.done]
      && (forall v :: !LockedFor(NextLoad(s, w), w, v))
  {
    var me := SessionOf(s, w);
    assert RowsIn(me.claimed)[me.done] == me.claimed[me.done].row;
  }

  lemma SoloKeepsSecrets(before: seq<Sub>, s: State, w: Worker, ring: Keyring, now: Time, limit: nat)
    requires SoloWorking(before, s, w, ring, now, limit)
    ensures SecretsUnchanged(before, s.rows) && ClaimsExist(SessionOf(s, w).claimed, s.rows)
    ensures SecretsUnchanged(before, NextLoad(s, w).rows) && ClaimsExist(SessionOf(NextLoad(s, w), w).claimed, s.rows)
  {
  }

  /** Every chosen row opens with this ring. */
  predicate AllDecryptable(ring: Keyring, before: seq<Sub>, now: Time, limit: nat) {
    forall i :: i in Chosen(before, ring.active, now, limit) ==>
      Decrypt(ring, before[i].cipher, Some(before[i].keyVersion)).Some?
  }

  /** One turn of the loop in a quiet store: the row is rewritten unless it cannot be opened. */
  ghost predicate SoloTurn(before: seq<Sub>, s: State, w: Worker, ring: Keyring, now: Time, limit: nat, done: nat,
                           outcome: RowOutcome) {
    var ids := Chosen(before, ring.active, now, limit);
    && done < |ids|
    && var found := Decrypt(ring, before[ids[done]].cipher, Some(before[ids[done]].keyVersion));
    && match outcome
       case Rewrote(rekeyed) =>
         && found.Some? && (rekeyed <==> found.value.kid != ring.active)
         && SoloWorking(before, s, w, ring, now, limit)
       case Undecryptable =>
         found.None? && NoLocks(s, w) && SecretsUnchanged(before, s.rows)
         && SessionOf(s, w).Working? && ClaimsExist(SessionOf(s, w).claimed, s.rows)
       case _ => false
  }

  ghost predicate SoloProgress(before: seq<Sub>, s: State, w: Worker, ring: Keyring, now: Time, limit: nat,
                               reencrypted: nat) {
    var ids := Chosen(before, ring.active, now, limit);
    && SoloWorking(before, s, w, ring, now, limit)
    && reencrypted == CountRekeyed(ring, before, ids[..SessionOf(s, w).done])
  }

  ghost predicate SoloWork(before: seq<Sub>, s: State, w: Worker, ring: Keyring, now: Time, limit: nat,
                           outcome: RowOutcome, n: nat) {
    && !outcome.Locked? && NoLocks(s, w) && SecretsUnchanged(before, s.rows)
    && SessionOf(s, w).Working? && ClaimsExist(SessionOf(s, w).claimed, s.rows)
    && if outcome.Undecryptable? then !AllDecryptable(ring, before, now, limit)
       else SoloProgress(before, s, w, ring, now, limit, n)
  }

  lemma SoloCounts(ring: Keyring, before: seq<Sub>, ids: seq<nat>, done: nat)
    requires done < |ids| && forall k :: 0 <= k < |ids| ==> ids[k] < |before|
    ensures
      var row := before[ids[done]];
      var found := Decrypt(ring, row.cipher, Some(row.keyVersion));
      CountRekeyed(ring, before, ids[..done + 1])
        == CountRekeyed(ring, before, ids[..done]) + if found.Some? && found.value.kid != ring.active then 1 else 0
  {
    assert ids[..done + 1][..done] == ids[..done];
  }

  lemma SoloTurnWorks(before: seq<Sub>, s: State, w: Worker, ring: Keyring, now: Time, limit: nat, done: nat,
                      outcome: RowOutcome, count: nat)
    requires SoloTurn(before, s, w, ring, now, limit, done, outcome)
    requires outcome.Rewrote? ==> SessionOf(s, w).Working? && SessionOf(s, w).done == done + 1
    requires count == CountRekeyed(ring, before, Chosen(before, ring.active, now, limit)[..done])
    ensures SoloWork(before, s, w, ring, now, limit, outcome, if outcome == Rewrote(true) then count + 1 else count)
  {
    var ids := Chosen(before, ring.active, now, limit);
    SoloCounts(ring, before, ids, done);
    if outcome.Rewrote? {
      SoloKeepsSecrets(before, s, w, ring, now, limit);
    } else {
      assert ids[done] in ids;
    }
  }

  /** What one UPDATE of the loaded row reports, and does. */
  ghost predicate RewriteResult(s: State, t: State, w: Worker, nonce: nat, outcome: RowOutcome)
    requires SessionOf(s, w).Working? && SessionOf(s, w).loaded.Some?
    requires SessionOf(s, w).done < |SessionOf(s, w).claimed|
  {
    var me := SessionOf(s, w);
    var found := Decrypt(me.ring, me.loaded.value.cipher, Some(me.loaded.value.keyVersion));
    && (outcome.Undecryptable? <==> found.None?)
    && (outcome.Undecryptable? || outcome.Locked? ==> t == s)
    && (outcome.Locked? ==> LockedFor(s, w, me.claimed[me.done].row))
    && (outcome.Rewrote? || outcome.Missed? ==>
          Rewritten(me.ring, me.loaded.value, nonce).Some? && t == NextRewrite(s, w, nonce))
    && (outcome.Rewrote? ==> (outcome.rekeyed <==> found.value.kid != me.ring.active))
    && (outcome.Missed? ==> SessionOf(t, w).Working? && SessionOf(t, w).writes == me.writes)
    && (outcome.Rewrote? || outcome.Missed? ==>
          RekeyCount(t, w) == RekeyCount(s, w) + if outcome == Rewrote(true) then 1 else 0)
  }

  /** The rewrites of a transaction whose secret did not open under the active key at first. */
  function Rekeyed(ring: Keyring, writes: map<nat, Write>): set<nat> {
    set i | i in writes && ChangesKey(ring, writes[i].source)
  }

  predicate ChangesKey(ring: Keyring, row: Sub) {
    var found := Decrypt(ring, row.cipher, Some(row.keyVersion));
    found.Some? && found.value.kid != ring.active
  }

  lemma OneMoreRewrite(ring: Keyring, writes: map<nat, Write>, row: nat, write: Write)
    requires row !in writes
    ensures |Rekeyed(ring, writes[row := write])|
      == |Rekeyed(ring, writes)| + if ChangesKey(ring, write.source) then 1 else 0
  {
    var more, before := Rekeyed(ring, writes[row := write]), Rekeyed(ring, writes);
    forall i ensures i in more <==> i in before || (i == row && ChangesKey(ring, write.source)) {
    }
    if ChangesKey(ring, write.source) {
      assert more == before + {row};
    } else {
      assert more == before;
    }
  }

  // ----- What a call reports, in whatever company

  /** `remaining` is the answer for the table at the moment of the selection. */
  ghost predicate HasSelected(start: State, trace: seq<Step>, from: nat, w: Worker, ring: Keyring, now: Time,
                              limit: nat,
                              remaining: bool) {
    exists k :: from <= k < |trace| && trace[k] == Start(w, ring, now, limit)
      && (remaining <==> Remaining(ring, now, limit, Run(start, trace[..k]).rows))
  }

  /** How many rewrites of the open transaction changed the key. */
  function RekeyCount(s: State, w: Worker): nat {
    var me := SessionOf(s, w);
    if me.Working? then |Rekeyed(me.ring, me.writes)| else 0
  }

  /** `n` counts the rewrites of the transaction that changed the key, and it is ready to be committed. */
  ghost predicate CommitsRekeys(s: State, w: Worker, ring: Keyring, n: nat) {
    var me := SessionOf(s, w);
    me.Working? && me.ring == ring && me.done == |me.claimed| && n == RekeyCount(s, w)
  }

  ghost predicate HasCommitted(start: State, trace: seq<Step>, from: nat, w: Worker, ring: Keyring, n: nat) {
    exists k :: from <= k < |trace| && trace[k] == Commit(w) && CommitsRekeys(Run(start, trace[..k]), w, ring, n)
  }

  lemma SelectsNow(start: State, trace: seq<Step>, s: State, w: Worker, ring: Keyring, now: Time, limit: nat,
                   remaining: bool)
    requires Reaches(start, trace, s)
    requires remaining <==> |CandidateIds(s.rows, ring.active, now, 0, limit + 1)| > limit
    ensures HasSelected(start, trace + [Start(w, ring, now, limit)], |trace|, w, ring, now, limit, remaining)
  {
    var more := trace + [Start(w, ring, now, limit)];
    assert more[..|trace|] == trace && Run(start, trace) == s;
    CandidatesAreCounted(s.rows, ring.active, now, 0, limit + 1);
    CountMeans(s.rows, ring.active, now);
    assert more[|trace|] == Start(w, ring, now, limit);
  }

  lemma CommitsNow(start: State, trace: seq<Step>, s: State, w: Worker, ring: Keyring, n: nat)
    requires Reaches(start, trace, s) && CommitsRekeys(s, w, ring, n)
    ensures HasCommitted(start, trace + [Commit(w)], |trace|, w, ring, n)
  {
    var more := trace + [Commit(w)];
    assert more[..|trace|] == trace && Run(start, trace) == s;
    assert more[|trace|] == Commit(w);
  }

  lemma SelectionStays(start: State, trace: seq<Step>, more: seq<Step>, from: nat, w: Worker, ring: Keyring, now: Time,
                       limit: nat, remaining: bool)
    requires HasSelected(start, trace, from, w, ring, now, limit, remaining) && trace <= more
    ensures forall low: nat :: low <= from ==> HasSelected(start, more, low, w, ring, now, limit, remaining)
  {
    var k :| from <= k < |trace| && trace[k] == Start(w, ring, now, limit)
      && (remaining <==> Remaining(ring, now, limit, Run(start, trace[..k]).rows));
    assert more[..k] == trace[..k] && more[k] == trace[k];
  }

  lemma SoloTurns(before: seq<Sub>, s: State, t: State, w: Worker, ring: Keyring, now: Time, limit: nat, nonce: nat,
                  outcome: RowOutcome)
    requires SoloWorking(before, s, w, ring, now, limit) && SessionOf(s, w).done < |SessionOf(s, w).claimed|
    requires RingOk(s.keys, ring)
    requires
      var me := SessionOf(NextLoad(s, w), w);
      me.Working? && me.loaded.Some? && me.done < |me.claimed| && RewriteResult(NextLoad(s, w), t, w, nonce, outcome)
    ensures SoloTurn(before, t, w, ring, now, limit, SessionOf(s, w).done, outcome)
  {
    SoloLoads(before, s, w, ring, now, limit);
    SoloKeepsSecrets(before, s, w, ring, now, limit);
    if Rewritten(ring, s.rows[SessionOf(s, w).claimed[SessionOf(s, w).done].row], nonce).Some? {
      SoloRewriteStep(before, s, w, ring, now, limit, nonce);
      SoloWorkingStep(before, s, w, ring, now, limit, nonce);
    }
  }

  lemma SoloStarts(before: seq<Sub>, s: State, w: Worker, ring: Keyring, now: Time, limit: nat)
    requires NoLocks(s, w) && s.rows == before
    requires SessionOf(s, w) == Claiming(ring, now, limit, CandidateIds(before, ring.active, now, 0, limit + 1), 0, [])
    ensures SoloClaiming(before, s, w, ring, now, limit)
    ensures |SessionOf(s, w).candidates| > limit <==> Remaining(ring, now, limit, before)
  {
    CandidatesAreCounted(before, ring.active, now, 0, limit + 1);
    CountMeans(before, ring.active, now);
  }

  /**
    The whole outcome of an uncontended call: complete success on the lowest rows that it may take, or no change to
    any secret.
   */
  ghost predicate Outcome(ring: Keyring, now: Time, limit: nat, before: seq<Sub>, after: seq<Sub>, r: Result) {
    match r
    case Done(reencrypted, remaining) =>
      && KeyOf(ring.entries, ring.active).Some?
      && Call(ring, now, limit, before, after)
      && Lowest(Chosen(before, ring.active, now, limit), Takeable(before, ring.active, now), limit)
      && reencrypted == CountRekeyed(ring, before, Chosen(before, ring.active, now, limit))
      && (remaining <==> Remaining(ring, now, limit, before))
    case ValueError =>
      && SecretsUnchanged(before, after)
      && (KeyOf(ring.entries, ring.active).None? || !AllDecryptable(ring, before, now, limit))
    case DatabaseError => SecretsUnchanged(before, after)
  }

  lemma SoloCommits(before: seq<Sub>, s: State, w: Worker, ring: Keyring, now: Time, limit: nat, n: nat,
                    remaining: bool)
    requires SoloProgress(before, s, w, ring, now, limit, n) && SessionOf(s, w).done == |SessionOf(s, w).claimed|
    requires KeyOf(ring.entries, ring.active).Some?
    requires remaining <==> Remaining(ring, now, limit, before)
    ensures Outcome(ring, now, limit, before, Next(s, Commit(w)).rows, Done(n, remaining))
  {
    SoloCommitStep(before, s, w, ring, now, limit);
    ChosenAreLowest(before, ring.active, now, limit);
    var ids := Chosen(before, ring.active, now, limit);
    assert ids[..|ids|] == ids;
  }

  lemma SoloFails(before: seq<Sub>, after: seq<Sub>, ring: Keyring, now: Time, limit: nat, undecryptable: bool)
    requires SecretsUnchanged(before, after) && (undecryptable ==> !AllDecryptable(ring, before, now, limit))
    ensures Outcome(ring, now, limit, before, after, if undecryptable then ValueError else DatabaseError)
  {
  }

  /** At some point from `from` on the worker met a row that another one's open transaction had rewritten. */
  ghost predicate HasMetLock(start: State, trace: seq<Step>, from: nat, w: Worker) {
    exists k, row :: from <= k <= |trace| && LockedFor(Run(start, trace[..k]), w, row)
  }

  lemma MeetsLock(start: State, trace: seq<Step>, s: State, w: Worker, row: nat)
    requires Reaches(start, trace, s) && LockedFor(s, w, row)
    ensures HasMetLock(start, trace, |trace|, w)
  {
    assert trace[..|trace|] == trace && LockedFor(Run(start, trace[..|trace|]), w, row);
  }

  lemma LockStaysMet(start: State, trace: seq<Step>, more: seq<Step>, from: nat, w: Worker)
    requires HasMetLock(start, trace, from, w) && trace <= more
    ensures forall low: nat :: low <= from ==> HasMetLock(start, more, low, w)
  {
    var k, row :| from <= k <= |trace| && LockedFor(Run(start, trace[..k]), w, row);
    forall low: nat | low <= from ensures HasMetLock(start, more, low, w) {
      assert more[..k] == trace[..k] && LockedFor(Run(start, more[..k]), w, row);
    }
  }

  class WebhookStore {
    ghost const start: State
    const quiet: bool
    const faultless: bool
    const lease: Time
    var keys: map<Kid, Key>
    var rows: seq<Sub>
    var sessions: map<Worker, Session>
    var nextToken: Token
    ghost var trace: seq<Step>

    function View(): State
      reads this
    {
      State(keys, rows, sessions, nextToken)
    }

    /** The state is the one that the trace leads to. */
    ghost predicate Valid()
      reads this
    {
      Reaches(start, trace, View())
    }

    /** Nobody else is at work here: the store is quiet and the other workers are idle. */
    ghost predicate Alone(w: Worker)
      reads this
    {
      quiet && NoLocks(View(), w)
    }

    function Session(w: Worker): ReencryptProtocol.Session
      reads this
    {
      if w in sessions then sessions[w] else Idle
    }

    /** Whether others are at work, and whether the database may fail, are inputs. */
    constructor (table: State, quiet: bool, faultless: bool, lease: Time)
      ensures Valid() && View() == start == table && trace == []
      ensures this.quiet == quiet && this.faultless == faultless && this.lease == lease
    {
      start, this.quiet, this.faultless, this.lease := table, quiet, faultless, lease;
      keys, rows, sessions, nextToken := table.keys, table.rows, table.sessions, table.nextToken;
      trace := [];
    }

    ghost method Record(step: Step, before: State)
      requires Reaches(start, trace, before) && View() == Next(before, step)
      modifies this`trace
      ensures Valid() && trace == old(trace) + [step]
    {
      ReachesNext(start, trace, before, step);
      trace := trace + [step];
    }

    /** Anything the others may do meanwhile. */
    method Interfere(w: Worker)
      requires Valid()
      modifies this
      ensures Valid() && Session(w) == old(Session(w)) && old(trace) <= trace
      ensures forall k :: k in old(keys) ==> k in keys && keys[k] == old(keys)[k]
      ensures quiet ==> View() == old(View())
    {
      if !quiet {
        var steps: seq<Step> := *;
        for i := 0 to |steps|
          invariant Valid() && Session(w) == old(Session(w)) && old(trace) <= trace
          invariant forall k :: k in old(keys) ==> k in keys && keys[k] == old(keys)[k]
        {
          if !StepOf(steps[i], w) {
            TakeStep(w, steps[i]);
          }
        }
      }
    }

    method TakeStep(w: Worker, step: Step)
      requires Valid() && !StepOf(step, w)
      modifies this
      ensures Valid() && Session(w) == old(Session(w)) && trace == old(trace) + [step]
      ensures forall k :: k in old(keys) ==> k in keys && keys[k] == old(keys)[k]
    {
      ghost var before := View();
      OthersKeepOut(View(), step, w);
      var t := Next(State(keys, rows, sessions, nextToken), step);
      keys, rows, sessions, nextToken := t.keys, t.rows, t.sessions, t.nextToken;
      Record(step, before);
    }

    /** `_claim_webhook_for_reencryption` for the next candidate; a lock that is not released in time raises. */
    method ClaimNext(w: Worker) returns (raised: bool)
      requires Valid() && Session(w).Claiming?
      requires Session(w).tried < |Session(w).candidates| && |Session(w).claimed| < Session(w).limit
      modifies this
      ensures Valid() && (raised <==> LockedFor(old(View()), w, old(Session(w)).candidates[old(Session(w)).tried]))
      ensures View() == NextClaim(old(View()), w, lease)
      ensures old(trace) <= trace && keys == old(keys)
      ensures raised ==> View() == old(View()) && trace == old(trace)
    {
      ghost var before := View();
      var me := Session(w);
      var row := me.candidates[me.tried];
      raised := LockedFor(View(), w, row);
      if !raised {
        var token := nextToken;
        nextToken := nextToken + 1;
        if row < |rows| && Free(rows[row], me.now) {
          rows := rows[row := rows[row].(claimedBy := Some(token), claimExpiresAt := Some(me.now + lease))];
          sessions := sessions[w := me.(tried := me.tried + 1, claimed := me.claimed + [Lease(row, token)])];
        } else {
          sessions := sessions[w := me.(tried := me.tried + 1)];
        }
        Record(Claim(w, lease), before);
      }
    }

    /** `_release_webhook_reencrypt_claim` for the next lease, or the SQLAlchemyError it may raise. */
    method ReleaseNext(w: Worker, raises: bool)
      requires Valid() && Session(w).Releasing? && Session(w).released < |Session(w).claimed|
      modifies this
      ensures Valid() && old(trace) <= trace
      ensures var me := old(Session(w));
              View() == if raises || LockedFor(old(View()), w, me.claimed[me.released].row)
                        then Next(old(View()), ReleaseFails(w))
                        else NextRelease(old(View()), w)
    {
      ghost var before := View();
      var me := Session(w);
      var held := me.claimed[me.released];
      if raises || LockedFor(View(), w, held.row) {
        sessions := sessions[w := me.(released := me.released + 1)];
        Record(ReleaseFails(w), before);
      } else {
        if held.row < |rows| && rows[held.row].claimedBy == Some(held.token) {
          rows := rows[held.row := rows[held.row].(claimedBy := None, claimExpiresAt := None)];
        }
        sessions := sessions[w := me.(released := me.released + 1)];
        Record(Release(w), before);
      }
    }

    /** Rollback, and a release of every claim; nothing but claim columns differs from the beginning. */
    method RollbackAndRelease(w: Worker, ghost solo: bool, ghost before: seq<Sub>)
      requires Valid() && (Session(w).Claiming? || Session(w).Working?)
      requires solo ==> Alone(w) && SecretsUnchanged(before, rows) && ClaimsExist(Session(w).claimed, rows)
      modifies this
      ensures Valid() && old(trace) <= trace && Session(w).Idle?
      ensures solo ==> SecretsUnchanged(before, rows)
    {
      ghost var was := View();
      sessions := sessions[w := Releasing(Session(w).claimed, 0)];
      Record(Fail(w), was);
      while Session(w).released < |Session(w).claimed|
        invariant Valid() && old(trace) <= trace && Session(w).Releasing?
        invariant Session(w).released <= |Session(w).claimed|
        invariant solo ==> SoloReleasing(before, View(), w)
        decreases |Session(w).claimed| - Session(w).released
      {
        Interfere(w);
        var raises: bool := *;
        ReleaseOne(w, solo, before, raises);
      }
      was := View();
      sessions := sessions[w := Idle];
      Record(Release(w), was);
    }

    method ReleaseOne(w: Worker, ghost solo: bool, ghost before: seq<Sub>, raises: bool)
      requires Valid() && Session(w).Releasing? && Session(w).released < |Session(w).claimed|
      requires solo ==> SoloReleasing(before, View(), w)
      modifies this
      ensures Valid() && old(trace) <= trace && Session(w).Releasing?
      ensures Session(w).released == old(Session(w)).released + 1 && Session(w).claimed == old(Session(w)).claimed
      ensures solo ==> SoloReleasing(before, View(), w)
    {
      if solo { SoloReleaseStep(before, View(), w); }
      ReleaseNext(w, raises);
    }

    method SelectCandidates(w: Worker, ring: Keyring, now: Time, limit: nat)
      requires Valid() && Session(w).Idle? && RingOk(keys, ring)
      modifies this
      ensures Valid() && View() == Next(old(View()), Start(w, ring, now, limit))
      ensures trace == old(trace) + [Start(w, ring, now, limit)]
    {
      ghost var before := View();
      sessions := sessions[w := Claiming(ring, now, limit, CandidateIds(rows, ring.active, now, 0, limit + 1), 0, [])];
      Record(Start(w, ring, now, limit), before);
    }

    /** The query, and whether it found more than the limit. */
    method Select(w: Worker, ghost solo: bool, ghost before: seq<Sub>, ring: Keyring, now: Time, limit: nat)
      returns (remaining: bool)
      requires Valid() && Session(w).Idle? && RingOk(keys, ring)
      requires solo ==> NoLocks(View(), w) && rows == before
      modifies this
      ensures Valid() && old(trace) <= trace && keys == old(keys)
      ensures Session(w).Claiming? && Session(w).ring == ring && Session(w).limit == limit && Session(w).tried == 0
      ensures HasSelected(start, trace, |old(trace)|, w, ring, now, limit, remaining)
      ensures solo ==> SoloClaiming(before, View(), w, ring, now, limit)
      ensures solo ==> (remaining <==> Remaining(ring, now, limit, before))
    {
      ghost var ids := CandidateIds(rows, ring.active, now, 0, limit + 1);
      SelectsNow(start, trace, View(), w, ring, now, limit, |ids| > limit);
      SelectCandidates(w, ring, now, limit);
      remaining := |Session(w).candidates| > limit;
      if solo { SoloStarts(before, View(), w, ring, now, limit); }
    }

    /** The claiming loop; it stops at the limit. */
    method ClaimAll(w: Worker, ghost solo: bool, ghost before: seq<Sub>, ring: Keyring, now: Time, limit: nat)
      returns (raised: bool)
      requires Valid() && Session(w).Claiming? && RingOk(keys, ring) && Session(w).tried <= |Session(w).candidates|
      requires Session(w).ring == ring && Session(w).limit == limit
      requires solo ==> quiet && SoloClaiming(before, View(), w, ring, now, limit)
      modifies this
      ensures Valid() && old(trace) <= trace && RingOk(keys, ring)
      ensures Session(w).Claiming? && Session(w).ring == ring && Session(w).limit == limit
      ensures Session(w).candidates == old(Session(w)).candidates
      ensures !raised ==> Session(w).tried == |Session(w).candidates| || |Session(w).claimed| >= limit
      ensures solo ==> !raised && SoloClaiming(before, View(), w, ring, now, limit)
      ensures raised ==> HasMetLock(start, trace, |old(trace)|, w)
    {
      raised := false;
      while Session(w).tried < |Session(w).candidates| && |Session(w).claimed| < Session(w).limit
        invariant Valid() && old(trace) <= trace && RingOk(keys, ring)
        invariant Session(w).Claiming? && Session(w).ring == ring && Session(w).limit == limit
        invariant Session(w).candidates == old(Session(w)).candidates && Session(w).tried <= |Session(w).candidates|
        invariant solo ==> SoloClaiming(before, View(), w, ring, now, limit)
        decreases |Session(w).candidates| - Session(w).tried
      {
        Interfere(w);
        ghost var sofar := trace;
        raised := ClaimOne(w, solo, before, ring, now, limit);
        if raised {
          LockStaysMet(start, trace, trace, |sofar|, w);
          return;
        }
      }
    }

    method ClaimOne(w: Worker, ghost solo: bool, ghost before: seq<Sub>, ring: Keyring, now: Time, limit: nat)
      returns (raised: bool)
      requires Valid() && Session(w).Claiming?
      requires Session(w).tried < |Session(w).candidates| && |Session(w).claimed| < Session(w).limit == limit
      requires solo ==> SoloClaiming(before, View(), w, ring, now, limit)
      modifies this
      ensures Valid() && old(trace) <= trace && keys == old(keys)
      ensures Session(w).Claiming? && Session(w).ring == old(Session(w)).ring
      ensures Session(w).limit == old(Session(w)).limit
      ensures Session(w).candidates == old(Session(w)).candidates
      ensures !raised ==> Session(w).tried == old(Session(w)).tried + 1
      ensures solo ==> !raised && SoloClaiming(before, View(), w, ring, now, limit)
      ensures raised ==> HasMetLock(start, trace, |old(trace)|, w)
    {
      if solo { SoloClaimStep(before, View(), w, ring, now, limit, lease); }
      raised := ClaimNext(w);
      if raised {
        MeetsLock(start, trace, View(), w, Session(w).candidates[Session(w).tried]);
      }
    }

    /** `db.get` of the next claimed row; a row that is not there is passed over. */
    method LoadNext(w: Worker) returns (found: bool)
      requires Valid() && Session(w).Working? && Session(w).loaded.None? && Session(w).done < |Session(w).claimed|
      modifies this
      ensures Valid() && View() == NextLoad(old(View()), w) && old(trace) <= trace && keys == old(keys)
      ensures
        var me := old(Session(w));
        && (found <==> me.claimed[me.done].row < |rows|)
        && Session(w) == if found then me.(loaded := Some(rows[me.claimed[me.done].row])) else me.(done := me.done + 1)
    {
      ghost var before := View();
      var me := Session(w);
      found := me.claimed[me.done].row < |rows|;
      var next := if found then me.(loaded := Some(rows[me.claimed[me.done].row])) else me.(done := me.done + 1);
      sessions := sessions[w := next];
      Record(Load(w), before);
    }

    /** Decryption, re-encryption when needed, and the conditional UPDATE of the loaded row. */
    method RewriteNext(w: Worker, nonce: nat) returns (outcome: RowOutcome)
      requires Valid() && Session(w).Working? && Session(w).loaded.Some?
      requires Session(w).done < |Session(w).claimed| && RingOk(keys, Session(w).ring)
      modifies this
      ensures Valid() && old(trace) <= trace
      ensures RewriteResult(old(View()), View(), w, nonce, outcome)
      ensures outcome.Rewrote? || outcome.Missed? ==>
        && Session(w).Working?
        && Session(w) == old(Session(w)).(done := old(Session(w)).done + 1, loaded := None, writes := Session(w).writes)
    {
      ghost var before := View();
      var me := Session(w);
      var row := me.loaded.value;
      var held := me.claimed[me.done];
      var found := DecryptSecretWithKeyVersion(me.ring, row.cipher, Some(row.keyVersion));
      if found.None? {
        return Undecryptable;
      }
      var cipher := row.cipher;
      if found.value.kid != me.ring.active {
        cipher := Encrypt(me.ring, found.value.plaintext, nonce).value;
      }
      if LockedFor(View(), w, held.row) {
        return Locked;
      }
      var target := Sub(cipher, me.ring.active, true, None, None);
      if held.row < |rows| && held.row !in me.writes && rows[held.row].claimedBy == Some(held.token) {
        OneMoreRewrite(me.ring, me.writes, held.row, Write(row, target));
        var writes := me.writes[held.row := Write(row, target)];
        sessions := sessions[w := me.(done := me.done + 1, loaded := None, writes := writes)];
        outcome := Rewrote(found.value.kid != me.ring.active);
      } else {
        sessions := sessions[w := me.(done := me.done + 1, loaded := None)];
        outcome := Missed;
      }
      Record(Rewrite(w, nonce), before);
    }

    method BeginWorking(w: Worker)
      requires Valid() && Session(w).Claiming?
      requires Session(w).tried == |Session(w).candidates| || |Session(w).claimed| >= Session(w).limit
      modifies this
      ensures Valid() && View() == Next(old(View()), BeginWork(w)) && old(trace) <= trace && keys == old(keys)
    {
      ghost var before := View();
      sessions := sessions[w := Working(Session(w).ring, Session(w).claimed, 0, None, map[])];
      Record(BeginWork(w), before);
    }

    /** One turn of the rewriting loop. */
    method WorkOne(w: Worker, ghost solo: bool, ghost before: seq<Sub>, ring: Keyring, ghost now: Time,
                   ghost limit: nat, nonce: nat)
      returns (outcome: RowOutcome)
      requires Valid() && Session(w).Working? && Session(w).loaded.None? && Session(w).done < |Session(w).claimed|
      requires RingOk(keys, ring) && Session(w).ring == ring
      requires solo ==> quiet && SoloWorking(before, View(), w, ring, now, limit)
      modifies this
      ensures Valid() && old(trace) <= trace && RingOk(keys, ring) && Session(w).Working? && Session(w).ring == ring
      ensures Session(w).claimed == old(Session(w)).claimed
      ensures outcome.Rewrote? || outcome.Missed? ==>
        Session(w).loaded.None? && Session(w).done == old(Session(w)).done + 1
      ensures outcome.Rewrote? || outcome.Missed? ==>
        RekeyCount(View(), w) == RekeyCount(old(View()), w) + if outcome == Rewrote(true) then 1 else 0
      ensures solo ==> SoloTurn(before, View(), w, ring, now, limit, old(Session(w)).done, outcome)
      ensures outcome.Locked? ==> HasMetLock(start, trace, |old(trace)|, w)
    {
      ghost var was := View();
      if solo { SoloLoads(before, was, w, ring, now, limit); }
      var found := LoadNext(w);
      if !found {
        return Missed;
      }
      Interfere(w);
      ghost var sofar := trace;
      outcome := RewriteLoaded(w, solo, before, was, ring, now, limit, nonce);
      if outcome.Locked? { LockStaysMet(start, trace, trace, |sofar|, w); }
    }

    /** The second half of a turn, when `was` is the state before the row was loaded. */
    method RewriteLoaded(w: Worker, ghost solo: bool, ghost before: seq<Sub>, ghost was: State, ring: Keyring,
                         ghost now: Time, ghost limit: nat, nonce: nat)
      returns (outcome: RowOutcome)
      requires Valid() && Session(w).Working? && Session(w).loaded.Some? && Session(w).done < |Session(w).claimed|
      requires RingOk(keys, ring) && Session(w).ring == ring
      requires SessionOf(was, w).Working? && Session(w).done == SessionOf(was, w).done
      requires solo ==> SoloWorking(before, was, w, ring, now, limit) && RingOk(was.keys, ring)
      requires solo ==> SessionOf(was, w).done < |SessionOf(was, w).claimed| && View() == NextLoad(was, w)
      modifies this
      ensures Valid() && old(trace) <= trace && RingOk(keys, ring) && Session(w).Working? && Session(w).ring == ring
      ensures Session(w).claimed == old(Session(w)).claimed
      ensures outcome.Rewrote? || outcome.Missed? ==>
        Session(w).loaded.None? && Session(w).done == old(Session(w)).done + 1
      ensures outcome.Rewrote? || outcome.Missed? ==>
        RekeyCount(View(), w) == RekeyCount(old(View()), w) + if outcome == Rewrote(true) then 1 else 0
      ensures solo ==> SoloTurn(before, View(), w, ring, now, limit, SessionOf(was, w).done, outcome)
      ensures outcome.Locked? ==> HasMetLock(start, trace, |old(trace)|, w)
    {
      outcome := RewriteNext(w, nonce);
      if outcome.Locked? {
        MeetsLock(start, trace, View(), w, Session(w).claimed[Session(w).done].row);
        LockStaysMet(start, trace, trace, |trace|, w);
      }
      if solo { SoloTurns(before, was, View(), w, ring, now, limit, nonce, outcome); }
    }

    method WorkAll(w: Worker, ghost solo: bool, ghost before: seq<Sub>, ring: Keyring, ghost now: Time,
                   ghost limit: nat)
      returns (outcome: RowOutcome, reencrypted: nat)
      requires Valid() && Session(w).Working? && Session(w).loaded.None? && Session(w).done == 0
      requires Session(w).writes == map[]
      requires RingOk(keys, ring) && Session(w).ring == ring
      requires solo ==> quiet && SoloWorking(before, View(), w, ring, now, limit)
      modifies this
      ensures Valid() && old(trace) <= trace && RingOk(keys, ring) && Session(w).Working?
      ensures outcome.Rewrote? || outcome.Missed? ==> CommitsRekeys(View(), w, ring, reencrypted)
      ensures solo ==> SoloWork(before, View(), w, ring, now, limit, outcome, reencrypted)
      ensures outcome.Locked? ==> HasMetLock(start, trace, |old(trace)|, w)
    {
      outcome, reencrypted := Missed, 0;
      assert Rekeyed(ring, map[]) == {};
      while Session(w).done < |Session(w).claimed|
        invariant Valid() && old(trace) <= trace && RingOk(keys, ring)
        invariant Session(w).Working? && Session(w).ring == ring && Session(w).loaded.None?
        invariant Session(w).done <= |Session(w).claimed| && (outcome.Rewrote? || outcome.Missed?)
        invariant reencrypted == RekeyCount(View(), w)
        invariant solo ==> SoloProgress(before, View(), w, ring, now, limit, reencrypted)
        decreases |Session(w).claimed| - Session(w).done
      {
        Interfere(w);
        ghost var sofar := trace;
        outcome, reencrypted := WorkTurn(w, solo, before, ring, now, limit, reencrypted);
        if outcome.Locked? { LockStaysMet(start, trace, trace, |sofar|, w); }
        if outcome.Undecryptable? || outcome.Locked? {
          return;
        }
      }
    }

    /** One turn, counted if it changed a key. */
    method WorkTurn(w: Worker, ghost solo: bool, ghost before: seq<Sub>, ring: Keyring, ghost now: Time,
                    ghost limit: nat, count: nat)
      returns (outcome: RowOutcome, reencrypted: nat)
      requires Valid() && Session(w).Working? && Session(w).loaded.None? && Session(w).done < |Session(w).claimed|
      requires RingOk(keys, ring) && Session(w).ring == ring && count == RekeyCount(View(), w)
      requires solo ==> quiet && SoloProgress(before, View(), w, ring, now, limit, count)
      modifies this
      ensures Valid() && old(trace) <= trace && RingOk(keys, ring) && Session(w).Working? && Session(w).ring == ring
      ensures Session(w).claimed == old(Session(w)).claimed
      ensures outcome.Rewrote? || outcome.Missed? ==>
        && Session(w).loaded.None? && Session(w).done == old(Session(w)).done + 1
        && reencrypted == RekeyCount(View(), w)
        && (solo ==> SoloProgress(before, View(), w, ring, now, limit, reencrypted))
      ensures solo ==> SoloWork(before, View(), w, ring, now, limit, outcome, reencrypted)
      ensures outcome.Locked? ==> HasMetLock(start, trace, |old(trace)|, w)
    {
      ghost var done := Session(w).done;
      var nonce: nat := *;
      outcome := WorkOne(w, solo, before, ring, now, limit, nonce);
      reencrypted := if outcome == Rewrote(true) then count + 1 else count;
      if solo { SoloTurnWorks(before, View(), w, ring, now, limit, done, outcome, count); }
    }

    method CommitAll(w: Worker)
      requires Valid() && Session(w).Working? && Session(w).done == |Session(w).claimed|
      modifies this
      ensures Valid() && View() == Next(old(View()), Commit(w)) && trace == old(trace) + [Commit(w)]
    {
      ghost var before := View();
      rows := Applied(rows, Session(w).writes);
      sessions := sessions[w := Idle];
      Record(Commit(w), before);
    }

    /**
      `reencrypt_webhook_secrets`. Among other workers it takes only steps of the protocol; alone, it either
      migrates the chosen rows and says truly whether others are left, or changes no secret at all.
     */
    method ReencryptWebhookSecrets(w: Worker, ring: Keyring, now: Time, limit: nat) returns (r: Result)
      requires Valid() && Session(w).Idle? && RingExists(keys, ring)
      modifies this
      ensures Valid() && Session(w).Idle? && old(trace) <= trace
      ensures old(Alone(w)) ==> Outcome(ring, now, limit, old(rows), rows, r)
      ensures r.Done? ==> HasSelected(start, trace, |old(trace)|, w, ring, now, limit, r.remaining)
      ensures r.Done? ==> HasCommitted(start, trace, |old(trace)|, w, ring, r.reencrypted)
      ensures r.DatabaseError? ==> !faultless || HasMetLock(start, trace, |old(trace)|, w)
      ensures old(Alone(w)) && faultless ==> !r.DatabaseError?
    {
      ghost var solo, before := Alone(w), rows;
      if KeyOf(ring.entries, ring.active).None? {
        return ValueError;
      }
      Interfere(w);
      ghost var selecting := |trace|;
      var remaining := Select(w, solo, before, ring, now, limit);
      ghost var selected := trace;
      var raised := ClaimAll(w, solo, before, ring, now, limit);
      ghost var claimed := trace;
      if raised {
        RollbackAndRelease(w, solo, before);
        LockStaysMet(start, claimed, trace, |selected|, w);
        return DatabaseError;
      }
      r := RewriteAndCommit(w, solo, before, ring, now, limit, remaining);
      if r.DatabaseError? && faultless { LockStaysMet(start, trace, trace, |claimed|, w); }
      SelectionStays(start, selected, trace, selecting, w, ring, now, limit, remaining);
    }

    /** From the first rewrite to the commit. */
    method RewriteAndCommit(w: Worker, ghost solo: bool, ghost before: seq<Sub>, ring: Keyring, ghost now: Time,
                            limit: nat,
                            remaining: bool) returns (r: Result)
      requires Valid() && Session(w).Claiming? && RingOk(keys, ring) && Session(w).ring == ring
      requires Session(w).tried == |Session(w).candidates| || |Session(w).claimed| >= Session(w).limit == limit
      requires solo ==> Alone(w) && SoloClaiming(before, View(), w, ring, now, limit)
      requires solo ==> (remaining <==> Remaining(ring, now, limit, before))
      modifies this
      ensures Valid() && Session(w).Idle? && old(trace) <= trace
      ensures solo ==> Outcome(ring, now, limit, before, rows, r)
      ensures r.Done? ==> r.remaining == remaining && HasCommitted(start, trace, |old(trace)|, w, ring, r.reencrypted)
      ensures r.DatabaseError? ==> !faultless || HasMetLock(start, trace, |old(trace)|, w)
      ensures solo && faultless ==> !r.DatabaseError?
    {
      ghost var from := |trace|;
      if solo { SoloBegins(before, View(), w, ring, now, limit); }
      BeginWorking(w);
      ghost var begun := trace;
      var outcome, reencrypted := WorkAll(w, solo, before, ring, now, limit);
      if outcome.Locked? { LockStaysMet(start, trace, trace, |begun|, w); }
      r := Conclude(w, solo, before, ring, now, limit, remaining, outcome, reencrypted, from);
    }

    /** The commit, or the rollback after an error. */
    method Conclude(w: Worker, ghost solo: bool, ghost before: seq<Sub>, ring: Keyring, ghost now: Time,
                    ghost limit: nat,
                    remaining: bool, outcome: RowOutcome, reencrypted: nat, ghost from: nat) returns (r: Result)
      requires from <= |trace| && (outcome.Locked? ==> HasMetLock(start, trace, from, w))
      requires Valid() && Session(w).Working? && RingOk(keys, ring)
      requires outcome.Rewrote? || outcome.Missed? ==> CommitsRekeys(View(), w, ring, reencrypted)
      requires solo ==> Alone(w) && SoloWork(before, View(), w, ring, now, limit, outcome, reencrypted)
      requires solo ==> (remaining <==> Remaining(ring, now, limit, before))
      modifies this
      ensures Valid() && Session(w).Idle? && old(trace) <= trace
      ensures solo ==> Outcome(ring, now, limit, before, rows, r)
      ensures r.Done? ==> r.remaining == remaining && HasCommitted(start, trace, |old(trace)|, w, ring, r.reencrypted)
      ensures r.DatabaseError? ==> !faultless || HasMetLock(start, trace, from, w)
      ensures solo && faultless ==> !r.DatabaseError?
    {
      var raised: bool := *;
      if outcome.Undecryptable? || outcome.Locked? || (raised && !faultless) {
        ghost var sofar := trace;
        RollbackAndRelease(w, solo, before);
        if outcome.Locked? { LockStaysMet(start, sofar, trace, from, w); }
        if solo { SoloFails(before, rows, ring, now, limit, outcome.Undecryptable?); }
        return if outcome.Undecryptable? then ValueError else DatabaseError;
      }
      if solo { SoloCommits(before, View(), w, ring, now, limit, reencrypted, remaining); }
      CommitsNow(start, trace, View(), w, ring, reencrypted);
      CommitAll(w);
      r := Done(reencrypted, remaining);
    }
  }
}
