/** What every interleaving of re-encrypting workers keeps. */
module ReencryptSafety {
  import opened Prelude
  import opened Secrets
  import opened ReencryptProtocol

  /** A verified label tells the truth: the ciphertext opens under the key it names. */
  ghost predicate Truthful(keys: map<Kid, Key>, row: Sub) {
    row.verified ==> row.keyVersion in keys && keys[row.keyVersion] == row.cipher.key
  }

  /** A rewrite keeps the secret, and labels it truthfully. */
  ghost predicate GoodWrite(keys: map<Kid, Key>, write: Write) {
    && write.target.cipher.plaintext == write.source.cipher.plaintext
    && write.target.verified && Truthful(keys, write.target)
    && write.target.claimedBy.None?
  }

  /** A worker's leases all have old tokens, each its own, and different rows. */
  ghost predicate LeasesOk(s: State, claimed: seq<Lease>) {
    && (forall i :: 0 <= i < |claimed| ==> claimed[i].token < s.nextToken && claimed[i].row < |s.rows|)
    && (forall i, j :: 0 <= i < j < |claimed| ==>
          claimed[i].token != claimed[j].token && claimed[i].row < claimed[j].row)
  }

  function LeasesOf(me: Session): seq<Lease> {
    if me.Idle? then [] else me.claimed
  }

  ghost predicate Apart(a: seq<Lease>, b: seq<Lease>) {
    forall i, j :: 0 <= i < |a| && 0 <= j < |b| ==> a[i].token != b[j].token
  }

  ghost predicate ClaimingOk(s: State, me: Session)
    requires me.Claiming?
  {
    && me.tried <= |me.candidates|
    && (forall i :: 0 <= i < |me.candidates| ==> me.candidates[i] < |s.rows|)
    && (forall i, j :: 0 <= i < j < |me.candidates| ==> me.candidates[i] < me.candidates[j])
    && (forall i, k :: 0 <= i < |me.claimed| && me.tried <= k < |me.candidates| ==>
          me.claimed[i].row < me.candidates[k])
  }

  /** A loaded row is the committed one as long as its lease stands. */
  ghost predicate LoadedOk(s: State, me: Session)
    requires me.Working?
  {
    me.loaded.Some? && me.done < |me.claimed| && me.claimed[me.done].row < |s.rows|
    && s.rows[me.claimed[me.done].row].claimedBy == Some(me.claimed[me.done].token) ==>
      s.rows[me.claimed[me.done].row] == me.loaded.value
  }

  /** An uncommitted rewrite was made from the committed row, which is still leased to its worker. */
  ghost predicate WritesOk(s: State, me: Session)
    requires me.Working?
  {
    forall i :: i in me.writes ==>
      && i < |s.rows| && s.rows[i] == me.writes[i].source && GoodWrite(s.keys, me.writes[i])
      && exists k :: 0 <= k < me.done && k < |me.claimed| && me.claimed[k].row == i
                     && s.rows[i].claimedBy == Some(me.claimed[k].token)
  }

  ghost predicate SessionOk(s: State, me: Session) {
    && LeasesOk(s, LeasesOf(me))
    && (me.Claiming? ==> RingOk(s.keys, me.ring) && ClaimingOk(s, me))
    && (me.Working? ==> RingOk(s.keys, me.ring) && me.done <= |me.claimed| && LoadedOk(s, me) && WritesOk(s, me))
  }

  ghost predicate RowsOk(s: State) {
    forall i :: 0 <= i < |s.rows| ==>
      Truthful(s.keys, s.rows[i]) && (s.rows[i].claimedBy.Some? ==> s.rows[i].claimedBy.value < s.nextToken)
  }

  ghost predicate Inv(s: State) {
    && RowsOk(s)
    && (forall w :: w in s.sessions ==> SessionOk(s, s.sessions[w]))
    && (forall v, w :: v in s.sessions && w in s.sessions && v != w ==>
          Apart(LeasesOf(s.sessions[v]), LeasesOf(s.sessions[w])))
  }

  /**
    How the tables may move under a session: existing keys stay, tokens are fresh, and a row that
    changes is not one the session has rewritten, and does not come under one of its old leases.
   */
  ghost predicate MovesAround(s: State, t: State, me: Session) {
    && (forall k :: k in s.keys ==> k in t.keys && t.keys[k] == s.keys[k])
    && |s.rows| <= |t.rows| && s.nextToken <= t.nextToken
    && (forall i :: 0 <= i < |s.rows| && t.rows[i] != s.rows[i] ==>
          && (me.Working? ==> i !in me.writes)
          && (t.rows[i].claimedBy.Some? ==> t.rows[i].claimedBy.value >= s.nextToken))
  }

  lemma WritesMoveAround(s: State, t: State, me: Session)
    requires me.Working? && WritesOk(s, me) && MovesAround(s, t, me)
    ensures WritesOk(t, me)
  {
    forall i | i in me.writes
      ensures i < |t.rows| && t.rows[i] == me.writes[i].source && GoodWrite(t.keys, me.writes[i])
      ensures exists k :: 0 <= k < me.done && k < |me.claimed| && me.claimed[k].row == i
                          && t.rows[i].claimedBy == Some(me.claimed[k].token)
    {
      var k :| 0 <= k < me.done && k < |me.claimed| && me.claimed[k].row == i
               && s.rows[i].claimedBy == Some(me.claimed[k].token);
      assert me.claimed[k].row == i && t.rows[i].claimedBy == Some(me.claimed[k].token);
    }
  }

  lemma SessionStaysOk(s: State, t: State, me: Session)
    requires SessionOk(s, me) && MovesAround(s, t, me)
    ensures SessionOk(t, me)
  {
    if me.Working? {
      WritesMoveAround(s, t, me);
    }
  }

  /** Leases are old ones of the same worker, or have fresh tokens. */
  ghost predicate LeasesGrow(s: State, before: seq<Lease>, after: seq<Lease>) {
    forall i :: 0 <= i < |after| ==> after[i] in before || after[i].token >= s.nextToken
  }

  lemma NewLeasesStayApart(s: State, others: seq<Lease>, before: seq<Lease>, after: seq<Lease>)
    requires Apart(others, before) && LeasesGrow(s, before, after)
    requires forall i :: 0 <= i < |others| ==> others[i].token < s.nextToken
    ensures Apart(others, after) && Apart(after, others)
  {
  }

  /** A step of one worker is good for everybody if it is good for the worker and moves around the others. */
  lemma StepKeepsInv(s: State, t: State, w: Worker)
    requires Inv(s) && w in t.sessions && t.sessions == s.sessions[w := t.sessions[w]]
    requires RowsOk(t) && SessionOk(t, t.sessions[w])
    requires forall v :: v in s.sessions && v != w ==> MovesAround(s, t, s.sessions[v])
    requires LeasesGrow(s, LeasesOf(SessionOf(s, w)), LeasesOf(t.sessions[w]))
    ensures Inv(t)
  {
    forall v | v in t.sessions ensures SessionOk(t, t.sessions[v]) {
      if v != w { SessionStaysOk(s, t, s.sessions[v]); }
    }
    forall v | v in t.sessions && v != w
      ensures Apart(LeasesOf(t.sessions[v]), LeasesOf(t.sessions[w]))
      ensures Apart(LeasesOf(t.sessions[w]), LeasesOf(t.sessions[v]))
    {
      NewLeasesStayApart(s, LeasesOf(s.sessions[v]), LeasesOf(SessionOf(s, w)), LeasesOf(t.sessions[w]));
    }
  }

  /** A worker may put its memory in another good shape without new leases. */
  lemma SetSessionKeepsInv(s: State, w: Worker, me: Session)
    requires Inv(s) && SessionOk(s, me)
    requires LeasesOf(me) == LeasesOf(SessionOf(s, w)) || LeasesOf(me) == []
    ensures Inv(SetSession(s, w, me))
  {
    StepKeepsInv(s, SetSession(s, w, me), w);
  }

  lemma LoadKeepsInv(s: State, w: Worker)
    requires Inv(s) && SessionOf(s, w).Working?
    ensures Inv(NextLoad(s, w))
  {
    var me := SessionOf(s, w);
    assert SessionOk(s, me);
    if me.loaded.None? && me.done < |me.claimed| {
      SetSessionKeepsInv(s, w, me.(loaded := Some(s.rows[me.claimed[me.done].row])));
    }
  }

  /** What `Rewritten` makes of a row under a ring of existing keys. */
  lemma RewritingIsGood(keys: map<Kid, Key>, ring: Keyring, row: Sub, nonce: nat)
    requires RingOk(keys, ring) && Rewritten(ring, row, nonce).Some?
    ensures GoodWrite(keys, Write(row, Rewritten(ring, row, nonce).value))
    ensures
      var target := Rewritten(ring, row, nonce).value;
      target.keyVersion == ring.active && keys[ring.active] == target.cipher.key
  {
    DecryptFindsTheKey(ring, row.cipher, Some(row.keyVersion));
    KeyOfMember(ring.entries, ring.active);
  }

  /** Changing the lease of a row that nobody else has locked moves around everybody else. */
  lemma UnlockedRowMovesAround(s: State, t: State, w: Worker, row: nat)
    requires row < |s.rows| && !LockedFor(s, w, row)
    requires t.keys == s.keys && |t.rows| == |s.rows| && t.rows == s.rows[row := t.rows[row]]
    requires s.nextToken <= t.nextToken
    requires t.rows[row].claimedBy.Some? ==> t.rows[row].claimedBy.value >= s.nextToken
    ensures forall v :: v in s.sessions && v != w ==> MovesAround(s, t, s.sessions[v])
  {
  }

  lemma ReleasedRowsOk(s: State, row: nat, leased: Sub, next: Token)
    requires RowsOk(s) && row < |s.rows| && s.nextToken <= next
    requires leased == s.rows[row].(claimedBy := leased.claimedBy, claimExpiresAt := leased.claimExpiresAt)
    requires leased.claimedBy.Some? ==> leased.claimedBy.value < next
    ensures RowsOk(s.(rows := s.rows[row := leased], nextToken := next))
  {
  }

  lemma ClaimIsOwn(s: State, w: Worker, lease: Time)
    requires SessionOf(s, w).Claiming? && NextClaim(s, w, lease) != s
    ensures NextClaim(s, w, lease).sessions == s.sessions[w := SessionOf(NextClaim(s, w, lease), w)]
  {
  }

  lemma ClaimedLeasesGrow(s: State, w: Worker, lease: Time)
    requires SessionOf(s, w).Claiming?
    ensures LeasesGrow(s, LeasesOf(SessionOf(s, w)), LeasesOf(SessionOf(NextClaim(s, w, lease), w)))
  {
  }

  lemma ClaimedSessionOk(s: State, w: Worker, lease: Time)
    requires SessionOf(s, w).Claiming? && SessionOk(s, SessionOf(s, w))
    ensures SessionOk(NextClaim(s, w, lease), SessionOf(NextClaim(s, w, lease), w))
  {
  }

  lemma ClaimMovesAround(s: State, w: Worker, lease: Time)
    requires RowsOk(s) && SessionOf(s, w).Claiming? && NextClaim(s, w, lease) != s
    ensures RowsOk(NextClaim(s, w, lease))
    ensures forall v :: v in s.sessions && v != w ==> MovesAround(s, NextClaim(s, w, lease), s.sessions[v])
  {
    var me, t := SessionOf(s, w), NextClaim(s, w, lease);
    var row := me.candidates[me.tried];
    if row < |s.rows| && Free(s.rows[row], me.now) {
      ReleasedRowsOk(s, row, t.rows[row], t.nextToken);
      assert RowsOk(t);
      UnlockedRowMovesAround(s, t, w, row);
    }
  }

  lemma ClaimKeepsInv(s: State, w: Worker, lease: Time)
    requires Inv(s) && SessionOf(s, w).Claiming?
    ensures Inv(NextClaim(s, w, lease))
  {
    var me, t := SessionOf(s, w), NextClaim(s, w, lease);
    assert SessionOk(s, me);
    if t != s {
      ClaimIsOwn(s, w, lease);
      ClaimedLeasesGrow(s, w, lease);
      ClaimedSessionOk(s, w, lease);
      ClaimMovesAround(s, w, lease);
      StepKeepsInv(s, t, w);
    }
  }

  /** A rewrite adds one good write of the row that was loaded. */
  lemma OneMoreWriteOk(s: State, me: Session, target: Sub)
    requires me.Working? && WritesOk(s, me) && LoadedOk(s, me) && me.loaded.Some? && me.done < |me.claimed|
    requires GoodWrite(s.keys, Write(me.loaded.value, target))
    requires me.claimed[me.done].row < |s.rows|
    requires s.rows[me.claimed[me.done].row].claimedBy == Some(me.claimed[me.done].token)
    ensures
      var row := me.claimed[me.done].row;
      WritesOk(s, me.(done := me.done + 1, loaded := None, writes := me.writes[row := Write(me.loaded.value, target)]))
  {
    var row := me.claimed[me.done].row;
    var writes := me.writes[row := Write(me.loaded.value, target)];
    forall i | i in writes
      ensures exists k :: 0 <= k < me.done + 1 && k < |me.claimed| && me.claimed[k].row == i
                          && s.rows[i].claimedBy == Some(me.claimed[k].token)
    {
      if i == row {
        assert me.claimed[me.done].row == i;
      }
    }
  }

  /** The row is passed over: nothing is written, and the next one is taken. */
  lemma PassedOverOk(s: State, me: Session)
    requires me.Working? && SessionOk(s, me) && me.done < |me.claimed|
    ensures SessionOk(s, me.(done := me.done + 1, loaded := None))
  {
    forall i | i in me.writes
      ensures exists k :: 0 <= k < me.done + 1 && k < |me.claimed| && me.claimed[k].row == i
                          && s.rows[i].claimedBy == Some(me.claimed[k].token)
    {
      var k :| 0 <= k < me.done && k < |me.claimed| && me.claimed[k].row == i
               && s.rows[i].claimedBy == Some(me.claimed[k].token);
    }
  }

  lemma WrittenSessionOk(s: State, me: Session, target: Sub)
    requires me.Working? && SessionOk(s, me) && me.loaded.Some? && me.done < |me.claimed|
    requires GoodWrite(s.keys, Write(me.loaded.value, target))
    requires me.claimed[me.done].row < |s.rows|
    requires s.rows[me.claimed[me.done].row].claimedBy == Some(me.claimed[me.done].token)
    ensures
      var writes := me.writes[me.claimed[me.done].row := Write(me.loaded.value, target)];
      SessionOk(s, me.(done := me.done + 1, loaded := None, writes := writes))
  {
    OneMoreWriteOk(s, me, target);
  }

  /** The UPDATE of a loaded row that opens, stands under its lease and is locked by nobody. */
  lemma RewriteApplies(s: State, w: Worker, nonce: nat)
    requires SessionOf(s, w).Working? && SessionOf(s, w).loaded.Some?
    requires SessionOf(s, w).done < |SessionOf(s, w).claimed|
    requires
      var me := SessionOf(s, w);
      var lease := me.claimed[me.done];
      && Rewritten(me.ring, me.loaded.value, nonce).Some? && !LockedFor(s, w, lease.row)
      && lease.row < |s.rows| && lease.row !in me.writes && s.rows[lease.row].claimedBy == Some(lease.token)
    ensures
      var me := SessionOf(s, w);
      var write := Write(me.loaded.value, Rewritten(me.ring, me.loaded.value, nonce).value);
      var writes := me.writes[me.claimed[me.done].row := write];
      NextRewrite(s, w, nonce) == SetSession(s, w, me.(done := me.done + 1, loaded := None, writes := writes))
  {
  }

  lemma MissedRewrite(s: State, w: Worker, nonce: nat)
    requires SessionOf(s, w).Working? && SessionOf(s, w).loaded.Some?
    requires SessionOf(s, w).done < |SessionOf(s, w).claimed|
    requires
      var me := SessionOf(s, w);
      var lease := me.claimed[me.done];
      && Rewritten(me.ring, me.loaded.value, nonce).Some? && !LockedFor(s, w, lease.row)
      && !(lease.row < |s.rows| && lease.row !in me.writes && s.rows[lease.row].claimedBy == Some(lease.token))
    ensures
      var me := SessionOf(s, w);
      NextRewrite(s, w, nonce) == SetSession(s, w, me.(done := me.done + 1, loaded := None))
  {
  }

  lemma ReleasingOk(s: State, me: Session)
    requires me.Working? && SessionOk(s, me)
    ensures SessionOk(s, Releasing(me.claimed, 0))
  {
  }

  /** The step changes nothing, or gives the worker a memory in good shape with the same leases. */
  ghost predicate GoodRewrite(s: State, t: State, w: Worker) {
    || t == s
    || exists me :: t == SetSession(s, w, me) && SessionOk(s, me) && LeasesOf(me) == LeasesOf(SessionOf(s, w))
  }

  /** A row that opens and is not locked is rewritten or passed over. */
  lemma OpenedRowIsGood(s: State, w: Worker, nonce: nat)
    requires SessionOf(s, w).Working? && SessionOk(s, SessionOf(s, w)) && SessionOf(s, w).loaded.Some?
    requires SessionOf(s, w).done < |SessionOf(s, w).claimed|
    requires Rewritten(SessionOf(s, w).ring, SessionOf(s, w).loaded.value, nonce).Some?
    requires !LockedFor(s, w, SessionOf(s, w).claimed[SessionOf(s, w).done].row)
    ensures GoodRewrite(s, NextRewrite(s, w, nonce), w)
  {
    var me := SessionOf(s, w);
    var lease, target := me.claimed[me.done], Rewritten(me.ring, me.loaded.value, nonce).value;
    if lease.row < |s.rows| && lease.row !in me.writes && s.rows[lease.row].claimedBy == Some(lease.token) {
      RewritingIsGood(s.keys, me.ring, me.loaded.value, nonce);
      WrittenSessionOk(s, me, target);
      RewriteApplies(s, w, nonce);
    } else {
      PassedOverOk(s, me);
      MissedRewrite(s, w, nonce);
    }
  }

  lemma RewrittenSessionOk(s: State, w: Worker, nonce: nat)
    requires SessionOf(s, w).Working? && SessionOk(s, SessionOf(s, w))
    ensures GoodRewrite(s, NextRewrite(s, w, nonce), w)
  {
    var me := SessionOf(s, w);
    if me.loaded.Some? && me.done < |me.claimed| {
      if Rewritten(me.ring, me.loaded.value, nonce).None? {
        ReleasingOk(s, me);
        assert NextRewrite(s, w, nonce) == SetSession(s, w, Releasing(me.claimed, 0));
      } else if !LockedFor(s, w, me.claimed[me.done].row) {
        OpenedRowIsGood(s, w, nonce);
      }
    }
  }

  lemma RewriteKeepsInv(s: State, w: Worker, nonce: nat)
    requires Inv(s) && SessionOf(s, w).Working?
    ensures Inv(NextRewrite(s, w, nonce))
  {
    RewrittenSessionOk(s, w, nonce);
    if NextRewrite(s, w, nonce) != s {
      var me :| NextRewrite(s, w, nonce) == SetSession(s, w, me) && SessionOk(s, me)
        && LeasesOf(me) == LeasesOf(SessionOf(s, w));
      SetSessionKeepsInv(s, w, me);
    }
  }

  lemma CommittedRowsOk(s: State, w: Worker)
    requires RowsOk(s) && SessionOf(s, w).Working? && WritesOk(s, SessionOf(s, w))
    ensures RowsOk(s.(rows := Applied(s.rows, SessionOf(s, w).writes)))
  {
  }

  /** What a commit changes is locked by it, and nobody else has written or will find it under an old lease. */
  lemma CommitMovesAround(s: State, w: Worker, v: Worker)
    requires Inv(s) && SessionOf(s, w).Working? && v in s.sessions && v != w
    ensures MovesAround(s, s.(rows := Applied(s.rows, SessionOf(s, w).writes)), s.sessions[v])
  {
    var me, other := SessionOf(s, w), s.sessions[v];
    assert WritesOk(s, me) && Apart(LeasesOf(me), LeasesOf(other));
    if other.Working? {
      assert WritesOk(s, other);
    }
  }

  lemma CommitKeepsInv(s: State, w: Worker)
    requires Inv(s) && SessionOf(s, w).Working?
    ensures Inv(SetSession(s.(rows := Applied(s.rows, SessionOf(s, w).writes)), w, Idle))
  {
    var written := s.(rows := Applied(s.rows, SessionOf(s, w).writes));
    var t := SetSession(written, w, Idle);
    assert SessionOk(s, SessionOf(s, w));
    CommittedRowsOk(s, w);
    forall v | v in s.sessions && v != w ensures MovesAround(s, t, s.sessions[v]) {
      CommitMovesAround(s, w, v);
    }
    StepKeepsInv(s, t, w);
  }

  lemma ReleaseKeepsInv(s: State, w: Worker)
    requires Inv(s) && SessionOf(s, w).Releasing?
    ensures Inv(NextRelease(s, w))
  {
    var me, t := SessionOf(s, w), NextRelease(s, w);
    if me.released < |me.claimed| && t.rows != s.rows {
      var row := me.claimed[me.released].row;
      ReleasedRowsOk(s, row, t.rows[row], t.nextToken);
      UnlockedRowMovesAround(s, t, w, row);
      SessionStaysOk(s, t, Releasing(me.claimed, me.released + 1));
      StepKeepsInv(s, t, w);
    } else if t != s {
      SetSessionKeepsInv(s, w, t.sessions[w]);
    }
  }

  lemma StartKeepsInv(s: State, w: Worker, ring: Keyring, now: Time, limit: nat)
    requires Inv(s) && RingOk(s.keys, ring)
    ensures Inv(SetSession(s, w, Claiming(ring, now, limit,
            CandidateIds(s.rows, ring.active, now, 0, limit + 1), 0, [])))
  {
    SetSessionKeepsInv(s, w, Claiming(ring, now, limit, CandidateIds(s.rows, ring.active, now, 0, limit + 1), 0, []));
  }

  lemma TablesGrowKeepInv(s: State, t: State)
    requires Inv(s) && t.sessions == s.sessions && RowsOk(t)
    requires s.rows <= t.rows && t.nextToken == s.nextToken
    requires forall k :: k in s.keys ==> k in t.keys && t.keys[k] == s.keys[k]
    ensures Inv(t)
  {
    forall v | v in t.sessions ensures SessionOk(t, t.sessions[v]) {
      SessionStaysOk(s, t, s.sessions[v]);
    }
  }

  lemma NewSecretIsTruthful(s: State, ring: Keyring, secret: string, nonce: nat)
    requires RingOk(s.keys, ring)
    ensures Encrypt(ring, secret, nonce).Some?
    ensures Truthful(s.keys, Sub(Encrypt(ring, secret, nonce).value, ring.active, true, None, None))
  {
    KeyOfMember(ring.entries, ring.active);
  }

  lemma AdminStepKeepsInv(s: State, step: Step)
    requires Inv(s) && (step.AddKey? || step.Subscribe?)
    ensures Inv(Next(s, step))
  {
    if step.AddKey? {
      TablesGrowKeepInv(s, Next(s, step));
    } else if RingOk(s.keys, step.ring) {
      NewSecretIsTruthful(s, step.ring, step.secret, step.nonce);
      TablesGrowKeepInv(s, Next(s, step));
    }
  }

  lemma StartStepKeepsInv(s: State, w: Worker, ring: Keyring, now: Time, limit: nat)
    requires Inv(s)
    ensures Inv(Next(s, Start(w, ring, now, limit)))
  {
    var me := Claiming(ring, now, limit, CandidateIds(s.rows, ring.active, now, 0, limit + 1), 0, []);
    if SessionOf(s, w).Idle? && RingOk(s.keys, ring) {
      assert Next(s, Start(w, ring, now, limit)) == SetSession(s, w, me);
      StartKeepsInv(s, w, ring, now, limit);
    } else {
      assert Next(s, Start(w, ring, now, limit)) == s;
    }
  }

  lemma ClaimStepKeepsInv(s: State, step: Step)
    requires Inv(s) && step.Claim?
    ensures Inv(Next(s, step))
  {
    if SessionOf(s, step.worker).Claiming? { ClaimKeepsInv(s, step.worker, step.lease); }
  }

  lemma BeginStepKeepsInv(s: State, step: Step)
    requires Inv(s) && step.BeginWork?
    ensures Inv(Next(s, step))
  {
    var me := SessionOf(s, step.worker);
    if me.Claiming? { SetSessionKeepsInv(s, step.worker, Working(me.ring, me.claimed, 0, None, map[])); }
  }

  lemma WorkStepKeepsInv(s: State, step: Step)
    requires Inv(s) && (step.Load? || step.Rewrite? || step.Commit?)
    ensures Inv(Next(s, step))
  {
    var w := step.worker;
    if SessionOf(s, w).Working? {
      if step.Load? {
        LoadKeepsInv(s, w);
      } else if step.Rewrite? {
        RewriteKeepsInv(s, w, step.nonce);
      } else {
        CommitKeepsInv(s, w);
      }
    }
  }

  lemma FailStepKeepsInv(s: State, step: Step)
    requires Inv(s) && step.Fail?
    ensures Inv(Next(s, step))
  {
    var me := SessionOf(s, step.worker);
    if me.Claiming? || me.Working? { SetSessionKeepsInv(s, step.worker, Releasing(me.claimed, 0)); }
  }

  lemma ReleaseStepKeepsInv(s: State, step: Step)
    requires Inv(s) && step.Release?
    ensures Inv(Next(s, step))
  {
    if SessionOf(s, step.worker).Releasing? { ReleaseKeepsInv(s, step.worker); }
  }

  lemma ReleaseFailsStepKeepsInv(s: State, w: Worker)
    requires Inv(s)
    ensures Inv(Next(s, ReleaseFails(w)))
  {
    var me := SessionOf(s, w);
    if me.Releasing? && me.released < |me.claimed| {
      assert Next(s, ReleaseFails(w)) == SetSession(s, w, Releasing(me.claimed, me.released + 1));
      SetSessionKeepsInv(s, w, Releasing(me.claimed, me.released + 1));
    } else {
      assert Next(s, ReleaseFails(w)) == s;
    }
  }

  lemma NextKeepsInv(s: State, step: Step)
    requires Inv(s)
    ensures Inv(Next(s, step))
  {
    if step.AddKey? || step.Subscribe? {
      AdminStepKeepsInv(s, step);
    } else if step.Start? {
      StartStepKeepsInv(s, step.worker, step.ring, step.now, step.limit);
    } else if step.Claim? {
      ClaimStepKeepsInv(s, step);
    } else if step.BeginWork? {
      BeginStepKeepsInv(s, step);
    } else if step.Load? || step.Rewrite? || step.Commit? {
      WorkStepKeepsInv(s, step);
    } else if step.Fail? {
      FailStepKeepsInv(s, step);
    } else if step.Release? {
      ReleaseStepKeepsInv(s, step);
    } else if step.ReleaseFails? {
      ReleaseFailsStepKeepsInv(s, step.worker);
    } else {
      SetSessionKeepsInv(s, step.worker, Idle);
    }
  }

  lemma {:induction false} RunKeepsInv(s: State, run: seq<Step>)
    requires Inv(s)
    ensures Inv(Run(s, run))
  {
    if run != [] {
      RunKeepsInv(s, run[..|run| - 1]);
      NextKeepsInv(Run(s, run[..|run| - 1]), run[|run| - 1]);
    }
  }

  // ----- Theorems

  /** A table before any worker runs: labels may be wrong as long as they are not verified. */
  ghost predicate Fresh(s: State) {
    && s.sessions == map[]
    && (forall i :: 0 <= i < |s.rows| ==> Truthful(s.keys, s.rows[i]) && s.rows[i].claimedBy.None?)
  }

  /** Existing keys stay, rows stay, and every row keeps its secret. */
  ghost predicate KeepsSecrets(s: State, t: State) {
    && |s.rows| <= |t.rows|
    && (forall i :: 0 <= i < |s.rows| ==> t.rows[i].cipher.plaintext == s.rows[i].cipher.plaintext)
    && (forall k :: k in s.keys ==> k in t.keys && t.keys[k] == s.keys[k])
  }

  lemma CommitKeepsSecrets(s: State, w: Worker)
    requires Inv(s) && SessionOf(s, w).Working?
    ensures KeepsSecrets(s, SetSession(s.(rows := Applied(s.rows, SessionOf(s, w).writes)), w, Idle))
  {
    assert WritesOk(s, SessionOf(s, w));
  }

  /** Until a commit, only claim columns of existing rows change. */
  lemma OnlyCommitsRewrite(s: State, step: Step)
    requires !step.Commit?
    ensures |s.rows| <= |Next(s, step).rows|
    ensures forall i :: 0 <= i < |s.rows| ==> (
      && Next(s, step).rows[i].cipher == s.rows[i].cipher
      && Next(s, step).rows[i].keyVersion == s.rows[i].keyVersion
      && Next(s, step).rows[i].verified == s.rows[i].verified)
    ensures forall k :: k in s.keys ==> k in Next(s, step).keys && Next(s, step).keys[k] == s.keys[k]
  {
  }

  lemma NextKeepsSecrets(s: State, step: Step)
    requires Inv(s)
    ensures KeepsSecrets(s, Next(s, step))
  {
    if step.Commit? {
      if SessionOf(s, step.worker).Working? {
        CommitKeepsSecrets(s, step.worker);
      }
    } else {
      OnlyCommitsRewrite(s, step);
    }
  }

  lemma {:induction false} RunKeepsSecrets(s: State, run: seq<Step>)
    requires Inv(s)
    ensures KeepsSecrets(s, Run(s, run))
  {
    if run != [] {
      RunKeepsSecrets(s, run[..|run| - 1]);
      RunKeepsInv(s, run[..|run| - 1]);
      NextKeepsSecrets(Run(s, run[..|run| - 1]), run[|run| - 1]);
    }
  }

  /**
    From any table without false verified labels, in every interleaving of workers, with whatever active
    keys, crashes and failures, every secret keeps its plaintext, and a verified label names a key that
    opens the ciphertext.
   */
  lemma SecretsSurviveRotation(s: State, run: seq<Step>, i: nat)
    requires Fresh(s) && i < |s.rows|
    ensures i < |Run(s, run).rows|
    ensures
      var row := Run(s, run).rows[i];
      && row.cipher.plaintext == s.rows[i].cipher.plaintext
      && (row.verified ==> row.keyVersion in Run(s, run).keys && Run(s, run).keys[row.keyVersion] == row.cipher.key)
  {
    assert Inv(s);
    RunKeepsSecrets(s, run);
    RunKeepsInv(s, run);
    assert Truthful(Run(s, run).keys, Run(s, run).rows[i]);
  }

  /** So a process whose ring has the key of a verified label opens the secret at the first attempt. */
  lemma VerifiedSecretsOpen(s: State, run: seq<Step>, i: nat, ring: Keyring)
    requires Fresh(s) && i < |s.rows| && RingOk(Run(s, run).keys, ring)
    requires i < |Run(s, run).rows| && Run(s, run).rows[i].verified && Run(s, run).rows[i].keyVersion != ""
    requires KeyOf(ring.entries, Run(s, run).rows[i].keyVersion).Some?
    ensures
      var row := Run(s, run).rows[i];
      Decrypt(ring, row.cipher, Some(row.keyVersion)) == Some(Opened(s.rows[i].cipher.plaintext, row.keyVersion))
  {
    SecretsSurviveRotation(s, run, i);
    var row := Run(s, run).rows[i];
    KeyOfMember(ring.entries, row.keyVersion);
    DecryptFindsTheKey(ring, row.cipher, Some(row.keyVersion));
  }

  /**
    No rewrite overwrites another: whatever a commit changes, it computed from the very row it replaces,
    and the row was still under the worker's own lease.
   */
  lemma CommitsReplaceWhatTheyRead(s: State, run: seq<Step>, w: Worker, i: nat)
    requires Fresh(s) && SessionOf(Run(s, run), w).Working? && i in SessionOf(Run(s, run), w).writes
    ensures
      var t := Run(s, run);
      var write := SessionOf(t, w).writes[i];
      && i < |t.rows| && t.rows[i] == write.source
      && write.target.cipher.plaintext == write.source.cipher.plaintext
      && exists lease :: lease in SessionOf(t, w).claimed && lease.row == i && t.rows[i].claimedBy == Some(lease.token)
  {
    assert Inv(s);
    RunKeepsInv(s, run);
    var t := Run(s, run);
    var me := SessionOf(t, w);
    assert SessionOk(t, me);
    var k :| 0 <= k < me.done && k < |me.claimed| && me.claimed[k].row == i
             && t.rows[i].claimedBy == Some(me.claimed[k].token);
    assert me.claimed[k] in me.claimed;
  }
}
