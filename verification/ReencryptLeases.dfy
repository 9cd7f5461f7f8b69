/** Leases on rows: who gets one, how long it keeps others away, and what becomes of it. */
module ReencryptLeases {
  import opened Prelude
  import opened Secrets
  import opened ReencryptProtocol
  import opened ReencryptSafety
  import opened ReencryptProgress

  // ----- The steps of a call, by what they find

  /** The transaction that this worker has open has rewritten the row. */
  predicate HasOpenWrite(s: State, v: Worker, row: nat) {
    v in s.sessions && s.sessions[v].Working? && row in s.sessions[v].writes
  }

  /** A call starts with the lowest rows it may take, one more than its limit. */
  lemma CallStarts(s: State, w: Worker, ring: Keyring, now: Time, limit: nat)
    requires SessionOf(s, w).Idle? && RingOk(s.keys, ring)
    ensures
      var t := Next(s, Start(w, ring, now, limit));
      && t.(sessions := s.sessions) == s
      && exists ids :: Lowest(ids, Takeable(s.rows, ring.active, now), limit + 1)
                       && SessionOf(t, w) == Claiming(ring, now, limit, ids, 0, [])
  {
    ChosenAreLowest(s.rows, ring.active, now, limit + 1);
    assert Lowest(CandidateIds(s.rows, ring.active, now, 0, limit + 1), Takeable(s.rows, ring.active, now), limit + 1);
  }

  /** The next candidate is leased, until the call's clock reading plus the lease, unless another lease runs. */
  ghost predicate Leases(s: State, t: State, w: Worker, lease: Time)
    requires SessionOf(s, w).Claiming? && SessionOf(s, w).tried < |SessionOf(s, w).candidates|
  {
    var me, you := SessionOf(s, w), SessionOf(t, w);
    var row := me.candidates[me.tried];
    && |t.rows| == |s.rows| && (forall i :: 0 <= i < |s.rows| && i != row ==> t.rows[i] == s.rows[i])
    && if row < |s.rows| && !LeaseRuns(s.rows[row], me.now) then
         && SameButClaim(t.rows[row], s.rows[row])
         && t.rows[row].claimedBy == Some(s.nextToken) && t.rows[row].claimExpiresAt == Some(me.now + lease)
         && you == me.(tried := me.tried + 1, claimed := me.claimed + [Lease(row, s.nextToken)])
       else t.rows == s.rows && you == me.(tried := me.tried + 1)
  }

  predicate SameButClaim(a: Sub, b: Sub) {
    a.cipher == b.cipher && a.keyVersion == b.keyVersion && a.verified == b.verified
  }

  /** A claim waits for another's open transaction, and a call claims no more rows than its limit. */
  lemma ClaimTakes(s: State, w: Worker, lease: Time)
    requires SessionOf(s, w).Claiming?
    ensures
      var me, t := SessionOf(s, w), Next(s, Claim(w, lease));
      if me.tried >= |me.candidates| || |me.claimed| >= me.limit
         || (exists v :: v != w && HasOpenWrite(s, v, me.candidates[me.tried])) then t == s
      else Leases(s, t, w, lease)
  {
    var me := SessionOf(s, w);
    if me.tried < |me.candidates| {
      var row := me.candidates[me.tried];
      if LockedFor(s, w, row) {
        var v :| v in s.sessions && v != w && s.sessions[v].Working? && row in s.sessions[v].writes;
        assert HasOpenWrite(s, v, row);
      }
    }
  }

  /** The claiming ends when the candidates or the limit are used up. */
  lemma WorkBegins(s: State, w: Worker)
    requires SessionOf(s, w).Claiming?
    ensures
      var me, t := SessionOf(s, w), Next(s, BeginWork(w));
      if me.tried == |me.candidates| || |me.claimed| >= me.limit then
        t.(sessions := s.sessions) == s && SessionOf(t, w) == Working(me.ring, me.claimed, 0, None, map[])
      else t == s
  {
  }

  /**
    A rewrite succeeds exactly if some key of the ring opens the secret. It keeps the plaintext, under the active
    key and a verified label, and gives up the claim; a ciphertext that only the active key opens stays as it is, and
    one that the active key does not open is made anew.
   */
  lemma RewriteMeans(ring: Keyring, row: Sub, nonce: nat)
    requires IsDictionary(ring.entries) && KeyOf(ring.entries, ring.active).Some?
    ensures
      var active := KeyOf(ring.entries, ring.active).value;
      var r := Rewritten(ring, row, nonce);
      && (r.Some? <==> exists e :: e in ring.entries && e.key == row.cipher.key)
      && (r.Some? ==>
            && r.value.keyVersion == ring.active && r.value.verified
            && r.value.claimedBy.None? && r.value.claimExpiresAt.None?
            && r.value.cipher.plaintext == row.cipher.plaintext && r.value.cipher.key == active
            && ((forall e :: e in ring.entries && e.key == row.cipher.key ==> e.kid == ring.active) ==>
                  r.value.cipher == row.cipher)
            && (active != row.cipher.key ==> r.value.cipher == Cipher(active, row.cipher.plaintext, nonce)))
  {
    DecryptFindsTheKey(ring, row.cipher, Some(row.keyVersion));
    KeyOfMember(ring.entries, ring.active);
    var found := Decrypt(ring, row.cipher, Some(row.keyVersion));
    if found.Some? {
      KeyOfMember(ring.entries, found.value.kid);
    }
  }

  /** A failed call goes on to release what it has leased, and nothing it has rewritten is seen by anybody. */
  lemma FailureReleases(s: State, w: Worker)
    requires SessionOf(s, w).Claiming? || SessionOf(s, w).Working?
    ensures
      var t := Next(s, Fail(w));
      t.(sessions := s.sessions) == s && SessionOf(t, w) == Releasing(SessionOf(s, w).claimed, 0)
  {
  }

  /** A release gives up the claim if the row still carries its token, and touches nothing else. */
  lemma ReleaseFrees(s: State, w: Worker)
    requires SessionOf(s, w).Releasing? && SessionOf(s, w).released < |SessionOf(s, w).claimed|
    ensures
      var me, t := SessionOf(s, w), Next(s, Release(w));
      var lease := me.claimed[me.released];
      if exists v :: v != w && HasOpenWrite(s, v, lease.row) then t == s
      else
        && SessionOf(t, w) == me.(released := me.released + 1) && |t.rows| == |s.rows|
        && (forall i :: 0 <= i < |s.rows| && i != lease.row ==> t.rows[i] == s.rows[i])
        && (lease.row < |s.rows| ==>
              if s.rows[lease.row].claimedBy == Some(lease.token) then
                && SameButClaim(t.rows[lease.row], s.rows[lease.row])
                && t.rows[lease.row].claimedBy.None? && t.rows[lease.row].claimExpiresAt.None?
              else t.rows[lease.row] == s.rows[lease.row])
  {
    var me := SessionOf(s, w);
    var row := me.claimed[me.released].row;
    if LockedFor(s, w, row) {
      var v :| v in s.sessions && v != w && s.sessions[v].Working? && row in s.sessions[v].writes;
      assert HasOpenWrite(s, v, row);
    }
  }

  // ----- Exclusive leases

  /** The worker has a lease on the row, and the row still carries its token. */
  ghost predicate Holds(s: State, v: Worker, row: nat) {
    && row < |s.rows|
    && exists k :: 0 <= k < |LeasesOf(SessionOf(s, v))| && LeasesOf(SessionOf(s, v))[k].row == row
                   && s.rows[row].claimedBy == Some(LeasesOf(SessionOf(s, v))[k].token)
  }

  /** The step is a claim by a call that read its clock before the lease ran out, or leaves leases to their holders. */
  ghost predicate Spares(s: State, step: Step, row: nat, expires: Time) {
    && (step.Claim? && SessionOf(s, step.worker).Claiming? ==> SessionOf(s, step.worker).now < expires)
    && (step.Commit? || step.Release? ==> !Holds(s, step.worker, row))
  }

  lemma WrittenRowIsHeld(s: State, v: Worker, row: nat)
    requires Inv(s)
    ensures HasOpenWrite(s, v, row) ==> Holds(s, v, row)
  {
    if HasOpenWrite(s, v, row) {
      var me := SessionOf(s, v);
      assert SessionOk(s, me);
      var k :| 0 <= k < me.done && k < |me.claimed| && me.claimed[k].row == row
               && s.rows[row].claimedBy == Some(me.claimed[k].token);
      assert LeasesOf(SessionOf(s, v))[k] == me.claimed[k];
    }
  }

  lemma SparedRowStays(s: State, step: Step, row: nat, expires: Time)
    requires Inv(s) && row < |s.rows| && s.rows[row].claimedBy.Some? && s.rows[row].claimExpiresAt == Some(expires)
    requires Spares(s, step, row, expires)
    ensures row < |Next(s, step).rows| && Next(s, step).rows[row] == s.rows[row]
  {
    if step.Commit? {
      WrittenRowIsHeld(s, step.worker, row);
    } else if step.Release? {
      var me := SessionOf(s, step.worker);
      if me.Releasing? && me.released < |me.claimed| {
        assert LeasesOf(me)[me.released] == me.claimed[me.released];
      }
    }
  }

  /**
    While claiming calls go by clock readings before the lease's expiry, and no worker that holds the lease commits or
    releases, the row stays exactly as it is, in every interleaving.
   */
  lemma {:induction false} LeaseIsExclusive(start: State, earlier: seq<Step>, later: seq<Step>, row: nat, expires: Time)
    requires Fresh(start) && row < |Run(start, earlier).rows|
    requires Run(start, earlier).rows[row].claimedBy.Some?
    requires Run(start, earlier).rows[row].claimExpiresAt == Some(expires)
    requires forall i :: 0 <= i < |later| ==> Spares(Run(Run(start, earlier), later[..i]), later[i], row, expires)
    ensures
      var t := Run(Run(start, earlier), later);
      row < |t.rows| && t.rows[row] == Run(start, earlier).rows[row]
  {
    if later != [] {
      var n := |later| - 1;
      var s := Run(start, earlier);
      forall i | 0 <= i < n ensures Spares(Run(s, later[..n][..i]), later[..n][i], row, expires) {
        assert later[..n][..i] == later[..i];
      }
      LeaseIsExclusive(start, earlier, later[..n], row, expires);
      assert Inv(start);
      RunKeepsInv(start, earlier);
      RunKeepsInv(s, later[..n]);
      SparedRowStays(Run(s, later[..n]), later[n], row, expires);
    }
  }
}
