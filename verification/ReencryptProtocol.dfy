/**
  Key-rotation re-encryption of webhook secrets (app/services/webhook_service.py) as a state machine.

  Row k of the subscriptions table has id k. A worker commits its claims one by one, then rewrites the
  claimed rows in one transaction: a rewritten row is locked, and the rewrite invisible, until the
  transaction ends. Workers may run with different keyrings and active kids.
 */
module ReencryptProtocol {
  import opened Prelude
  import opened Secrets

  type Token = nat
  type Worker = nat

  datatype Sub = Sub(cipher: Cipher, keyVersion: Kid, verified: bool,
                     claimedBy: Option<Token>, claimExpiresAt: Option<Time>)

  datatype Lease = Lease(row: nat, token: Token)

  /** An uncommitted rewrite: the row as it was loaded, and as it will be. */
  datatype Write = Write(source: Sub, target: Sub)

  datatype Session =
    | Idle
    | Claiming(ring: Keyring, now: Time, limit: nat, candidates: seq<nat>, tried: nat, claimed: seq<Lease>)
    | Working(ring: Keyring, claimed: seq<Lease>, done: nat, loaded: Option<Sub>, writes: map<nat, Write>)
    | Releasing(claimed: seq<Lease>, released: nat)

  datatype State = State(keys: map<Kid, Key>, rows: seq<Sub>, sessions: map<Worker, Session>, nextToken: Token)

  datatype Step =
    | AddKey(kid: Kid, key: Key)
    | Subscribe(ring: Keyring, secret: string, nonce: nat)
    | Start(worker: Worker, ring: Keyring, now: Time, limit: nat)
    | Claim(worker: Worker, lease: Time)
    | BeginWork(worker: Worker)
    | Load(worker: Worker)
    | Rewrite(worker: Worker, nonce: nat)
    | Commit(worker: Worker)
    | Fail(worker: Worker)
    | Release(worker: Worker)
    | ReleaseFails(worker: Worker)
    | Crash(worker: Worker)

  function SessionOf(s: State, w: Worker): Session {
    if w in s.sessions then s.sessions[w] else Idle
  }

  function SetSession(s: State, w: Worker, session: Session): State {
    s.(sessions := s.sessions[w := session])
  }

  predicate Stale(row: Sub, active: Kid) {
    row.keyVersion != active || !row.verified
  }

  predicate Free(row: Sub, now: Time) {
    row.claimedBy.None? || row.claimExpiresAt.None? || row.claimExpiresAt.value <= now
  }

  /** Ids from `from` on of stale rows that are not under a running lease, at most `n`, in order. */
  function CandidateIds(rows: seq<Sub>, active: Kid, now: Time, from: nat, n: nat): (ids: seq<nat>)
    ensures |ids| <= n
    ensures forall i :: 0 <= i < |ids| ==> from <= ids[i] < |rows|
    ensures forall i, j :: 0 <= i < j < |ids| ==> ids[i] < ids[j]
    decreases |rows| - from
  {
    if from >= |rows| || n == 0 then []
    else if Stale(rows[from], active) && Free(rows[from], now) then
      [from] + CandidateIds(rows, active, now, from + 1, n - 1)
    else CandidateIds(rows, active, now, from + 1, n)
  }

  /** The keyring of a process is a dictionary of keys that exist. */
  predicate RingExists(keys: map<Kid, Key>, ring: Keyring) {
    IsDictionary(ring.entries) && forall e :: e in ring.entries ==> e.kid in keys && keys[e.kid] == e.key
  }

  /** And it has its active kid. */
  predicate RingOk(keys: map<Kid, Key>, ring: Keyring) {
    RingExists(keys, ring) && KeyOf(ring.entries, ring.active).Some?
  }

  /** Another worker's open transaction has rewritten the row. */
  predicate LockedFor(s: State, w: Worker, row: nat) {
    exists v :: v in s.sessions && v != w && s.sessions[v].Working? && row in s.sessions[v].writes
  }

  /** The row as it will be; None stands for the ValueError of a failed decryption. */
  function Rewritten(ring: Keyring, row: Sub, nonce: nat): Option<Sub> {
    match Decrypt(ring, row.cipher, Some(row.keyVersion))
    case None => None
    case Some(found) =>
      var cipher := if found.kid != ring.active then Encrypt(ring, found.plaintext, nonce) else Some(row.cipher);
      if cipher.Some? then Some(Sub(cipher.value, ring.active, true, None, None)) else None
  }

  function Applied(rows: seq<Sub>, writes: map<nat, Write>): (r: seq<Sub>)
    ensures |r| == |rows|
    ensures forall i :: 0 <= i < |rows| ==> r[i] == if i in writes then writes[i].target else rows[i]
  {
    seq(|rows|, i requires 0 <= i < |rows| => if i in writes then writes[i].target else rows[i])
  }

  function NextClaim(s: State, w: Worker, lease: Time): State
    requires SessionOf(s, w).Claiming?
  {
    var me := SessionOf(s, w);
    if me.tried >= |me.candidates| || |me.claimed| >= me.limit then s
    else
      var row := me.candidates[me.tried];
      if LockedFor(s, w, row) then s
      else if row < |s.rows| && Free(s.rows[row], me.now) then
        var leased := s.rows[row].(claimedBy := Some(s.nextToken), claimExpiresAt := Some(me.now + lease));
        SetSession(s.(rows := s.rows[row := leased], nextToken := s.nextToken + 1),
                   w, me.(tried := me.tried + 1, claimed := me.claimed + [Lease(row, s.nextToken)]))
      else SetSession(s.(nextToken := s.nextToken + 1), w, me.(tried := me.tried + 1))
  }

  /** `db.get`; a row that is not there is skipped. */
  function NextLoad(s: State, w: Worker): State
    requires SessionOf(s, w).Working?
  {
    var me := SessionOf(s, w);
    if me.loaded.Some? || me.done >= |me.claimed| then s
    else if me.claimed[me.done].row < |s.rows| then
      SetSession(s, w, me.(loaded := Some(s.rows[me.claimed[me.done].row])))
    else SetSession(s, w, me.(done := me.done + 1))
  }

  /** The conditional UPDATE of one row; a failed decryption rolls the transaction back instead. */
  function NextRewrite(s: State, w: Worker, nonce: nat): State
    requires SessionOf(s, w).Working?
  {
    var me := SessionOf(s, w);
    if me.loaded.None? || me.done >= |me.claimed| then s
    else
      var lease := me.claimed[me.done];
      var target := Rewritten(me.ring, me.loaded.value, nonce);
      if target.None? then SetSession(s, w, Releasing(me.claimed, 0))
      else if LockedFor(s, w, lease.row) then s
      else if lease.row < |s.rows| && lease.row !in me.writes && s.rows[lease.row].claimedBy == Some(lease.token) then
        SetSession(s, w, me.(done := me.done + 1, loaded := None,
                             writes := me.writes[lease.row := Write(me.loaded.value, target.value)]))
      else SetSession(s, w, me.(done := me.done + 1, loaded := None))
  }

  function NextRelease(s: State, w: Worker): State
    requires SessionOf(s, w).Releasing?
  {
    var me := SessionOf(s, w);
    if me.released >= |me.claimed| then SetSession(s, w, Idle)
    else
      var lease := me.claimed[me.released];
      if LockedFor(s, w, lease.row) then s
      else if lease.row < |s.rows| && s.rows[lease.row].claimedBy == Some(lease.token) then
        SetSession(s.(rows := s.rows[lease.row := s.rows[lease.row].(claimedBy := None, claimExpiresAt := None)]),
                   w, me.(released := me.released + 1))
      else SetSession(s, w, me.(released := me.released + 1))
  }

  /** One step of the system; a step that cannot be taken, or waits for a lock, changes nothing. */
  function Next(s: State, step: Step): State {
    match step
    case AddKey(kid, key) => if kid in s.keys then s else s.(keys := s.keys[kid := key])
    case Subscribe(ring, secret, nonce) =>
      if RingOk(s.keys, ring) then
        s.(rows := s.rows + [Sub(Encrypt(ring, secret, nonce).value, ring.active, true, None, None)])
      else s
    case Start(w, ring, now, limit) =>
      if SessionOf(s, w).Idle? && RingOk(s.keys, ring) then
        SetSession(s, w, Claiming(ring, now, limit, CandidateIds(s.rows, ring.active, now, 0, limit + 1), 0, []))
      else s
    case Claim(w, lease) => if SessionOf(s, w).Claiming? then NextClaim(s, w, lease) else s
    case BeginWork(w) =>
      var me := SessionOf(s, w);
      if me.Claiming? && (me.tried == |me.candidates| || |me.claimed| >= me.limit) then
        SetSession(s, w, Working(me.ring, me.claimed, 0, None, map[]))
      else s
    case Load(w) => if SessionOf(s, w).Working? then NextLoad(s, w) else s
    case Rewrite(w, nonce) => if SessionOf(s, w).Working? then NextRewrite(s, w, nonce) else s
    case Commit(w) =>
      var me := SessionOf(s, w);
      if me.Working? && me.done == |me.claimed| then SetSession(s.(rows := Applied(s.rows, me.writes)), w, Idle) else s
    case Fail(w) =>
      var me := SessionOf(s, w);
      if me.Claiming? || me.Working? then SetSession(s, w, Releasing(me.claimed, 0)) else s
    case Release(w) => if SessionOf(s, w).Releasing? then NextRelease(s, w) else s
    case ReleaseFails(w) =>
      var me := SessionOf(s, w);
      if me.Releasing? && me.released < |me.claimed| then SetSession(s, w, me.(released := me.released + 1)) else s
    case Crash(w) => SetSession(s, w, Idle)
  }

  function Run(s: State, run: seq<Step>): State {
    if run == [] then s else Next(Run(s, run[..|run| - 1]), run[|run| - 1])
  }

  /**
    The run leads from `start` to this state. (The quantifier keeps proofs from unfolding runs where they need
    not.)
   */
  ghost predicate Reaches(start: State, run: seq<Step>, s: State) {
    forall r :: r == run ==> Run(start, r) == s
  }

  lemma ReachesNext(start: State, run: seq<Step>, s: State, step: Step)
    requires Reaches(start, run, s)
    ensures Reaches(start, run + [step], Next(s, step))
  {
    assert (run + [step])[..|run + [step]| - 1] == run;
    assert Run(start, run) == s;
  }
}
