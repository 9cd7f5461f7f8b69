/** Allowed requests, transfers and revocations of a right take effect in one order, and the right's row records it. */
module AccessRights {
  import opened AuditLog
  import opened AccessProtocol
  import opened AccessSafety
  import opened AccessLedger

  predicate Concerns(row: RequestLog, key: RightKey) {
    row.tenantId == key.tenantId && row.rightId == key.rightId
  }

  predicate IsTransfer(row: RequestLog) {
    row.allowed && row.requestType == TRANSFER
  }

  /** The new owners of a right's allowed transfers, in commit order. */
  function NewOwners(logs: seq<Entry>, key: RightKey): seq<string> {
    if logs == [] then []
    else
      var row := logs[|logs| - 1].row;
      NewOwners(logs[..|logs| - 1], key)
      + if Concerns(row, key) && IsTransfer(row)
        then [if row.newOwnerId.Some? then row.newOwnerId.value else ""] else []
  }

  function IsRevocation(e: Event, key: RightKey): bool {
    e.tenantId == key.tenantId && e.body.RightRevoked? && e.body.rightId == key.rightId
  }

  /** How many revocation events a right has. */
  function Revocations(outbox: seq<Event>, key: RightKey): nat {
    if outbox == [] then 0
    else Revocations(outbox[..|outbox| - 1], key) + if IsRevocation(outbox[|outbox| - 1], key) then 1 else 0
  }

  /** Who owns a right after these transfers. */
  function OwnerAfter(origin: string, newOwners: seq<string>): string {
    if newOwners == [] then origin else newOwners[|newOwners| - 1]
  }

  /** The right's row says exactly what its logs and events say. */
  ghost predicate Recorded(db: Database, key: RightKey) {
    if key in db.rights then
      var right := db.rights[key];
      && key in db.origins
      && right.ownerChangeCount == |NewOwners(db.logs, key)|
      && right.ownerId == OwnerAfter(db.origins[key], NewOwners(db.logs, key))
      && right.version == 1 + right.ownerChangeCount + Revocations(db.outbox, key)
      && Revocations(db.outbox, key) <= 1
      && (Revocations(db.outbox, key) == 1 ==> !right.valid)
    else NewOwners(db.logs, key) == [] && Revocations(db.outbox, key) == 0
  }

  lemma AppendLog(logs: seq<Entry>, entry: Entry, key: RightKey)
    ensures NewOwners(logs + [entry], key)
         == NewOwners(logs, key)
            + if Concerns(entry.row, key) && IsTransfer(entry.row)
              then [if entry.row.newOwnerId.Some? then entry.row.newOwnerId.value else ""] else []
  {
    assert (logs + [entry])[..|logs + [entry]| - 1] == logs;
  }

  lemma AppendRevocation(outbox: seq<Event>, e: Event, key: RightKey)
    ensures Revocations(outbox + [e], key) == Revocations(outbox, key) + if IsRevocation(e, key) then 1 else 0
  {
    assert (outbox + [e])[..|outbox + [e]| - 1] == outbox;
  }

  lemma AppendNoRevocation(outbox: seq<Event>, row: RequestLog, usage: int, key: RightKey)
    ensures Revocations(outbox + EventsOf(row, usage), key) == Revocations(outbox, key)
  {
    var e, f := EventsOf(row, usage)[0], EventsOf(row, usage)[1];
    assert outbox + EventsOf(row, usage) == (outbox + [e]) + [f];
    AppendRevocation(outbox, e, key);
    AppendRevocation(outbox + [e], f, key);
  }

  /** What a committing session has read is what the database holds, if it writes the right. */
  ghost predicate ReadIsCurrent(db: Database, key: RightKey, read: Right) {
    && key in db.rights && read.valid
    && db.rights[key].ownerId == read.ownerId && db.rights[key].valid
    && db.rights[key].ownerChangeCount == read.ownerChangeCount && db.rights[key].version == read.version
  }

  /** An allowed log commits only while the right is valid and owned by the token's subject. */
  lemma AllowedMeansOwned(digest: Digest, s: State, w: Worker)
    requires Inv(digest, s) && Commits(s, w) && SessionOf(s, w).row.allowed
    ensures ReadIsCurrent(s.db, KeyOf(SessionOf(s, w).call), SessionOf(s, w).right)
    ensures SessionOf(s, w).row.userId == SessionOf(s, w).right.ownerId
    ensures Concerns(SessionOf(s, w).row, KeyOf(SessionOf(s, w).call))
    ensures IsTransfer(SessionOf(s, w).row) ==>
      SessionOf(s, w).row.newOwnerId.Some? && SessionOf(s, w).row.newOwnerId.value != SessionOf(s, w).right.ownerId
  {
    assert SessionOk(digest, s, SessionOf(s, w));
  }

  lemma CommitKeepsRowIdentity(digest: Digest, s: State, w: Worker)
    requires Inv(digest, s) && SessionOf(s, w).Reserved?
    ensures Concerns(SessionOf(s, w).row, KeyOf(SessionOf(s, w).call))
  {
    assert SessionOk(digest, s, SessionOf(s, w));
  }

  lemma WrittenLeavesOthers(db: Database, me: Session, key: RightKey)
    requires me.Reserved? && (me.row.allowed ==> KeyOf(me.call) in db.rights) && Concerns(me.row, KeyOf(me.call))
    requires Recorded(db, key) && key != KeyOf(me.call)
    ensures Recorded(Written(db, me), key)
  {
    AppendLog(db.logs, Entry(me.row.(id := |db.logs|), me.call.api.token, me.call.id, me.response), key);
    AppendNoRevocation(db.outbox, me.row, me.usageCount, key);
  }

  lemma WrittenRecords(db: Database, me: Session, key: RightKey)
    requires me.Reserved? && Concerns(me.row, key) && key == KeyOf(me.call) && Recorded(db, key)
    requires me.row.allowed ==> ReadIsCurrent(db, key, me.right)
    requires IsTransfer(me.row) ==> me.row.newOwnerId.Some?
    ensures Recorded(Written(db, me), key)
  {
    AppendLog(db.logs, Entry(me.row.(id := |db.logs|), me.call.api.token, me.call.id, me.response), key);
    AppendNoRevocation(db.outbox, me.row, me.usageCount, key);
  }

  lemma CommitRecords(digest: Digest, s: State, w: Worker, key: RightKey)
    requires Inv(digest, s) && Commits(s, w) && Recorded(s.db, key)
    ensures Recorded(NextCommit(s, w).db, key)
  {
    CommitKeepsRowIdentity(digest, s, w);
    if key != KeyOf(SessionOf(s, w).call) {
      WrittenLeavesOthers(s.db, SessionOf(s, w), key);
    } else {
      if SessionOf(s, w).row.allowed {
        AllowedMeansOwned(digest, s, w);
      }
      WrittenRecords(s.db, SessionOf(s, w), key);
    }
  }

  /** A revocation commits only on the valid right that was read. */
  lemma RevokedRightWasValid(digest: Digest, s: State, w: Worker)
    requires Inv(digest, s) && Revokes(s, w)
    ensures ReadIsCurrent(s.db, SessionOf(s, w).key, SessionOf(s, w).right)
  {
    assert SessionOk(digest, s, SessionOf(s, w));
  }

  lemma RevokeRecords(digest: Digest, s: State, w: Worker, key: RightKey)
    requires Inv(digest, s) && Revokes(s, w) && Recorded(s.db, key)
    ensures Recorded(NextCommitRevoke(s, w).db, key)
  {
    var me := SessionOf(s, w);
    RevokedRightWasValid(digest, s, w);
    AppendRevocation(s.db.outbox,
                     Event(me.key.tenantId, RightRevoked(me.key.rightId, me.right.ownerId, me.right.version + 1)), key);
  }

  lemma AdminStepRecords(digest: Digest, s: State, step: Step, key: RightKey)
    requires step.CreateTenant? || step.SetDevice? || step.CreateRight?
    requires Recorded(s.db, key)
    ensures Recorded(Next(digest, s, step).db, key)
  {
  }

  lemma NextRecords(digest: Digest, s: State, step: Step, key: RightKey)
    requires Inv(digest, s) && Recorded(s.db, key)
    ensures Recorded(Next(digest, s, step).db, key)
  {
    if !Writes(s, step) {
      OthersOnlyRead(digest, s, step);
    } else if step.Commit? {
      CommitRecords(digest, s, step.worker, key);
    } else if step.CommitRevoke? {
      RevokeRecords(digest, s, step.worker, key);
    } else {
      AdminStepRecords(digest, s, step, key);
    }
  }

  /**
    In every reachable state, a right's version is 1 + transfers + revocations, its owner-change count is
    the number of committed allowed transfers, and its owner is the last of their new owners.
   */
  lemma {:induction false} RightsAreRecorded(digest: Digest, run: seq<Step>, key: RightKey)
    ensures Recorded(Run(digest, run).db, key)
  {
    if run != [] {
      RightsAreRecorded(digest, run[..|run| - 1], key);
      RunKeepsInv(digest, run[..|run| - 1]);
      NextRecords(digest, Run(digest, run[..|run| - 1]), run[|run| - 1], key);
    }
  }

  // ----- The order of allowed requests

  /** Log `i`, if allowed, was made by the owner that the transfers before it had left. */
  ghost predicate MadeByOwner(db: Database, i: nat)
    requires i < |db.logs|
  {
    var row := db.logs[i].row;
    var key := RightKey(row.tenantId, row.rightId);
    row.allowed ==>
      && key in db.origins
      && row.userId == OwnerAfter(db.origins[key], NewOwners(db.logs[..i], key))
      && (IsTransfer(row) ==> row.newOwnerId.Some? && row.newOwnerId.value != row.userId)
  }

  lemma CommitIsMadeByOwner(digest: Digest, s: State, w: Worker)
    requires Inv(digest, s) && Commits(s, w) && Recorded(s.db, KeyOf(SessionOf(s, w).call))
    ensures MadeByOwner(NextCommit(s, w).db, |s.db.logs|)
  {
    var t := NextCommit(s, w);
    CommitKeepsRowIdentity(digest, s, w);
    assert t.db.logs[..|s.db.logs|] == s.db.logs;
    if SessionOf(s, w).row.allowed {
      AllowedMeansOwned(digest, s, w);
    }
  }

  /** Logs are only appended, and creation owners never change. */
  ghost predicate Extends(s: Database, t: Database) {
    s.logs <= t.logs && forall key :: key in s.origins ==> key in t.origins && t.origins[key] == s.origins[key]
  }

  ghost predicate OriginsOk(db: Database) {
    forall key :: key in db.origins ==> key in db.rights
  }

  lemma MadeByOwnerStays(s: Database, t: Database, i: nat)
    requires Extends(s, t) && i < |s.logs| && MadeByOwner(s, i)
    ensures i < |t.logs| && MadeByOwner(t, i)
  {
    assert t.logs[..i] == s.logs[..i];
  }

  lemma LogsOnlyGrow(digest: Digest, s: State, step: Step)
    requires OriginsOk(s.db)
    ensures Extends(s.db, Next(digest, s, step).db) && OriginsOk(Next(digest, s, step).db)
    ensures |Next(digest, s, step).db.logs| ==
      |s.db.logs| + if step.Commit? && Commits(s, step.worker) then 1 else 0
  {
    if !Writes(s, step) {
      OthersOnlyRead(digest, s, step);
    }
  }

  lemma {:induction false} OriginsAreRights(digest: Digest, run: seq<Step>)
    ensures OriginsOk(Run(digest, run).db)
  {
    if run != [] {
      OriginsAreRights(digest, run[..|run| - 1]);
      LogsOnlyGrow(digest, Run(digest, run[..|run| - 1]), run[|run| - 1]);
    }
  }

  lemma NewLogIsMadeByOwner(digest: Digest, s: State, step: Step)
    requires Inv(digest, s) && step.Commit? && Commits(s, step.worker)
    requires Recorded(s.db, KeyOf(SessionOf(s, step.worker).call))
    ensures |Next(digest, s, step).db.logs| == |s.db.logs| + 1 && MadeByOwner(Next(digest, s, step).db, |s.db.logs|)
  {
    CommitIsMadeByOwner(digest, s, step.worker);
  }

  lemma NextLinearises(digest: Digest, s: State, step: Step, i: nat)
    requires Inv(digest, s) && i < |Next(digest, s, step).db.logs|
    requires OriginsOk(s.db)
    requires i < |s.db.logs| ==> MadeByOwner(s.db, i)
    requires step.Commit? && Commits(s, step.worker) ==> Recorded(s.db, KeyOf(SessionOf(s, step.worker).call))
    ensures MadeByOwner(Next(digest, s, step).db, i)
  {
    LogsOnlyGrow(digest, s, step);
    if i < |s.db.logs| {
      MadeByOwnerStays(s.db, Next(digest, s, step).db, i);
    } else {
      NewLogIsMadeByOwner(digest, s, step);
    }
  }

  /**
    Allowed decisions linearise: in commit order, each was made by the user whom the earlier allowed
    transfers of its right had made the owner, and each transfer changes the owner.
   */
  lemma {:induction false} AllowedLogsLinearise(digest: Digest, run: seq<Step>, i: nat)
    requires i < |Run(digest, run).db.logs|
    ensures MadeByOwner(Run(digest, run).db, i)
  {
    if run != [] {
      var before, step := run[..|run| - 1], run[|run| - 1];
      var s := Run(digest, before);
      RunKeepsInv(digest, before);
      OriginsAreRights(digest, before);
      if i < |s.db.logs| {
        AllowedLogsLinearise(digest, before, i);
      }
      if step.Commit? && Commits(s, step.worker) {
        RightsAreRecorded(digest, before, KeyOf(SessionOf(s, step.worker).call));
      }
      NextLinearises(digest, s, step, i);
    }
  }

  // ----- Revocation is final

  predicate IsAllowance(e: Event, key: RightKey) {
    e.tenantId == key.tenantId && e.body.DecisionMade? && e.body.rightId == key.rightId && e.body.allowed
  }

  /** No allowed decision of a right is announced after its revocation. */
  ghost predicate QuietAfterRevoke(outbox: seq<Event>, key: RightKey) {
    forall i, j :: 0 <= i < j < |outbox| && IsRevocation(outbox[i], key) ==> !IsAllowance(outbox[j], key)
  }

  lemma {:induction false} NoRevocationsMeansNone(outbox: seq<Event>, key: RightKey)
    ensures Revocations(outbox, key) == 0 <==> forall i :: 0 <= i < |outbox| ==> !IsRevocation(outbox[i], key)
  {
    if outbox != [] {
      NoRevocationsMeansNone(outbox[..|outbox| - 1], key);
    }
  }

  lemma CommitKeepsQuiet(digest: Digest, s: State, w: Worker, key: RightKey)
    requires Inv(digest, s) && Commits(s, w) && Recorded(s.db, key) && QuietAfterRevoke(s.db.outbox, key)
    ensures QuietAfterRevoke(NextCommit(s, w).db.outbox, key)
  {
    var me := SessionOf(s, w);
    CommitKeepsRowIdentity(digest, s, w);
    NoRevocationsMeansNone(s.db.outbox, key);
    if me.row.allowed {
      AllowedMeansOwned(digest, s, w);
    }
    assert NextCommit(s, w).db.outbox == s.db.outbox + EventsOf(me.row, me.usageCount);
    assert !IsAllowance(EventsOf(me.row, me.usageCount)[1], key)
      && !IsRevocation(EventsOf(me.row, me.usageCount)[0], key);
  }

  lemma NextKeepsQuiet(digest: Digest, s: State, step: Step, key: RightKey)
    requires Inv(digest, s) && Recorded(s.db, key) && QuietAfterRevoke(s.db.outbox, key)
    ensures QuietAfterRevoke(Next(digest, s, step).db.outbox, key)
  {
    if !Writes(s, step) {
      OthersOnlyRead(digest, s, step);
    } else if step.Commit? {
      CommitKeepsQuiet(digest, s, step.worker, key);
    }
  }

  /** A revocation is final: once `right.revoked` is out, no `decision.allowed` follows for that right. */
  lemma {:induction false} RevocationIsFinal(digest: Digest, run: seq<Step>, key: RightKey)
    ensures QuietAfterRevoke(Run(digest, run).db.outbox, key)
  {
    if run != [] {
      RevocationIsFinal(digest, run[..|run| - 1], key);
      RunKeepsInv(digest, run[..|run| - 1]);
      RightsAreRecorded(digest, run[..|run| - 1], key);
      NextKeepsQuiet(digest, Run(digest, run[..|run| - 1]), run[|run| - 1], key);
    }
  }

  // ----- Retries of a transfer

  /** Log `i` is the latest allowed transfer of its right. */
  ghost predicate IsLatestTransfer(logs: seq<Entry>, i: nat, key: RightKey) {
    && i < |logs| && IsTransfer(logs[i].row) && Concerns(logs[i].row, key)
    && NewOwners(logs, key) == NewOwners(logs[..i + 1], key)
  }

  lemma TransferGaveAway(db: Database, i: nat, key: RightKey)
    requires IsLatestTransfer(db.logs, i, key) && Recorded(db, key) && MadeByOwner(db, i)
    ensures key in db.rights && db.rights[key].ownerId != db.logs[i].row.userId
  {
    assert db.logs[..i + 1] == db.logs[..i] + [db.logs[i]];
    AppendLog(db.logs[..i], db.logs[i], key);
  }

  /** Where the reading of the right leads: on for the owner that the log leaves, as long as the right is valid. */
  ghost predicate ReadsAsOwner(s: State, v: Worker)
    requires SessionOf(s, v).Authenticated?
  {
    var key, after := KeyOf(SessionOf(s, v).call), SessionOf(NextReadRight(s, v), v);
    if key in s.db.rights && s.db.rights[key].valid then
      && key in s.db.origins
      && (after == Owning(SessionOf(s, v).call, s.db.rights[key])
          <==> SessionOf(s, v).call.claims.sub == OwnerAfter(s.db.origins[key], NewOwners(s.db.logs, key)))
      && (after == Done(Refused(OwnerMismatch))
          <==> SessionOf(s, v).call.claims.sub != OwnerAfter(s.db.origins[key], NewOwners(s.db.logs, key)))
    else after == Done(Refused(RightInvalid))
  }

  lemma RecordedReads(s: State, v: Worker)
    requires SessionOf(s, v).Authenticated? && Recorded(s.db, KeyOf(SessionOf(s, v).call))
    ensures ReadsAsOwner(s, v)
  {
  }

  /** In every run, a request gets past its right exactly if the right is valid and its subject the present owner. */
  lemma OnlyTheOwnerGoesOn(digest: Digest, run: seq<Step>, v: Worker)
    requires SessionOf(Run(digest, run), v).Authenticated?
    ensures ReadsAsOwner(Run(digest, run), v)
  {
    RightsAreRecorded(digest, run, KeyOf(SessionOf(Run(digest, run), v).call));
    RecordedReads(Run(digest, run), v);
  }

  /** A request of the subject who made the allowed log `i` of the right it asks for. */
  ghost predicate ComesBack(s: State, v: Worker, i: nat) {
    && SessionOf(s, v).Authenticated? && i < |s.db.logs| && s.db.logs[i].row.allowed
    && Concerns(s.db.logs[i].row, KeyOf(SessionOf(s, v).call))
    && SessionOf(s, v).call.claims.sub == s.db.logs[i].row.userId
  }

  /**
    Before the idempotency lookup, and whatever its key, a retry of an allowed request is refused as
    `owner_mismatch` exactly when the right is valid and the transfers so far have left it with somebody else.
   */
  lemma RetryOfTransferIsRefused(digest: Digest, run: seq<Step>, i: nat, v: Worker)
    requires ComesBack(Run(digest, run), v, i)
    ensures
      var s := Run(digest, run);
      var key := KeyOf(SessionOf(s, v).call);
      && key in s.db.rights && key in s.db.origins
      && (SessionOf(NextReadRight(s, v), v) == Done(Refused(OwnerMismatch))
          <==> s.db.rights[key].valid
               && OwnerAfter(s.db.origins[key], NewOwners(s.db.logs, key)) != s.db.logs[i].row.userId)
  {
    AllowedLogsLinearise(digest, run, i);
    OriginsAreRights(digest, run);
    OnlyTheOwnerGoesOn(digest, run, v);
  }

  /** In particular the giver of the latest transfer is turned away. */
  lemma LatestGiverIsTurnedAway(digest: Digest, run: seq<Step>, i: nat, v: Worker)
    requires ComesBack(Run(digest, run), v, i)
    requires IsLatestTransfer(Run(digest, run).db.logs, i, KeyOf(SessionOf(Run(digest, run), v).call))
    ensures
      var s := Run(digest, run);
      var key := KeyOf(SessionOf(s, v).call);
      && key in s.db.rights
      && NextReadRight(s, v) == Refuse(s, v, if s.db.rights[key].valid then OwnerMismatch else RightInvalid)
  {
    var s := Run(digest, run);
    RightsAreRecorded(digest, run, KeyOf(SessionOf(s, v).call));
    AllowedLogsLinearise(digest, run, i);
    TransferGaveAway(s.db, i, KeyOf(SessionOf(s, v).call));
  }
}
