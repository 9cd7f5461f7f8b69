/** What each step of a request finds and answers, and that every answer of a run has its cause. */
module AccessAnswers {
  import opened Prelude
  import opened CommaLists
  import opened AuditLog
  import opened DecisionResponses
  import opened ReplayProtection
  import opened AccessProtocol
  import opened AccessSafety
  import opened AccessTokens
  import opened AccessAuthentication

  // ----- Keys

  /** A header of blanks counts as none; else the key is the header without the blanks around it. */
  lemma ExplicitKeyMeans(api: Api)
    ensures ExplicitKey(api).None? <==> api.keyHeader.None? || AllBlank(api.keyHeader.value)
    ensures ExplicitKey(api).Some? ==>
      ExplicitKey(api).value != "" && IsCore(api.keyHeader.value, ExplicitKey(api).value)
  {
    if api.keyHeader.Some? { StripMeans(api.keyHeader.value); }
  }

  /** With a digest without collisions, fingerprints tell requests apart by all they cover, and by nothing else. */
  lemma FingerprintsTellRequests(digest: Digest, a: Call, b: Call)
    requires forall x, y :: digest(x) == digest(y) ==> x == y
    ensures FingerprintOf(digest, a) == FingerprintOf(digest, b) <==>
      && a.api.tenantId == b.api.tenantId && a.claims.rightId == b.claims.rightId
      && a.api.requestType == b.api.requestType && a.api.deviceId == b.api.deviceId
      && a.api.ipHash == b.api.ipHash && a.api.countryCode == b.api.countryCode
      && a.api.newOwnerId == b.api.newOwnerId && a.api.token == b.api.token
    ensures a.api.keyHeader.None? && b.api.keyHeader.None? ==>
      (IdempotencyKey(digest, a) == IdempotencyKey(digest, b) <==>
       FingerprintOf(digest, a) == FingerprintOf(digest, b))
  {
  }

  // ----- The steps

  /** The right of the token, if it is valid and the subject's. */
  predicate ReadsRight(s: State, call: Call, you: Session) {
    var key := RightKey(call.api.tenantId, call.claims.rightId);
    if key !in s.db.rights || !s.db.rights[key].valid then you == Done(Refused(RightInvalid))
    else if s.db.rights[key].ownerId != call.claims.sub then you == Done(Refused(OwnerMismatch))
    else you == Owning(call, s.db.rights[key])
  }

  /** Log `i` of the tenant has this key. */
  predicate HasKey(s: State, tenantId: string, key: string, i: nat) {
    i < |s.db.logs| && s.db.logs[i].row.tenantId == tenantId && s.db.logs[i].row.idempotencyKey == key
  }

  ghost predicate KeyIsUsed(s: State, tenantId: string, key: string) {
    exists i: nat :: HasKey(s, tenantId, key, i)
  }

  /** A log with the key answers the request: with its own answer, if it is of the same request. */
  ghost predicate AnsweredByLog(s: State, tenantId: string, key: string, fingerprint: string, you: Session) {
    exists i: nat :: HasKey(s, tenantId, key, i)
      && you == if s.db.logs[i].row.requestFingerprint == fingerprint
                then Done(Repeated(BuildIdempotentResponse(s.db.logs[i].row)))
                else Done(Refused(KeyConflict))
  }

  /** Only a given key is looked up; it must not be too long, nor used. */
  ghost predicate LooksUp(digest: Digest, s: State, call: Call, right: Right, you: Session) {
    match ExplicitKey(call.api)
    case None => you == Unlogged(call, right)
    case Some(key) =>
      if |key| > 128 then you == Done(Refused(InvalidKey))
      else if !KeyIsUsed(s, call.api.tenantId, key) then you == Unlogged(call, right)
      else AnsweredByLog(s, call.api.tenantId, key, FingerprintOf(digest, call), you)
  }

  /** After a lost race: the log that won, if it is one. */
  ghost predicate FindsWinner(digest: Digest, s: State, call: Call, you: Session) {
    if !KeyIsUsed(s, call.api.tenantId, IdempotencyKey(digest, call)) then you == Done(Refused(DuplicateRequest))
    else AnsweredByLog(s, call.api.tenantId, IdempotencyKey(digest, call), FingerprintOf(digest, call), you)
  }

  /** The token's mark: whoever has no quota left, or whose token is marked, is refused. */
  ghost predicate Marks(s: State, t: State, call: Call, right: Right, now: Time, you: Session) {
    var id := TokenId(call.claims.tenantId, call.api.token);
    if !call.quotaLeft then you == Done(Refused(QuotaExceeded)) && t.guards == s.guards
    else
      && t.guards.clock == now
      && (forall other :: other in t.guards.seen && other != id <==>
            other in s.guards.seen && other != id && now < s.guards.seen[other])
      && (forall other :: other in t.guards.seen && other != id ==>
            other in s.guards.seen && t.guards.seen[other] == s.guards.seen[other])
      && if id in s.guards.seen && now < s.guards.seen[id] then
           && you == Done(Refused(ReplayDetected)) && id in t.guards.seen && t.guards.seen[id] == s.guards.seen[id]
         else
           && you == Marked(call, right) && id in t.guards.seen
           && t.guards.seen[id]
              == now + (if call.claims.exp > now.Floor then call.claims.exp - now.Floor else 1) as real
  }

  /** An entry of the decision cache for this very request, at this version of the right. */
  function CacheEntry(call: Call, right: Right): CacheKey {
    CacheKey(call.api.tenantId, call.api.token, call.api.requestType, call.api.deviceId, call.api.ipHash,
             call.api.countryCode,
             if call.api.newOwnerId.Some? && call.api.newOwnerId.value != "" then call.api.newOwnerId.value else "-",
             right.version)
  }

  /** Only access requests are answered from the cache, while the entry lasts; an expired entry goes. */
  predicate Consults(s: State, t: State, call: Call, right: Right, now: Time, you: Session) {
    var key := CacheEntry(call, right);
    if call.api.requestType == "access" && key in s.guards.cache && now <= s.guards.cache[key].expires then
      && you == Done(FromCache(s.guards.cache[key].response, TokenId(call.claims.tenantId, call.api.token)))
      && t.guards.cache == s.guards.cache
    else
      && you == Uncached(call, right)
      && t.guards.cache == if call.api.requestType == "access" then s.guards.cache - {key} else s.guards.cache
  }

  /** Only allowed access decisions are remembered, for the lifetime of an entry. */
  predicate CachesDecision(s: State, t: State, me: Session, now: Time, lifetime: Time, you: Session)
    requires me.Stored?
  {
    && you == Done(Answered(me.response))
    && t.guards.cache == if me.call.api.requestType == "access" && me.row.allowed
                         then s.guards.cache[CacheEntry(me.call, me.right) := Cached(now + lifetime, me.response)]
                         else s.guards.cache
  }

  /** The key is new, and a right that is to be written is still at the version that was read. */
  ghost predicate MayWrite(s: State, me: Session)
    requires me.Reserved?
  {
    var key := RightKey(me.call.api.tenantId, me.call.claims.rightId);
    && !KeyIsUsed(s, me.call.api.tenantId, me.row.idempotencyKey)
    && (me.row.allowed ==> key in s.db.rights && s.db.rights[key].version == me.right.version)
  }

  /** An allowed transfer hands the right over and counts up; any other allowed request only dates it. */
  predicate UsesRight(before: Right, after: Right, read: Right, row: RequestLog) {
    && after.lastUsedAt == Some(row.createdAt) && after.valid == before.valid
    && if row.requestType == "ownership_transfer" && row.newOwnerId.Some? then
         && after.ownerId == row.newOwnerId.value && after.ownerChangeCount == read.ownerChangeCount + 1
         && after.version == read.version + 1
       else
         && after.ownerId == before.ownerId && after.ownerChangeCount == before.ownerChangeCount
         && after.version == before.version
  }

  /** All that a commit writes: counter, right, log and two events, and nothing else. */
  predicate WritesAll(before: Database, after: Database, me: Session)
    requires me.Reserved?
  {
    var t, key := me.call.api.tenantId, RightKey(me.call.api.tenantId, me.call.claims.rightId);
    && after.devices == before.devices && after.origins == before.origins
    && after.tenants.Keys == before.tenants.Keys
    && (forall id :: id in before.tenants ==>
          after.tenants[id] == if id == t then Tenant(me.usageCount, before.tenants[id].monthlyQuota)
                               else before.tenants[id])
    && after.rights.Keys == before.rights.Keys
    && (forall k :: k in before.rights ==>
          if k == key && me.row.allowed then UsesRight(before.rights[k], after.rights[k], me.right, me.row)
          else after.rights[k] == before.rights[k])
    && after.logs == before.logs + [Entry(me.row.(id := |before.logs|), me.call.api.token, me.call.id, me.response)]
    && after.outbox == before.outbox
       + [Event(me.row.tenantId, DecisionMade(me.row.traceId, me.row.rightId, me.row.riskScore, me.row.allowed))]
       + [Event(me.row.tenantId, UsageIncremented(me.usageCount))]
  }

  ghost predicate CommitEnds(s: State, t: State, me: Session, you: Session)
    requires me.Reserved?
  {
    if MayWrite(s, me) then
      WritesAll(s.db, t.db, me) && you == Stored(me.call, me.right, me.row, me.response)
    else
      t.db == s.db && you == if ExplicitKey(me.call.api).Some? then Losing(me.call) else Done(Refused(DuplicateRequest))
  }

  lemma KeyIsFound(s: State, tenantId: string, key: string)
    ensures FindLog(s.db.logs, tenantId, key).Some? <==> KeyIsUsed(s, tenantId, key)
    ensures FindLog(s.db.logs, tenantId, key).Some? ==>
      HasKey(s, tenantId, key, FindLog(s.db.logs, tenantId, key).value)
  {
    var found := FindLog(s.db.logs, tenantId, key);
    if found.Some? {
      assert HasKey(s, tenantId, key, found.value);
    }
  }

  lemma ReadEnds(s: State, w: Worker)
    requires SessionOf(s, w).Authenticated?
    ensures NextReadRight(s, w).(sessions := s.sessions) == s
    ensures ReadsRight(s, SessionOf(s, w).call, SessionOf(NextReadRight(s, w), w))
  {
  }

  lemma LookupEnds(digest: Digest, s: State, w: Worker)
    requires SessionOf(s, w).Owning?
    ensures NextLookup(digest, s, w).(sessions := s.sessions) == s
    ensures LooksUp(digest, s, SessionOf(s, w).call, SessionOf(s, w).right, SessionOf(NextLookup(digest, s, w), w))
  {
    var call := SessionOf(s, w).call;
    KeyIsFound(s, call.api.tenantId, IdempotencyKey(digest, call));
  }

  lemma WinnerEnds(digest: Digest, s: State, w: Worker)
    requires SessionOf(s, w).Losing?
    ensures NextFindWinner(digest, s, w).(sessions := s.sessions) == s
    ensures FindsWinner(digest, s, SessionOf(s, w).call, SessionOf(NextFindWinner(digest, s, w), w))
  {
    var call := SessionOf(s, w).call;
    KeyIsFound(s, call.api.tenantId, IdempotencyKey(digest, call));
  }

  lemma MarkEnds(s: State, w: Worker, now: Time)
    requires SessionOf(s, w).Unlogged? && s.guards.clock <= now
    ensures NextMark(s, w, now).db == s.db
    ensures Marks(s, NextMark(s, w, now), SessionOf(s, w).call, SessionOf(s, w).right, now,
                  SessionOf(NextMark(s, w, now), w))
  {
  }

  lemma ConsultEnds(s: State, w: Worker, now: Time)
    requires SessionOf(s, w).Marked?
    ensures NextConsult(s, w, now).db == s.db
    ensures Consults(s, NextConsult(s, w, now), SessionOf(s, w).call, SessionOf(s, w).right, now,
                     SessionOf(NextConsult(s, w, now), w))
  {
  }

  lemma RememberEnds(s: State, w: Worker, now: Time, lifetime: Time)
    requires SessionOf(s, w).Stored?
    ensures NextRemember(s, w, now, lifetime).db == s.db
    ensures CachesDecision(s, NextRemember(s, w, now, lifetime), SessionOf(s, w), now, lifetime,
                      SessionOf(NextRemember(s, w, now, lifetime), w))
  {
  }

  lemma WrittenWrites(db: Database, me: Session)
    requires me.Reserved? && (me.row.allowed ==> KeyOf(me.call) in db.rights)
    ensures WritesAll(db, Written(db, me), me)
  {
    assert db.outbox + EventsOf(me.row, me.usageCount) == db.outbox
      + [Event(me.row.tenantId, DecisionMade(me.row.traceId, me.row.rightId, me.row.riskScore, me.row.allowed))]
      + [Event(me.row.tenantId, UsageIncremented(me.usageCount))];
  }

  lemma CommitConcludes(s: State, w: Worker)
    requires SessionOf(s, w).Reserved?
    ensures CommitEnds(s, NextCommit(s, w), SessionOf(s, w), SessionOf(NextCommit(s, w), w))
    ensures Commits(s, w) <==> MayWrite(s, SessionOf(s, w))
  {
    var me := SessionOf(s, w);
    KeyIsFound(s, me.call.api.tenantId, me.row.idempotencyKey);
    if Commits(s, w) { WrittenWrites(s.db, me); }
  }

  /** The right is invalid at the next version, the event says so, and nothing else has changed. */
  predicate WritesRevocation(before: Database, after: Database, key: RightKey, read: Right) {
    && after.tenants == before.tenants && after.devices == before.devices && after.origins == before.origins
    && after.logs == before.logs && after.rights.Keys == before.rights.Keys
    && (forall k :: k in before.rights && k != key ==> after.rights[k] == before.rights[k])
    && key in before.rights
    && after.rights[key] == Right(before.rights[key].ownerId, false, before.rights[key].ownerChangeCount,
                                  read.version + 1, before.rights[key].lastUsedAt)
    && after.outbox
       == before.outbox + [Event(key.tenantId, RightRevoked(key.rightId, read.ownerId, read.version + 1))]
  }

  lemma RevocationConcludes(s: State, w: Worker)
    requires SessionOf(s, w).Revoking?
    ensures
      var me, t := SessionOf(s, w), NextCommitRevoke(s, w);
      && t.guards == s.guards
      && if me.key in s.db.rights && s.db.rights[me.key].version == me.right.version then
           && WritesRevocation(s.db, t.db, me.key, me.right)
           && SessionOf(t, w) == Done(Revocation(false, me.right.version + 1))
         else t.db == s.db && SessionOf(t, w) == Done(Refused(RevokeFailed))
  {
  }

  /** A token is issued exactly for an enabled device and to the owner of a valid right. */
  lemma TokenIsIssuedWhen(digest: Digest, s: State, jti: string, claims: Claims)
    ensures
      var t := Next(digest, s, IssueToken(jti, claims));
      var device, key := DeviceKey(claims.tenantId, claims.deviceId), RightKey(claims.tenantId, claims.rightId);
      && t == s.(guards := s.guards.(tokens := t.guards.tokens))
      && t.guards.tokens == if jti in s.guards.tokens || device !in s.db.devices || !s.db.devices[device]
                               || key !in s.db.rights || !s.db.rights[key].valid
                               || s.db.rights[key].ownerId != claims.sub
                            then s.guards.tokens else s.guards.tokens[jti := claims]
  {
  }

  // ----- Every answer has its cause

  /** In this state this step of `w` gives this answer, for the reason that belongs to it. */
  ghost predicate Because(digest: Digest, s: State, step: Step, w: Worker, reply: Reply) {
    var me := SessionOf(s, w);
    && !IsAdmin(step) && step.worker == w
    && match step
       case Authenticate(_, api, now) =>
         && s.guards.clock <= now && !MayEnter(s, api, now)
         && reply.Refused? && IsReason(s, api, now, reply.error)
       case ReadRight(_) => me.Authenticated? && ReadsRight(s, me.call, Done(reply))
       case Lookup(_) => me.Owning? && LooksUp(digest, s, me.call, me.right, Done(reply))
       case MarkToken(_, now) => me.Unlogged? && RefusesToken(s, me.call, now, reply)
       case ConsultCache(_, now) => me.Marked? && HitsCache(s, me.call, me.right, now, reply)
       case Reserve(_) =>
         && me.Judged? && reply == Refused(QuotaExceeded)
         && !(me.call.api.tenantId in s.db.tenants
              && s.db.tenants[me.call.api.tenantId].usageCount < s.db.tenants[me.call.api.tenantId].monthlyQuota)
       case Commit(_) =>
         me.Reserved? && !MayWrite(s, me) && ExplicitKey(me.call.api).None? && reply == Refused(DuplicateRequest)
       case Remember(_, _, _) => me.Stored? && reply == Answered(me.response)
       case FindWinner(_) => me.Losing? && FindsWinner(digest, s, me.call, Done(reply))
       case ReadForRevoke(_, key) =>
         if key !in s.db.rights then reply == Refused(RightNotFound)
         else !s.db.rights[key].valid && reply == Revocation(false, s.db.rights[key].version)
       case CommitRevoke(_) =>
         && me.Revoking?
         && reply == if me.key in s.db.rights && s.db.rights[me.key].version == me.right.version
                     then Revocation(false, me.right.version + 1) else Refused(RevokeFailed)
       case Fail(_) => reply == Refused(Unavailable)
       case _ => false
  }

  predicate RefusesToken(s: State, call: Call, now: Time, reply: Reply) {
    var id := TokenId(call.claims.tenantId, call.api.token);
    if !call.quotaLeft then reply == Refused(QuotaExceeded)
    else id in s.guards.seen && now < s.guards.seen[id] && reply == Refused(ReplayDetected)
  }

  predicate HitsCache(s: State, call: Call, right: Right, now: Time, reply: Reply) {
    var key := CacheEntry(call, right);
    && call.api.requestType == "access" && key in s.guards.cache && now <= s.guards.cache[key].expires
    && reply == FromCache(s.guards.cache[key].response, TokenId(call.claims.tenantId, call.api.token))
  }

  /** Either the step leaves the answer of `w` as it was, or it gives it for its reason. */
  ghost predicate HasCause(digest: Digest, s: State, step: Step, w: Worker) {
    var you := SessionOf(Next(digest, s, step), w);
    you.Done? ==> you == SessionOf(s, w) || Because(digest, s, step, w, you.reply)
  }

  lemma AuthenticationHasCause(digest: Digest, s: State, step: Step)
    requires step.Authenticate?
    ensures HasCause(digest, s, step, step.worker)
  {
    if (SessionOf(s, step.worker).Idle? || SessionOf(s, step.worker).Done?) && s.guards.clock <= step.now {
      EntersExactlyWhen(digest, s, step.worker, step.api, step.now);
    }
  }

  lemma LookingHasCause(digest: Digest, s: State, step: Step)
    requires step.ReadRight? || step.Lookup?
    ensures HasCause(digest, s, step, step.worker)
  {
    var w := step.worker;
    if step.ReadRight? && SessionOf(s, w).Authenticated? {
      ReadEnds(s, w);
    } else if step.Lookup? && SessionOf(s, w).Owning? {
      LookupEnds(digest, s, w);
    }
  }

  lemma MarkingHasCause(digest: Digest, s: State, step: Step)
    requires step.MarkToken? || step.ConsultCache? || step.DecideRequest?
    ensures HasCause(digest, s, step, step.worker)
  {
  }

  lemma CommittingHasCause(digest: Digest, s: State, step: Step)
    requires step.Reserve? || step.Commit? || step.Remember?
    ensures HasCause(digest, s, step, step.worker)
  {
    if step.Commit? && SessionOf(s, step.worker).Reserved? { CommitConcludes(s, step.worker); }
  }

  lemma EndingHasCause(digest: Digest, s: State, step: Step)
    requires step.FindWinner? || step.ReadForRevoke? || step.CommitRevoke? || step.Fail? || step.Crash?
    ensures HasCause(digest, s, step, step.worker)
  {
    if step.FindWinner? && SessionOf(s, step.worker).Losing? { WinnerEnds(digest, s, step.worker); }
  }

  lemma OwnStepsHaveCause(digest: Digest, s: State, step: Step)
    requires !IsAdmin(step)
    ensures HasCause(digest, s, step, step.worker)
  {
    if step.Authenticate? {
      AuthenticationHasCause(digest, s, step);
    } else if step.ReadRight? || step.Lookup? {
      LookingHasCause(digest, s, step);
    } else if step.MarkToken? || step.ConsultCache? || step.DecideRequest? {
      MarkingHasCause(digest, s, step);
    } else if step.Reserve? || step.Commit? || step.Remember? {
      CommittingHasCause(digest, s, step);
    } else {
      EndingHasCause(digest, s, step);
    }
  }

  lemma StepsHaveCause(digest: Digest, s: State, step: Step, w: Worker)
    ensures HasCause(digest, s, step, w)
  {
    if !IsAdmin(step) && step.worker == w {
      OwnStepsHaveCause(digest, s, step);
    } else {
      OthersKeepOut(digest, s, step, w);
    }
  }

  /** Step `k` gave this answer. */
  ghost predicate CausedAt(digest: Digest, run: seq<Step>, k: nat, w: Worker, reply: Reply) {
    k < |run| && Because(digest, Run(digest, run[..k]), run[k], w, reply)
  }

  /** The worker has had this answer since step `k`. */
  ghost predicate AnsweredSince(digest: Digest, run: seq<Step>, k: nat, w: Worker, reply: Reply) {
    forall m :: k < m <= |run| ==> SessionOf(Run(digest, run[..m]), w) == Done(reply)
  }

  ghost predicate AnsweredAt(digest: Digest, run: seq<Step>, k: nat, w: Worker, reply: Reply) {
    CausedAt(digest, run, k, w, reply) && AnsweredSince(digest, run, k, w, reply)
  }

  lemma CauseStays(digest: Digest, before: seq<Step>, run: seq<Step>, k: nat, w: Worker, reply: Reply)
    requires before <= run && CausedAt(digest, before, k, w, reply)
    ensures CausedAt(digest, run, k, w, reply)
  {
    assert run[..k] == before[..k] && run[k] == before[k];
  }

  lemma AnswerStays(digest: Digest, before: seq<Step>, run: seq<Step>, k: nat, w: Worker, reply: Reply)
    requires before <= run && |run| == |before| + 1 && AnsweredSince(digest, before, k, w, reply)
    requires SessionOf(Run(digest, run), w) == Done(reply)
    ensures AnsweredSince(digest, run, k, w, reply)
  {
    forall m | k < m <= |run| ensures SessionOf(Run(digest, run[..m]), w) == Done(reply) {
      if m < |run| {
        assert run[..m] == before[..m];
      } else {
        assert run[..m] == run;
      }
    }
  }

  /**
    Every answer has its cause: a refusal its failed test, a repeated answer its log, an answer from the cache its
    entry, and an answer of its own the stored decision.
   */
  lemma {:induction false} EveryAnswerHasItsCause(digest: Digest, run: seq<Step>, w: Worker)
    requires SessionOf(Run(digest, run), w).Done?
    ensures exists k: nat :: AnsweredAt(digest, run, k, w, SessionOf(Run(digest, run), w).reply)
  {
    var before, step := run[..|run| - 1], run[|run| - 1];
    var s, reply := Run(digest, before), SessionOf(Run(digest, run), w).reply;
    StepsHaveCause(digest, s, step, w);
    if SessionOf(s, w) == Done(reply) {
      EveryAnswerHasItsCause(digest, before, w);
      var k: nat :| AnsweredAt(digest, before, k, w, reply);
      CauseStays(digest, before, run, k, w, reply);
      AnswerStays(digest, before, run, k, w, reply);
      assert AnsweredAt(digest, run, k, w, reply);
    } else {
      assert run[..|run|] == run;
      assert AnsweredAt(digest, run, |run| - 1, w, reply);
    }
  }
}
