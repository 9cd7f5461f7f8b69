/** Tokens are for single use: the replay marks of `request_access` over whole runs. */
module AccessTokens {
  import opened Prelude
  import opened ReplayProtection
  import opened AccessProtocol
  import opened AccessSafety

  // ----- The marks themselves

  function EndOf(m: MarkRecord): Time { m.at + TimeToLive(m.exp, m.at) as real }

  /** Every mark that has not run out is in the replay store. */
  ghost predicate Remembered(g: Guards) {
    forall k :: 0 <= k < |g.marks| && EndOf(g.marks[k]) > g.clock ==>
      g.marks[k].token in g.seen && g.seen[g.marks[k].token] >= EndOf(g.marks[k])
  }

  /** A token is marked again only when its earlier marks have run out. */
  ghost predicate Spaced(marks: seq<MarkRecord>) {
    forall i, j :: 0 <= i < j < |marks| && marks[i].token == marks[j].token ==> marks[j].at >= EndOf(marks[i])
  }

  /** A mark carries the expiry of its token. */
  ghost predicate ExpiriesOk(g: Guards) {
    forall k :: 0 <= k < |g.marks| ==>
      g.marks[k].token.jti in g.tokens && g.tokens[g.marks[k].token.jti].exp == g.marks[k].exp
  }

  ghost predicate HasEnd(marks: seq<MarkRecord>, token: TokenId, end: Time) {
    exists k :: 0 <= k < |marks| && marks[k].token == token && EndOf(marks[k]) == end
  }

  /** Nothing is in the replay store but marks. */
  ghost predicate Witnessed(g: Guards) {
    forall token :: token in g.seen ==> HasEnd(g.marks, token, g.seen[token])
  }

  ghost predicate MarksOk(g: Guards) {
    Remembered(g) && Spaced(g.marks) && ExpiriesOk(g) && Witnessed(g)
  }

  lemma EndsStay(marks: seq<MarkRecord>, m: MarkRecord, token: TokenId, end: Time)
    requires HasEnd(marks, token, end)
    ensures HasEnd(marks + [m], token, end)
  {
    var k :| 0 <= k < |marks| && marks[k].token == token && EndOf(marks[k]) == end;
    assert (marks + [m])[k] == marks[k];
  }

  lemma MarkingKeepsWitnesses(g: Guards, m: MarkRecord)
    requires Witnessed(g)
    ensures
      var after := Mark(g.seen, m.token, TimeToLive(m.exp, m.at), m.at);
      Witnessed(g.(seen := after.seen, clock := m.at, marks := if after.first then g.marks + [m] else g.marks))
  {
    var after := Mark(g.seen, m.token, TimeToLive(m.exp, m.at), m.at);
    if after.first {
      forall token | token in after.seen ensures HasEnd(g.marks + [m], token, after.seen[token]) {
        if token == m.token {
          assert (g.marks + [m])[|g.marks|] == m;
        } else {
          EndsStay(g.marks, m, token, g.seen[token]);
        }
      }
    }
  }

  lemma MarkingKeepsSpaces(g: Guards, m: MarkRecord)
    requires Remembered(g) && Spaced(g.marks) && g.clock <= m.at
    requires Mark(g.seen, m.token, TimeToLive(m.exp, m.at), m.at).first
    ensures Spaced(g.marks + [m])
  {
  }

  lemma MarkingKeepsMemory(g: Guards, m: MarkRecord)
    requires Remembered(g) && g.clock <= m.at
    ensures
      var after := Mark(g.seen, m.token, TimeToLive(m.exp, m.at), m.at);
      Remembered(g.(seen := after.seen, clock := m.at, marks := if after.first then g.marks + [m] else g.marks))
  {
  }

  /** A call of the replay store, with the clock reading and the expiry of `m`. */
  lemma MarkingKeepsMarks(g: Guards, m: MarkRecord)
    requires MarksOk(g) && g.clock <= m.at && m.token.jti in g.tokens && g.tokens[m.token.jti].exp == m.exp
    ensures
      var after := Mark(g.seen, m.token, TimeToLive(m.exp, m.at), m.at);
      MarksOk(g.(seen := after.seen, clock := m.at, marks := if after.first then g.marks + [m] else g.marks))
  {
    MarkingKeepsWitnesses(g, m);
    MarkingKeepsMemory(g, m);
    if Mark(g.seen, m.token, TimeToLive(m.exp, m.at), m.at).first {
      MarkingKeepsSpaces(g, m);
    }
  }

  lemma WaitingKeepsMarks(g: Guards, now: Time)
    requires MarksOk(g) && g.clock <= now
    ensures MarksOk(g.(clock := now))
  {
  }

  lemma IssuingKeepsMarks(g: Guards, jti: string, claims: Claims)
    requires MarksOk(g) && jti !in g.tokens
    ensures MarksOk(g.(tokens := g.tokens[jti := claims]))
  {
  }

  lemma NextMarkKeepsMarks(digest: Digest, s: State, w: Worker, now: Time)
    requires Inv(digest, s) && MarksOk(s.guards) && SessionOf(s, w).Unlogged?
    ensures MarksOk(NextMark(s, w, now).guards)
  {
    var call := SessionOf(s, w).call;
    assert SessionOk(digest, s, SessionOf(s, w));
    if s.guards.clock <= now {
      MarkingKeepsMarks(s.guards, MarkRecord(call.id, TokenOf(call), call.claims.exp, now));
    }
  }

  /** The cache has no part in the marks. */
  ghost predicate SameMarks(g: Guards, h: Guards) {
    h.tokens == g.tokens && h.seen == g.seen && h.marks == g.marks && h.clock == g.clock
  }

  // ----- Whose marks and logs they are

  predicate BeforeMark(me: Session) {
    me.Authenticated? || me.Owning? || me.Unlogged?
  }

  predicate BeforeCommit(me: Session) {
    BeforeMark(me) || me.Marked? || me.Uncached? || me.Judged? || me.Reserved? || me.Losing?
  }

  ghost predicate HasMark(g: Guards, callId: nat, token: TokenId) {
    exists k :: 0 <= k < |g.marks| && g.marks[k].callId == callId && g.marks[k].token == token
  }

  ghost predicate HasLog(db: Database, callId: nat, token: TokenId) {
    exists i :: 0 <= i < |db.logs| && db.logs[i].callId == callId
      && TokenId(db.logs[i].row.tenantId, db.logs[i].jti) == token
  }

  ghost predicate Unmarked(g: Guards, callId: nat) {
    forall k :: 0 <= k < |g.marks| ==> g.marks[k].callId != callId
  }

  ghost predicate Unsaved(db: Database, callId: nat) {
    forall i :: 0 <= i < |db.logs| ==> db.logs[i].callId != callId
  }

  /** A request marks its token once, then commits once. */
  ghost predicate ProgressOk(s: State, me: Session) {
    && (CallOf(me).Some? && !BeforeMark(me) ==> HasMark(s.guards, me.call.id, TokenOf(me.call)))
    && (BeforeMark(me) ==> Unmarked(s.guards, me.call.id))
    && (BeforeCommit(me) ==> Unsaved(s.db, me.call.id))
    && (me.Stored? ==> HasLog(s.db, me.call.id, TokenOf(me.call)))
  }

  ghost predicate SameCall(a: Session, b: Session) {
    CallOf(a).Some? && CallOf(b).Some? && CallOf(a).value.id == CallOf(b).value.id
  }

  ghost predicate CallsDiffer(s: State) {
    forall v, w :: v in s.sessions && w in s.sessions && SameCall(s.sessions[v], s.sessions[w]) ==> v == w
  }

  ghost predicate EntryOk(s: State, i: nat)
    requires i < |s.db.logs|
  {
    var e := s.db.logs[i];
    e.callId < s.nextCall && HasMark(s.guards, e.callId, TokenId(e.row.tenantId, e.jti))
  }

  ghost predicate EntriesOk(s: State) {
    && (forall i :: 0 <= i < |s.db.logs| ==> EntryOk(s, i))
    && (forall i, j :: 0 <= i < j < |s.db.logs| ==> s.db.logs[i].callId != s.db.logs[j].callId)
  }

  ghost predicate MarksOld(s: State) {
    forall k :: 0 <= k < |s.guards.marks| ==> s.guards.marks[k].callId < s.nextCall
  }

  ghost predicate UseOk(s: State) {
    && (forall w :: w in s.sessions ==> ProgressOk(s, s.sessions[w]))
    && CallsDiffer(s) && EntriesOk(s) && MarksOld(s)
  }

  /** Marks and logs are only appended, and only by the call `author`. */
  ghost predicate UsesBy(s: State, t: State, author: Option<nat>) {
    && s.nextCall <= t.nextCall
    && s.guards.marks <= t.guards.marks && s.db.logs <= t.db.logs
    && (forall k :: |s.guards.marks| <= k < |t.guards.marks| ==> Some(t.guards.marks[k].callId) == author)
    && (forall i :: |s.db.logs| <= i < |t.db.logs| ==> Some(t.db.logs[i].callId) == author)
  }

  lemma MarksStay(s: State, t: State, author: Option<nat>, callId: nat, token: TokenId)
    requires UsesBy(s, t, author)
    ensures HasMark(s.guards, callId, token) ==> HasMark(t.guards, callId, token)
    ensures HasLog(s.db, callId, token) ==> HasLog(t.db, callId, token)
  {
    if HasMark(s.guards, callId, token) {
      var k :| 0 <= k < |s.guards.marks| && s.guards.marks[k].callId == callId && s.guards.marks[k].token == token;
      assert t.guards.marks[k] == s.guards.marks[k];
    }
    if HasLog(s.db, callId, token) {
      var i :| 0 <= i < |s.db.logs| && s.db.logs[i].callId == callId
        && TokenId(s.db.logs[i].row.tenantId, s.db.logs[i].jti) == token;
      assert t.db.logs[i] == s.db.logs[i];
    }
  }

  lemma ProgressStaysOk(s: State, t: State, author: Option<nat>, me: Session)
    requires ProgressOk(s, me) && UsesBy(s, t, author) && (CallOf(me).Some? ==> Some(CallOf(me).value.id) != author)
    ensures ProgressOk(t, me)
  {
    if CallOf(me).Some? {
      MarksStay(s, t, author, me.call.id, TokenOf(me.call));
    }
  }

  lemma EntriesStayOk(s: State, t: State, author: Option<nat>)
    requires EntriesOk(s) && UsesBy(s, t, author) && |t.db.logs| <= |s.db.logs| + 1
    requires |t.db.logs| > |s.db.logs| ==> author.Some? && Unsaved(s.db, author.value) && EntryOk(t, |s.db.logs|)
    ensures EntriesOk(t)
  {
    forall i | 0 <= i < |t.db.logs| ensures EntryOk(t, i) {
      if i < |s.db.logs| {
        assert EntryOk(s, i) && t.db.logs[i] == s.db.logs[i];
        var e := s.db.logs[i];
        MarksStay(s, t, author, e.callId, TokenId(e.row.tenantId, e.jti));
      }
    }
  }

  /** A session that goes on with its call, ends it, or has none. */
  ghost predicate GoesOn(before: Session, after: Session) {
    CallOf(after).Some? ==> CallOf(before) == CallOf(after)
  }

  lemma OthersHaveOtherCalls(s: State, v: Worker, w: Worker)
    requires CallsDiffer(s) && v in s.sessions && v != w
    ensures !SameCall(s.sessions[v], SessionOf(s, w))
  {
  }

  lemma CallsStayDifferent(s: State, t: State, w: Worker, me: Session)
    requires CallsDiffer(s) && t.sessions == s.sessions[w := me] && GoesOn(SessionOf(s, w), me)
    ensures CallsDiffer(t)
  {
    forall u, v | u in t.sessions && v in t.sessions && SameCall(t.sessions[u], t.sessions[v]) ensures u == v {
      assert u in s.sessions && v in s.sessions && SameCall(s.sessions[u], s.sessions[v]);
    }
  }

  /** A step of `w` within its call, with at most one mark or log of its own. */
  lemma StepKeepsUse(s: State, t: State, w: Worker, me: Session)
    requires UseOk(s) && t.sessions == s.sessions[w := me] && GoesOn(SessionOf(s, w), me)
    requires
      var author := if CallOf(SessionOf(s, w)).Some? then Some(CallOf(SessionOf(s, w)).value.id) else None;
      && UsesBy(s, t, author) && |t.db.logs| <= |s.db.logs| + 1
      && (|t.db.logs| > |s.db.logs| ==> author.Some? && Unsaved(s.db, author.value) && EntryOk(t, |s.db.logs|))
    requires ProgressOk(t, me) && MarksOld(t)
    ensures UseOk(t)
  {
    var author := if CallOf(SessionOf(s, w)).Some? then Some(CallOf(SessionOf(s, w)).value.id) else None;
    forall v | v in t.sessions ensures ProgressOk(t, t.sessions[v]) {
      if v != w {
        OthersHaveOtherCalls(s, v, w);
        ProgressStaysOk(s, t, author, s.sessions[v]);
      }
    }
    CallsStayDifferent(s, t, w, me);
    EntriesStayOk(s, t, author);
  }

  // ----- Step by step

  lemma NewCallIsUnused(s: State)
    requires EntriesOk(s) && MarksOld(s)
    ensures Unmarked(s.guards, s.nextCall) && Unsaved(s.db, s.nextCall)
  {
    forall i | 0 <= i < |s.db.logs| ensures s.db.logs[i].callId != s.nextCall {
      assert EntryOk(s, i);
    }
  }

  lemma CallsAreOld(digest: Digest, s: State, w: Worker)
    requires Inv(digest, s) && w in s.sessions
    ensures CallOf(s.sessions[w]).Some? ==> CallOf(s.sessions[w]).value.id < s.nextCall
  {
    assert SessionOk(digest, s, s.sessions[w]);
  }

  lemma NewCallDiffers(digest: Digest, s: State, t: State, w: Worker)
    requires Inv(digest, s) && CallsDiffer(s) && w in t.sessions && t.sessions == s.sessions[w := t.sessions[w]]
    requires CallOf(t.sessions[w]).Some? && CallOf(t.sessions[w]).value.id == s.nextCall
    ensures CallsDiffer(t)
  {
    forall u, v | u in t.sessions && v in t.sessions && SameCall(t.sessions[u], t.sessions[v]) ensures u == v {
      if u != w {
        CallsAreOld(digest, s, u);
      }
      if v != w {
        CallsAreOld(digest, s, v);
      }
      if u != w && v != w {
        assert SameCall(s.sessions[u], s.sessions[v]);
      }
    }
  }

  lemma AuthenticateKeepsUse(digest: Digest, s: State, w: Worker, api: Api, now: Time)
    requires Inv(digest, s) && UseOk(s)
    ensures UseOk(NextAuthenticate(s, w, api, now))
  {
    var t := NextAuthenticate(s, w, api, now);
    if t.nextCall > s.nextCall {
      NewCallIsUnused(s);
      forall v | v in t.sessions ensures ProgressOk(t, t.sessions[v]) {
        if v != w {
          ProgressStaysOk(s, t, None, s.sessions[v]);
        }
      }
      NewCallDiffers(digest, s, t, w);
      EntriesStayOk(s, t, None);
    } else if t != s {
      StepKeepsUse(s, t, w, t.sessions[w]);
    }
  }

  lemma MarkKeepsUse(digest: Digest, s: State, w: Worker, now: Time)
    requires Inv(digest, s) && UseOk(s) && SessionOf(s, w).Unlogged?
    ensures UseOk(NextMark(s, w, now))
  {
    var t := NextMark(s, w, now);
    assert SessionOk(digest, s, SessionOf(s, w)) && ProgressOk(s, SessionOf(s, w));
    if t != s {
      var me := t.sessions[w];
      if me.Marked? {
        assert t.guards.marks[|s.guards.marks|].callId == me.call.id;
        assert HasMark(t.guards, me.call.id, TokenOf(me.call));
      }
      StepKeepsUse(s, t, w, me);
    }
  }

  lemma CommitIsLogged(digest: Digest, s: State, w: Worker)
    requires Inv(digest, s) && UseOk(s) && Commits(s, w)
    ensures ProgressOk(NextCommit(s, w), SessionOf(NextCommit(s, w), w))
    ensures |NextCommit(s, w).db.logs| == |s.db.logs| + 1 && EntryOk(NextCommit(s, w), |s.db.logs|)
  {
    var t, me := NextCommit(s, w), SessionOf(s, w);
    assert SessionOk(digest, s, me) && ProgressOk(s, me);
    assert t.db.logs[|s.db.logs|].callId == me.call.id;
    assert HasLog(t.db, me.call.id, TokenOf(me.call));
  }

  lemma CommitUses(s: State, w: Worker)
    requires SessionOf(s, w).Reserved? && MarksOld(s)
    ensures
      var t := NextCommit(s, w);
      && UsesBy(s, t, Some(SessionOf(s, w).call.id)) && MarksOld(t) && GoesOn(SessionOf(s, w), SessionOf(t, w))
      && t.sessions == s.sessions[w := SessionOf(t, w)]
      && |t.db.logs| == |s.db.logs| + if Commits(s, w) then 1 else 0
  {
  }

  lemma LosingIsInProgress(s: State, w: Worker)
    requires SessionOf(s, w).Reserved? && ProgressOk(s, SessionOf(s, w)) && !Commits(s, w)
    ensures ProgressOk(NextCommit(s, w), SessionOf(NextCommit(s, w), w))
  {
  }

  lemma CommitKeepsUse(digest: Digest, s: State, w: Worker)
    requires Inv(digest, s) && UseOk(s) && SessionOf(s, w).Reserved?
    ensures UseOk(NextCommit(s, w))
  {
    var t := NextCommit(s, w);
    assert ProgressOk(s, SessionOf(s, w));
    CommitUses(s, w);
    if Commits(s, w) {
      CommitIsLogged(digest, s, w);
    } else {
      LosingIsInProgress(s, w);
    }
    StepKeepsUse(s, t, w, SessionOf(t, w));
  }

  lemma AdminStepKeepsUse(digest: Digest, s: State, step: Step)
    requires UseOk(s) && IsAdmin(step)
    ensures UseOk(Next(digest, s, step))
  {
    var t := Next(digest, s, step);
    forall w | w in t.sessions ensures ProgressOk(t, t.sessions[w]) {
      ProgressStaysOk(s, t, None, s.sessions[w]);
    }
    EntriesStayOk(s, t, None);
  }

  predicate AnsweredFromCache(me: Session) {
    me.Done? && me.reply.FromCache?
  }

  /** The cache loses entries, or gains the one of a stored request. */
  ghost predicate OnlyRemembers(before: map<CacheKey, Cached>, after: map<CacheKey, Cached>, me: Session) {
    forall key :: key in after ==> key in before || (me.Stored? && key == CacheKeyOf(me.call, me.right))
  }

  /** A step between a request's mark and its commit, before its mark, or at its end. */
  ghost predicate Moved(s: State, t: State, w: Worker) {
    var before, after := SessionOf(s, w), SessionOf(t, w);
    && t.sessions == s.sessions[w := after] && GoesOn(before, after) && !after.Stored?
    && t.db.logs == s.db.logs && SameMarks(s.guards, t.guards) && t.nextCall == s.nextCall
    && OnlyRemembers(s.guards.cache, t.guards.cache, before)
    && (AnsweredFromCache(after) ==>
          && before.Marked? && CacheKeyOf(before.call, before.right) in s.guards.cache
          && after.reply.token == TokenOf(before.call))
    && (BeforeMark(after) ==> BeforeMark(before))
    && (BeforeCommit(after) ==> BeforeCommit(before))
    && (CallOf(after).Some? && !BeforeMark(after) ==> !BeforeMark(before))
  }

  lemma MovingKeepsUse(s: State, t: State, w: Worker)
    requires UseOk(s) && Moved(s, t, w)
    ensures UseOk(t)
  {
    if CallOf(SessionOf(t, w)).Some? {
      assert ProgressOk(s, SessionOf(s, w));
    }
    StepKeepsUse(s, t, w, SessionOf(t, w));
  }

  lemma ReadingMoves(s: State, w: Worker)
    requires SessionOf(s, w).Authenticated?
    ensures Moved(s, NextReadRight(s, w), w)
  {
  }

  lemma LookingMoves(digest: Digest, s: State, w: Worker)
    requires SessionOf(s, w).Owning?
    ensures Moved(s, NextLookup(digest, s, w), w)
  {
  }

  lemma FindingMoves(digest: Digest, s: State, w: Worker)
    requires SessionOf(s, w).Losing?
    ensures Moved(s, NextFindWinner(digest, s, w), w)
  {
  }

  lemma ConsultingMoves(s: State, w: Worker, now: Time)
    requires SessionOf(s, w).Marked?
    ensures Moved(s, NextConsult(s, w, now), w)
  {
  }

  lemma DecidingMoves(s: State, w: Worker, me: Session)
    requires SessionOf(s, w).Uncached? && me.Judged? && me.call == SessionOf(s, w).call
    ensures Moved(s, SetSession(s, w, me), w)
  {
  }

  lemma ReservingMoves(s: State, w: Worker)
    requires SessionOf(s, w).Judged?
    ensures NextReserve(s, w) == s || Moved(s, NextReserve(s, w), w)
  {
  }

  lemma RememberingMoves(s: State, w: Worker, now: Time, lifetime: Time)
    requires SessionOf(s, w).Stored?
    ensures Moved(s, NextRemember(s, w, now, lifetime), w)
  {
  }

  lemma RevokingMoves(s: State, w: Worker, key: RightKey)
    ensures NextReadForRevoke(s, w, key) == s || Moved(s, NextReadForRevoke(s, w, key), w)
    ensures SessionOf(s, w).Revoking? ==> Moved(s, NextCommitRevoke(s, w), w)
  {
  }

  lemma EndingMoves(s: State, w: Worker)
    ensures Moved(s, SetSession(s, w, Idle), w) && Moved(s, Refuse(s, w, Unavailable), w)
  {
  }

  /** A step of a request or a revocation that neither marks nor logs. */
  predicate OnlyMoves(step: Step) {
    !IsAdmin(step) && !step.Authenticate? && !step.MarkToken? && !step.Commit?
  }

  lemma EarlyMoves(digest: Digest, s: State, step: Step)
    requires OnlyMoves(step) && IsEarly(step)
    ensures Next(digest, s, step) == s || Moved(s, Next(digest, s, step), step.worker)
  {
    match step
    case ReadRight(w) => if SessionOf(s, w).Authenticated? { ReadingMoves(s, w); }
    case Lookup(w) => if SessionOf(s, w).Owning? { LookingMoves(digest, s, w); }
    case ConsultCache(w, now) => if SessionOf(s, w).Marked? { ConsultingMoves(s, w, now); }
    case DecideRequest(w, basis) =>
      if SessionOf(s, w).Uncached? {
        DecidingMoves(s, w, Judge(digest, SessionOf(s, w).call, SessionOf(s, w).right, basis));
      }
  }

  lemma LateMoves(digest: Digest, s: State, step: Step)
    requires OnlyMoves(step) && !IsEarly(step)
    ensures Next(digest, s, step) == s || Moved(s, Next(digest, s, step), step.worker)
  {
    match step
    case Reserve(w) => if SessionOf(s, w).Judged? { ReservingMoves(s, w); }
    case Remember(w, now, lifetime) => if SessionOf(s, w).Stored? { RememberingMoves(s, w, now, lifetime); }
    case FindWinner(w) => if SessionOf(s, w).Losing? { FindingMoves(digest, s, w); }
    case ReadForRevoke(w, key) => RevokingMoves(s, w, key);
    case CommitRevoke(w) => if SessionOf(s, w).Revoking? { RevokingMoves(s, w, SessionOf(s, w).key); }
    case Fail(w) => EndingMoves(s, w);
    case Crash(w) => EndingMoves(s, w);
  }

  /** Such a step moves its session on, and only it. */
  lemma NextMoves(digest: Digest, s: State, step: Step)
    requires OnlyMoves(step)
    ensures Next(digest, s, step) == s || Moved(s, Next(digest, s, step), step.worker)
  {
    if IsEarly(step) {
      EarlyMoves(digest, s, step);
    } else {
      LateMoves(digest, s, step);
    }
  }

  lemma WritingKeepsUse(digest: Digest, s: State, step: Step)
    requires Inv(digest, s) && UseOk(s) && (step.Authenticate? || step.MarkToken? || step.Commit?)
    ensures UseOk(Next(digest, s, step))
  {
    match step
    case Authenticate(w, api, now) => AuthenticateKeepsUse(digest, s, w, api, now);
    case MarkToken(w, now) => if SessionOf(s, w).Unlogged? { MarkKeepsUse(digest, s, w, now); }
    case Commit(w) => if SessionOf(s, w).Reserved? { CommitKeepsUse(digest, s, w); }
  }

  lemma NextKeepsUse(digest: Digest, s: State, step: Step)
    requires Inv(digest, s) && UseOk(s)
    ensures UseOk(Next(digest, s, step))
  {
    if OnlyMoves(step) {
      NextMoves(digest, s, step);
      if Next(digest, s, step) != s {
        MovingKeepsUse(s, Next(digest, s, step), step.worker);
      }
    } else if IsAdmin(step) {
      AdminStepKeepsUse(digest, s, step);
    } else {
      WritingKeepsUse(digest, s, step);
    }
  }

  lemma {:induction false} RunKeepsUse(digest: Digest, run: seq<Step>)
    ensures UseOk(Run(digest, run))
  {
    if run != [] {
      RunKeepsUse(digest, run[..|run| - 1]);
      RunKeepsInv(digest, run[..|run| - 1]);
      NextKeepsUse(digest, Run(digest, run[..|run| - 1]), run[|run| - 1]);
    }
  }

  lemma CommitLeavesMarks(s: State, w: Worker)
    requires SessionOf(s, w).Reserved?
    ensures NextCommit(s, w).guards == s.guards
  {
  }

  lemma OwnStepKeepsMarks(digest: Digest, s: State, step: Step)
    requires Inv(digest, s) && MarksOk(s.guards) && !OnlyMoves(step)
    ensures MarksOk(Next(digest, s, step).guards)
  {
    match step
    case Authenticate(w, api, now) => if s.guards.clock <= now { WaitingKeepsMarks(s.guards, now); }
    case MarkToken(w, now) => if SessionOf(s, w).Unlogged? { NextMarkKeepsMarks(digest, s, w, now); }
    case IssueToken(jti, claims) => if jti !in s.guards.tokens { IssuingKeepsMarks(s.guards, jti, claims); }
    case Commit(w) => if SessionOf(s, w).Reserved? { CommitLeavesMarks(s, w); }
    case CreateTenant(_, _) =>
    case SetDevice(_, _) =>
    case CreateRight(_, _, _) =>
  }

  lemma NextKeepsMarks(digest: Digest, s: State, step: Step)
    requires Inv(digest, s) && MarksOk(s.guards)
    ensures MarksOk(Next(digest, s, step).guards)
  {
    if OnlyMoves(step) {
      NextMoves(digest, s, step);
    } else {
      OwnStepKeepsMarks(digest, s, step);
    }
  }

  lemma {:induction false} RunKeepsMarks(digest: Digest, run: seq<Step>)
    ensures MarksOk(Run(digest, run).guards)
  {
    if run != [] {
      RunKeepsMarks(digest, run[..|run| - 1]);
      RunKeepsInv(digest, run[..|run| - 1]);
      NextKeepsMarks(digest, Run(digest, run[..|run| - 1]), run[|run| - 1]);
    }
  }

  // ----- Steps of other workers

  predicate StepOf(step: Step, w: Worker) {
    !IsAdmin(step) && step.worker == w
  }

  /** At most the session of `v` is another. */
  ghost predicate OnlySessionOf(s: State, t: State, v: Worker) {
    t == s || t.sessions == s.sessions[v := SessionOf(t, v)]
  }

  lemma AuthenticateIsOwn(s: State, v: Worker, api: Api, now: Time)
    ensures OnlySessionOf(s, NextAuthenticate(s, v, api, now), v)
  {
  }

  lemma MarkIsOwn(s: State, v: Worker, now: Time)
    requires SessionOf(s, v).Unlogged?
    ensures OnlySessionOf(s, NextMark(s, v, now), v)
  {
  }

  lemma CommitIsOwn(s: State, v: Worker)
    requires SessionOf(s, v).Reserved?
    ensures OnlySessionOf(s, NextCommit(s, v), v)
  {
  }

  lemma StepsAreOwn(digest: Digest, s: State, step: Step)
    requires !IsAdmin(step)
    ensures OnlySessionOf(s, Next(digest, s, step), step.worker)
  {
    match step
    case Authenticate(v, api, now) => AuthenticateIsOwn(s, v, api, now);
    case MarkToken(v, now) => if SessionOf(s, v).Unlogged? { MarkIsOwn(s, v, now); }
    case Commit(v) => if SessionOf(s, v).Reserved? { CommitIsOwn(s, v); }
    case _ => NextMoves(digest, s, step);
  }

  lemma OthersKeepOut(digest: Digest, s: State, step: Step, w: Worker)
    requires !StepOf(step, w)
    ensures SessionOf(Next(digest, s, step), w) == SessionOf(s, w)
  {
    if !IsAdmin(step) {
      StepsAreOwn(digest, s, step);
    }
  }
}
