/** Each token yields at most one committed log, and the decision cache never answers, if marks are made in time. */
module AccessSingleUse {
  import opened Prelude
  import opened ReplayProtection
  import opened AccessProtocol
  import opened AccessSafety
  import opened AccessTokens

  ghost predicate StillMarked(marks: seq<MarkRecord>, token: TokenId, now: Time) {
    exists k :: 0 <= k < |marks| && marks[k].token == token && EndOf(marks[k]) > now
  }

  /** A mark is refused exactly while an earlier mark of the token has not run out. */
  lemma RefusedExactlyWhen(g: Guards, token: TokenId, exp: int, now: Time)
    requires MarksOk(g) && g.clock <= now
    ensures !Mark(g.seen, token, TimeToLive(exp, now), now).first <==> StillMarked(g.marks, token, now)
  {
    if token in g.seen && g.seen[token] > now {
      assert HasEnd(g.marks, token, g.seen[token]);
    }
  }

  /** In every run: a request is told `replay_detected` exactly when its token's mark is still running. */
  lemma ReplaysAreDetected(digest: Digest, run: seq<Step>, w: Worker, now: Time)
    requires SessionOf(Run(digest, run), w).Unlogged? && SessionOf(Run(digest, run), w).call.quotaLeft
    requires Run(digest, run).guards.clock <= now
    ensures
      var s := Run(digest, run);
      SessionOf(NextMark(s, w, now), w) == Done(Refused(ReplayDetected))
      <==> StillMarked(s.guards.marks, TokenOf(SessionOf(s, w).call), now)
  {
    var s := Run(digest, run);
    RunKeepsMarks(digest, run);
    RefusedExactlyWhen(s.guards, TokenOf(SessionOf(s, w).call), SessionOf(s, w).call.claims.exp, now);
  }

  /** Every request that marked this token did so before the token expired. */
  ghost predicate OnTime(marks: seq<MarkRecord>, token: TokenId) {
    forall k :: 0 <= k < |marks| && marks[k].token == token ==> marks[k].at < marks[k].exp as real
  }

  /** A mark made in time outlives the token (section 4.1.4 of RFC 7519), so there is no second one. */
  lemma MarksAreUnique(g: Guards, i: nat, j: nat)
    requires MarksOk(g) && i < j < |g.marks| && OnTime(g.marks, g.marks[j].token)
    ensures g.marks[i].token != g.marks[j].token
  {
    assert g.marks[i].at < g.marks[i].exp as real ==> EndOf(g.marks[i]) >= g.marks[i].exp as real;
  }

  lemma SameTokenSameMark(g: Guards, i: nat, j: nat)
    requires MarksOk(g) && i < |g.marks| && j < |g.marks| && g.marks[i].token == g.marks[j].token
    requires OnTime(g.marks, g.marks[i].token)
    ensures i == j
  {
    if i < j {
      MarksAreUnique(g, i, j);
    }
    if j < i {
      MarksAreUnique(g, j, i);
    }
  }

  function TokenOfLog(e: Entry): TokenId { TokenId(e.row.tenantId, e.jti) }

  lemma LogsHaveOwnTokens(s: State, i: nat, j: nat)
    requires UseOk(s) && MarksOk(s.guards) && i < j < |s.db.logs|
    requires OnTime(s.guards.marks, TokenOfLog(s.db.logs[j]))
    ensures TokenOfLog(s.db.logs[i]) != TokenOfLog(s.db.logs[j])
  {
    var a, b := s.db.logs[i], s.db.logs[j];
    assert EntryOk(s, i) && EntryOk(s, j);
    var k :| 0 <= k < |s.guards.marks| && s.guards.marks[k].callId == a.callId
      && s.guards.marks[k].token == TokenOfLog(a);
    var l :| 0 <= l < |s.guards.marks| && s.guards.marks[l].callId == b.callId
      && s.guards.marks[l].token == TokenOfLog(b);
    if TokenOfLog(a) == TokenOfLog(b) {
      SameTokenSameMark(s.guards, k, l);
    }
  }

  /** Single use: a token whose marks were all made before it expired has at most one committed log. */
  lemma TokensAreSingleUse(digest: Digest, run: seq<Step>, i: nat, j: nat)
    requires i < j < |Run(digest, run).db.logs|
    requires OnTime(Run(digest, run).guards.marks, TokenOfLog(Run(digest, run).db.logs[j]))
    ensures TokenOfLog(Run(digest, run).db.logs[i]) != TokenOfLog(Run(digest, run).db.logs[j])
  {
    RunKeepsUse(digest, run);
    RunKeepsMarks(digest, run);
    LogsHaveOwnTokens(Run(digest, run), i, j);
  }

  // ----- The decision cache

  ghost predicate IsLogged(db: Database, key: CacheKey) {
    exists i :: 0 <= i < |db.logs| && db.logs[i].row.tenantId == key.tenantId && db.logs[i].jti == key.token
  }

  /** What is cached has been logged. */
  ghost predicate CacheOk(s: State) {
    forall key :: key in s.guards.cache ==> IsLogged(s.db, key)
  }

  lemma LoggedStays(s: Database, t: Database, key: CacheKey)
    requires IsLogged(s, key) && s.logs <= t.logs
    ensures IsLogged(t, key)
  {
    var i :| 0 <= i < |s.logs| && s.logs[i].row.tenantId == key.tenantId && s.logs[i].jti == key.token;
    assert t.logs[i] == s.logs[i];
  }

  lemma StoredIsLogged(digest: Digest, s: State, w: Worker)
    requires Inv(digest, s) && UseOk(s) && SessionOf(s, w).Stored?
    ensures IsLogged(s.db, CacheKeyOf(SessionOf(s, w).call, SessionOf(s, w).right))
  {
    var me := SessionOf(s, w);
    assert SessionOk(digest, s, me) && ProgressOk(s, me);
    var i :| 0 <= i < |s.db.logs| && s.db.logs[i].callId == me.call.id
      && TokenId(s.db.logs[i].row.tenantId, s.db.logs[i].jti) == TokenOf(me.call);
    assert s.db.logs[i].row.tenantId == me.call.api.tenantId;
  }

  lemma MovingKeepsCache(digest: Digest, s: State, t: State, w: Worker)
    requires Inv(digest, s) && UseOk(s) && CacheOk(s) && Moved(s, t, w)
    ensures CacheOk(t)
  {
    if SessionOf(s, w).Stored? {
      StoredIsLogged(digest, s, w);
    }
    forall key | key in t.guards.cache ensures IsLogged(t.db, key) {
      assert IsLogged(s.db, key);
      LoggedStays(s.db, t.db, key);
    }
  }

  /** The others leave the cache alone, and no session they touch has an answer from it. */
  ghost predicate LeavesCache(s: State, t: State) {
    && t.guards.cache == s.guards.cache && s.db.logs <= t.db.logs
    && (forall w :: w in t.sessions && AnsweredFromCache(t.sessions[w]) ==>
          w in s.sessions && s.sessions[w] == t.sessions[w])
  }

  lemma AuthenticateLeavesCache(s: State, w: Worker, api: Api, now: Time)
    ensures LeavesCache(s, NextAuthenticate(s, w, api, now))
  {
  }

  lemma MarkLeavesCache(s: State, w: Worker, now: Time)
    requires SessionOf(s, w).Unlogged?
    ensures LeavesCache(s, NextMark(s, w, now))
  {
  }

  lemma CommitLeavesCache(s: State, w: Worker)
    requires SessionOf(s, w).Reserved?
    ensures LeavesCache(s, NextCommit(s, w))
  {
  }

  lemma AdminLeavesCache(digest: Digest, s: State, step: Step)
    requires IsAdmin(step)
    ensures LeavesCache(s, Next(digest, s, step))
  {
  }

  lemma NextLeavesCache(digest: Digest, s: State, step: Step)
    requires !OnlyMoves(step)
    ensures LeavesCache(s, Next(digest, s, step))
  {
    if IsAdmin(step) {
      AdminLeavesCache(digest, s, step);
      return;
    }
    match step
    case Authenticate(w, api, now) => AuthenticateLeavesCache(s, w, api, now);
    case MarkToken(w, now) => if SessionOf(s, w).Unlogged? { MarkLeavesCache(s, w, now); }
    case Commit(w) => if SessionOf(s, w).Reserved? { CommitLeavesCache(s, w); }
  }

  lemma NextKeepsCache(digest: Digest, s: State, step: Step)
    requires Inv(digest, s) && UseOk(s) && CacheOk(s)
    ensures CacheOk(Next(digest, s, step))
  {
    var t := Next(digest, s, step);
    if OnlyMoves(step) {
      NextMoves(digest, s, step);
      if t != s {
        MovingKeepsCache(digest, s, t, step.worker);
      }
    } else {
      NextLeavesCache(digest, s, step);
      forall key | key in t.guards.cache ensures IsLogged(t.db, key) {
        LoggedStays(s.db, t.db, key);
      }
    }
  }

  lemma LoggedIsMarked(s: State, key: CacheKey) returns (k: nat)
    requires UseOk(s) && IsLogged(s.db, key)
    ensures k < |s.guards.marks| && s.guards.marks[k].token == TokenId(key.tenantId, key.token)
    ensures !Unsaved(s.db, s.guards.marks[k].callId)
  {
    var i :| 0 <= i < |s.db.logs| && s.db.logs[i].row.tenantId == key.tenantId && s.db.logs[i].jti == key.token;
    assert EntryOk(s, i);
    k :| 0 <= k < |s.guards.marks| && s.guards.marks[k].callId == s.db.logs[i].callId
      && s.guards.marks[k].token == TokenId(key.tenantId, key.token);
  }

  /**
    A request that consults the cache has marked its token, and a cached answer would have needed a mark of its
    own.
   */
  lemma CacheMisses(digest: Digest, s: State, w: Worker)
    requires Inv(digest, s) && UseOk(s) && CacheOk(s) && MarksOk(s.guards) && SessionOf(s, w).Marked?
    requires OnTime(s.guards.marks, TokenOf(SessionOf(s, w).call))
    ensures CacheKeyOf(SessionOf(s, w).call, SessionOf(s, w).right) !in s.guards.cache
  {
    var me := SessionOf(s, w);
    var key := CacheKeyOf(me.call, me.right);
    if key in s.guards.cache {
      assert SessionOk(digest, s, me) && ProgressOk(s, me);
      var k := LoggedIsMarked(s, key);
      var l :| 0 <= l < |s.guards.marks| && s.guards.marks[l].callId == me.call.id
        && s.guards.marks[l].token == TokenOf(me.call);
      SameTokenSameMark(s.guards, k, l);
    }
  }

  /** Whoever has been answered from the cache had a token that was marked too late. */
  ghost predicate CacheSilent(s: State) {
    forall w :: w in s.sessions && AnsweredFromCache(s.sessions[w]) ==>
      !OnTime(s.guards.marks, s.sessions[w].reply.token)
  }

  lemma MarksStayLate(marks: seq<MarkRecord>, more: seq<MarkRecord>, token: TokenId)
    requires marks <= more && OnTime(more, token)
    ensures OnTime(marks, token)
  {
    assert forall k :: 0 <= k < |marks| ==> marks[k] == more[k];
  }

  lemma MarksOnlyGrow(digest: Digest, s: State, step: Step)
    ensures s.guards.marks <= Next(digest, s, step).guards.marks
  {
    if OnlyMoves(step) {
      NextMoves(digest, s, step);
    }
  }

  lemma AnswersAreLate(digest: Digest, s: State, step: Step, w: Worker)
    requires Inv(digest, s) && UseOk(s) && CacheOk(s) && MarksOk(s.guards) && CacheSilent(s)
    requires w in Next(digest, s, step).sessions && AnsweredFromCache(Next(digest, s, step).sessions[w])
    ensures !OnTime(s.guards.marks, Next(digest, s, step).sessions[w].reply.token)
  {
    var t := Next(digest, s, step);
    if OnlyMoves(step) {
      NextMoves(digest, s, step);
      if w == step.worker && t != s {
        if OnTime(s.guards.marks, t.sessions[w].reply.token) {
          CacheMisses(digest, s, w);
        }
      }
    } else {
      NextLeavesCache(digest, s, step);
    }
  }

  lemma NextKeepsSilence(digest: Digest, s: State, step: Step)
    requires Inv(digest, s) && UseOk(s) && CacheOk(s) && MarksOk(s.guards) && CacheSilent(s)
    ensures CacheSilent(Next(digest, s, step))
  {
    var t := Next(digest, s, step);
    MarksOnlyGrow(digest, s, step);
    forall w | w in t.sessions && AnsweredFromCache(t.sessions[w])
      ensures !OnTime(t.guards.marks, t.sessions[w].reply.token)
    {
      AnswersAreLate(digest, s, step, w);
      if OnTime(t.guards.marks, t.sessions[w].reply.token) {
        MarksStayLate(s.guards.marks, t.guards.marks, t.sessions[w].reply.token);
      }
    }
  }

  lemma {:induction false} RunKeepsCache(digest: Digest, run: seq<Step>)
    ensures CacheOk(Run(digest, run))
  {
    if run != [] {
      RunKeepsCache(digest, run[..|run| - 1]);
      RunKeepsInv(digest, run[..|run| - 1]);
      RunKeepsUse(digest, run[..|run| - 1]);
      NextKeepsCache(digest, Run(digest, run[..|run| - 1]), run[|run| - 1]);
    }
  }

  /**
    The decision cache is consulted only after the mark, so it answers no request whose token's marks were
    all made before the token expired.
   */
  lemma {:induction false} CacheNeverAnswers(digest: Digest, run: seq<Step>)
    ensures CacheSilent(Run(digest, run))
  {
    if run != [] {
      var before, step := run[..|run| - 1], run[|run| - 1];
      CacheNeverAnswers(digest, before);
      RunKeepsInv(digest, before);
      RunKeepsUse(digest, before);
      RunKeepsMarks(digest, before);
      RunKeepsCache(digest, before);
      NextKeepsSilence(digest, Run(digest, before), step);
    }
  }
}
