/** What every interleaving of outbox workers keeps. */
module OutboxSafety {
  import opened Prelude
  import opened OutboxProtocol

  /** The number of attempts after which an event cannot be pending. */
  function Cap(maxAttempts: int): (m: nat)
    ensures m >= 1 && m >= maxAttempts
  {
    Max(1, maxAttempts)
  }

  ghost predicate EventOk(maxAttempts: int, e: Event, nextToken: Token) {
    && !(e.delivered && e.deadLettered)
    && (Terminal(e) ==> e.claimedBy.None? && e.claimExpiresAt.None?)
    && e.attempts <= Cap(maxAttempts)
    && (!Terminal(e) ==> e.attempts < Cap(maxAttempts))
    && (e.claimedBy.Some? ==> e.claimedBy.value < nextToken)
  }

  ghost predicate EventsOk(maxAttempts: int, s: State) {
    forall e :: 0 <= e < |s.events| ==> EventOk(maxAttempts, s.events[e], s.nextToken)
  }

  ghost predicate RowOk(events: seq<Event>, row: Attempt) {
    row.event < |events| && 1 <= row.number <= events[row.event].attempts
  }

  ghost predicate RowsOk(s: State) {
    forall i :: 0 <= i < |s.attempts| ==> RowOk(s.events, s.attempts[i])
  }

  /** Two rows that the unique index, or the at-most-one-success guarantee, would reject. */
  predicate Clash(a: Attempt, b: Attempt) {
    a.event == b.event && a.subscription == b.subscription && (a.number == b.number || (a.successful && b.successful))
  }

  ghost predicate NoClash(rows: seq<Attempt>) {
    forall i, j :: 0 <= i < j < |rows| ==> !Clash(rows[i], rows[j])
  }

  ghost predicate TokensOk(s: State) {
    && (forall w :: w in s.sessions && !s.sessions[w].Idle? ==> s.sessions[w].token < s.nextToken)
    && (forall v, w | v in s.sessions && w in s.sessions && v != w && !s.sessions[v].Idle? && !s.sessions[w].Idle? ::
          s.sessions[v].token != s.sessions[w].token)
  }

  /** The shape of a delivery pass, whether or not its claim still stands. */
  ghost predicate PassOk(me: Session)
    requires me.Sending?
  {
    && me.next <= |me.subs|
    && (forall i, j :: 0 <= i < j < |me.subs| ==> me.subs[i] < me.subs[j])
    && (forall i :: 0 <= i < |me.pending| ==>
          me.pending[i].event == me.event && me.pending[i].number == me.row.attempts + 1)
    && (forall i, j :: 0 <= i < j < |me.pending| ==> me.pending[i].subscription < me.pending[j].subscription)
    && (forall i, k :: 0 <= i < |me.pending| && me.next <= k < |me.subs| ==> me.pending[i].subscription < me.subs[k])
    && (me.subs == [] ==> me.pending == [])
  }

  /** While its claim stands, a pass works on the committed row and repeats no success. */
  ghost predicate HolderOk(s: State, me: Session)
    requires me.Sending?
  {
    me.event < |s.events| && s.events[me.event].claimedBy == Some(me.token) ==>
      && s.events[me.event] == me.row
      && (forall i :: 0 <= i < |me.pending| && me.pending[i].successful ==>
            !HasSuccess(s.attempts, me.event, me.pending[i].subscription))
      && (me.phase != Check && me.next < |me.subs| ==> !HasSuccess(s.attempts, me.event, me.subs[me.next]))
  }

  ghost predicate SessionsOk(s: State) {
    forall w :: w in s.sessions && s.sessions[w].Sending? ==>
      PassOk(s.sessions[w]) && s.sessions[w].event < |s.events| && HolderOk(s, s.sessions[w])
  }

  ghost predicate Inv(maxAttempts: int, s: State) {
    EventsOk(maxAttempts, s) && RowsOk(s) && NoClash(s.attempts) && TokensOk(s) && SessionsOk(s)
  }

  lemma ClaimKeepsEvents(max: int, s: State, w: Worker, event: nat, now: Time, lease: Time)
    requires EventsOk(max, s) && RowsOk(s)
    ensures EventsOk(max, NextClaim(s, w, event, now, lease)) && RowsOk(NextClaim(s, w, event, now, lease))
  {
  }

  lemma ClaimKeepsTokens(s: State, w: Worker, event: nat, now: Time, lease: Time)
    requires TokensOk(s) && SessionOf(s, w).Idle?
    ensures TokensOk(NextClaim(s, w, event, now, lease))
  {
  }

  /** The claimed event's row goes to a token that no pass has. */
  lemma ClaimKeepsSessions(max: int, s: State, w: Worker, event: nat, now: Time, lease: Time)
    requires SessionsOk(s) && TokensOk(s) && SessionOf(s, w).Idle?
    ensures SessionsOk(NextClaim(s, w, event, now, lease))
  {
    var t := NextClaim(s, w, event, now, lease);
    forall v | v in t.sessions && t.sessions[v].Sending?
      ensures PassOk(t.sessions[v]) && t.sessions[v].event < |t.events| && HolderOk(t, t.sessions[v])
    {
      assert v in s.sessions && t.sessions[v] == s.sessions[v] && HolderOk(s, s.sessions[v]);
    }
  }

  lemma ClaimKeepsInv(max: int, s: State, w: Worker, event: nat, now: Time, lease: Time)
    requires Inv(max, s) && SessionOf(s, w).Idle?
    ensures Inv(max, NextClaim(s, w, event, now, lease))
  {
    ClaimKeepsEvents(max, s, w, event, now, lease);
    ClaimKeepsTokens(s, w, event, now, lease);
    ClaimKeepsSessions(max, s, w, event, now, lease);
  }

  /** A worker may go idle, or keep its token and put its memory in another good shape. */
  lemma SetSessionKeepsInv(max: int, s: State, w: Worker, me: Session)
    requires Inv(max, s)
    requires me.Idle? || (!SessionOf(s, w).Idle? && me.token == SessionOf(s, w).token)
    requires me.Sending? ==> PassOk(me) && me.event < |s.events| && HolderOk(s, me)
    ensures Inv(max, SetSession(s, w, me))
  {
  }

  lemma LoadKeepsInv(max: int, s: State, w: Worker)
    requires Inv(max, s) && SessionOf(s, w).Claimed?
    ensures Inv(max, NextLoad(s, w, SessionOf(s, w).event, SessionOf(s, w).token))
  {
    var t := NextLoad(s, w, SessionOf(s, w).event, SessionOf(s, w).token);
    assert t == SetSession(s, w, SessionOf(t, w));
    SetSessionKeepsInv(max, s, w, SessionOf(t, w));
  }

  lemma ReleaseKeepsInv(max: int, s: State, w: Worker)
    requires Inv(max, s) && SessionOf(s, w).Releasing?
    ensures Inv(max, NextRelease(s, w, SessionOf(s, w).event, SessionOf(s, w).token))
  {
  }

  lemma PostKeepsInv(max: int, s: State, w: Worker, outcome: Outcome)
    requires Inv(max, s)
    ensures Inv(max, Next(max, s, Post(w, outcome)))
  {
    var me := SessionOf(s, w);
    if me.Sending? && me.next < |me.subs| && me.phase == Phase.Send {
      SetSessionKeepsInv(max, s, w, AfterPost(me, outcome));
    }
  }

  lemma CheckKeepsInv(max: int, s: State, w: Worker)
    requires Inv(max, s)
    ensures Inv(max, Next(max, s, CheckDelivered(w)))
  {
    var me := SessionOf(s, w);
    if me.Sending? && me.next < |me.subs| && me.phase == Check {
      if HasSuccess(s.attempts, me.event, me.subs[me.next]) {
        SetSessionKeepsInv(max, s, w, Advance(me));
      } else {
        SetSessionKeepsInv(max, s, w, me.(phase := Recheck));
      }
    }
  }

  lemma RecheckKeepsInv(max: int, s: State, w: Worker)
    requires Inv(max, s)
    ensures Inv(max, Next(max, s, CheckEnabled(w)))
  {
    var me := SessionOf(s, w);
    if me.Sending? && me.next < |me.subs| && me.phase == Recheck {
      SetSessionKeepsInv(max, s, w, Advance(me));
      SetSessionKeepsInv(max, s, w, me.(phase := Phase.Send));
    }
  }

  /** The rows a fenced commit adds are new to the unique index and repeat no success. */
  lemma FinishKeepsRows(max: int, s: State, w: Worker, now: Time, stamp: Time)
    requires Inv(max, s) && Passes(s, w, now)
    ensures
      var t := NextFinish(max, s, w, now, stamp);
      RowsOk(t) && NoClash(t.attempts)
  {
    var me := SessionOf(s, w);
    forall i, j | 0 <= i < |s.attempts| && 0 <= j < |me.pending|
      ensures !Clash(s.attempts[i], me.pending[j])
    {
      assert RowOk(s.events, s.attempts[i]);
    }
  }

  /** Rows of one event do not bear on another. */
  lemma SuccessElsewhere(rows: seq<Attempt>, more: seq<Attempt>, event: nat, other: nat)
    requires event != other && forall i :: 0 <= i < |more| ==> more[i].event == other
    ensures forall sub :: HasSuccess(rows + more, event, sub) == HasSuccess(rows, event, sub)
  {
    forall sub ensures HasSuccess(rows + more, event, sub) == HasSuccess(rows, event, sub) {
      if HasSuccess(rows, event, sub) {
        var i :| 0 <= i < |rows| && rows[i].event == event && rows[i].subscription == sub && rows[i].successful;
        assert (rows + more)[i] == rows[i];
      }
    }
  }

  lemma FinishKeepsSessions(max: int, s: State, w: Worker, now: Time, stamp: Time)
    requires Inv(max, s) && Passes(s, w, now)
    ensures SessionsOk(NextFinish(max, s, w, now, stamp))
  {
    var me := SessionOf(s, w);
    var t := NextFinish(max, s, w, now, stamp);
    forall v | v in t.sessions && t.sessions[v].Sending?
      ensures PassOk(t.sessions[v]) && t.sessions[v].event < |t.events| && HolderOk(t, t.sessions[v])
    {
      var other := s.sessions[v];
      if other.event != me.event {
        SuccessElsewhere(s.attempts, me.pending, other.event, me.event);
      }
    }
  }

  lemma FinishKeepsInv(max: int, s: State, w: Worker, now: Time, stamp: Time)
    requires Inv(max, s) && AtFence(SessionOf(s, w))
    ensures Inv(max, NextFinish(max, s, w, now, stamp))
  {
    if Passes(s, w, now) {
      FinishKeepsRows(max, s, w, now, stamp);
      FinishKeepsSessions(max, s, w, now, stamp);
    } else {
      SetSessionKeepsInv(max, s, w, Idle);
    }
  }

  lemma NextKeepsInv(max: int, s: State, step: Step)
    requires Inv(max, s)
    ensures Inv(max, Next(max, s, step))
  {
    match step
    case Emit(tenant, eventType, json, at) =>
    case Subscribe(sub) =>
    case Disable(id) =>
    case Claim(w, event, now, lease) =>
      if SessionOf(s, w).Idle? { ClaimKeepsInv(max, s, w, event, now, lease); }
    case Load(w) =>
      if SessionOf(s, w).Claimed? { LoadKeepsInv(max, s, w); }
    case CheckDelivered(w) => CheckKeepsInv(max, s, w);
    case CheckEnabled(w) => RecheckKeepsInv(max, s, w);
    case Post(w, outcome) => PostKeepsInv(max, s, w, outcome);
    case Finish(w, now, stamp) =>
      if AtFence(SessionOf(s, w)) { FinishKeepsInv(max, s, w, now, stamp); }
    case CommitFails(w) =>
      var me := SessionOf(s, w);
      if me.Sending? { SetSessionKeepsInv(max, s, w, Releasing(me.event, me.token)); }
    case Release(w) =>
      if SessionOf(s, w).Releasing? { ReleaseKeepsInv(max, s, w); }
    case Crash(w) => SetSessionKeepsInv(max, s, w, Idle);
  }

  lemma {:induction false} RunKeepsInv(max: int, s: State, run: seq<Step>)
    requires Inv(max, s)
    ensures Inv(max, Run(max, s, run))
  {
    if run != [] {
      RunKeepsInv(max, s, run[..|run| - 1]);
      NextKeepsInv(max, Run(max, s, run[..|run| - 1]), run[|run| - 1]);
    }
  }
}
