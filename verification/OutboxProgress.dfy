/** What the steps of the outbox do to its columns, and that due events are delivered. */
module OutboxProgress {
  import opened Prelude
  import opened OutboxProtocol
  import opened OutboxSafety
  import opened OutboxTheorems

  /** The receiver took the event. */
  predicate Accepted(outcome: Outcome) {
    outcome.Answered? && outcome.status >= 200 && outcome.status <= 299
  }

  /** Neither delivered nor dead-lettered, with its time come, and under no claim that is still running. */
  predicate IsDue(e: Event, now: Time) {
    && !e.delivered && !e.deadLettered && now >= e.nextAttemptAt
    && !(e.claimedBy.Some? && e.claimExpiresAt.Some? && now < e.claimExpiresAt.value)
  }

  /** The row carries the token, on a lease that has not run out. */
  predicate StillOwns(e: Event, token: Token, now: Time) {
    e.claimedBy == Some(token) && e.claimExpiresAt.Some? && now < e.claimExpiresAt.value
  }

  /** 2^k seconds, up to five minutes. */
  function DelayAfter(k: nat): nat {
    if k == 0 then 1 else if k == 1 then 2 else if k == 2 then 4 else if k == 3 then 8 else if k == 4 then 16
    else if k == 5 then 32 else if k == 6 then 64 else if k == 7 then 128 else if k == 8 then 256 else 300
  }

  lemma DelaysAreTabled(k: nat)
    ensures BackoffSeconds(k) == DelayAfter(k)
  {
    assert Pow2(0) == 1 && Pow2(1) == 2 && Pow2(2) == 4;
    assert Pow2(3) == 8 && Pow2(4) == 16;
    assert Pow2(5) == 32 && Pow2(6) == 64;
    assert Pow2(7) == 128 && Pow2(8) == 256;
    assert Pow2(9) == 512;
    if k >= 9 { BackoffNeverShrinks(9, k); }
  }

  // ----- What a worker remembers of its posts

  /** The pass has failed exactly if some post was not accepted; the last such post is the error. */
  ghost predicate PostsTold(me: Session)
    requires me.Sending?
  {
    && (forall i :: 0 <= i < |me.pending| ==> (me.pending[i].successful <==> Accepted(me.pending[i].outcome)))
    && (me.failed <==> exists i :: 0 <= i < |me.pending| && !Accepted(me.pending[i].outcome))
    && (!me.failed ==> me.lastError.None?)
    && (me.failed ==> exists i :: IsLastFailure(me.pending, i) && me.lastError == Some(me.pending[i].outcome))
  }

  ghost predicate IsLastFailure(rows: seq<Attempt>, i: int) {
    0 <= i < |rows| && !Accepted(rows[i].outcome) && forall j :: i < j < |rows| ==> Accepted(rows[j].outcome)
  }

  ghost predicate AllPostsTold(s: State) {
    forall w :: w in s.sessions && s.sessions[w].Sending? ==> PostsTold(s.sessions[w])
  }

  lemma PostIsTold(me: Session, outcome: Outcome)
    requires me.Sending? && me.next < |me.subs| && PostsTold(me)
    ensures PostsTold(AfterPost(me, outcome))
  {
    var you := AfterPost(me, outcome);
    var n := |me.pending|;
    assert you.pending[n].outcome == outcome;
    forall i | 0 <= i < n ensures you.pending[i] == me.pending[i] {
    }
    if you.failed {
      if Accepted(outcome) {
        var i :| IsLastFailure(me.pending, i) && me.lastError == Some(me.pending[i].outcome);
        assert IsLastFailure(you.pending, i);
      } else {
        assert IsLastFailure(you.pending, n);
      }
    }
  }

  lemma NextKeepsPostsTold(max: int, s: State, step: Step)
    requires AllPostsTold(s)
    ensures AllPostsTold(Next(max, s, step))
  {
    if step.Post? {
      var me := SessionOf(s, step.worker);
      if me.Sending? && me.next < |me.subs| && me.phase == Phase.Send { PostIsTold(me, step.outcome); }
    }
  }

  lemma {:induction false} PostsAreTold(max: int, run: seq<Step>)
    ensures AllPostsTold(Reached(max, run))
  {
    if run != [] {
      PostsAreTold(max, run[..|run| - 1]);
      NextKeepsPostsTold(max, Reached(max, run[..|run| - 1]), run[|run| - 1]);
    }
  }

  // ----- The fenced commit

  /** What a pass makes of its event. */
  ghost predicate Becomes(max: int, e: Event, u: Event, subs: seq<nat>, posts: seq<Attempt>, stamp: Time) {
    && u.tenant == e.tenant && u.eventType == e.eventType && u.payloadIsJson == e.payloadIsJson
    && u.createdAt == e.createdAt && u.claimedBy.None? && u.claimExpiresAt.None?
    && if subs == [] then
         && u.delivered && !u.deadLettered && u.deliveredAt == Some(stamp)
         && u.attempts == e.attempts && u.nextAttemptAt == e.nextAttemptAt && u.lastError == e.lastError
       else if forall i :: 0 <= i < |posts| ==> Accepted(posts[i].outcome) then
         && u.delivered && !u.deadLettered && u.deliveredAt == Some(stamp)
         && u.attempts == e.attempts + 1 && u.nextAttemptAt == e.nextAttemptAt && u.lastError.None?
       else
         && !u.delivered && u.deliveredAt == e.deliveredAt && u.attempts == e.attempts + 1
         && (u.deadLettered <==> e.attempts + 1 >= max)
         && u.nextAttemptAt == (if u.deadLettered then stamp else stamp + DelayAfter(e.attempts + 1) as real)
         && exists i :: IsLastFailure(posts, i) && u.lastError == Some(posts[i].outcome)
  }

  /** The pass of a worker ends: with everything written, or with nothing. */
  ghost predicate Concludes(max: int, s: State, t: State, me: Session, now: Time, stamp: Time)
    requires me.Sending?
  {
    && me.event < |s.events|
    && var e := s.events[me.event];
       if StillOwns(e, me.token, now) then
         && |t.events| == |s.events| && t.attempts == s.attempts + me.pending
         && (forall k :: 0 <= k < |s.events| && k != me.event ==> t.events[k] == s.events[k])
         && Becomes(max, e, t.events[me.event], me.subs, me.pending, stamp)
       else t.events == s.events && t.attempts == s.attempts
  }

  lemma FinalisedBecomes(max: int, me: Session, stamp: Time)
    requires me.Sending? && PostsTold(me) && !me.row.delivered && !me.row.deadLettered
    ensures Becomes(max, me.row, Finalised(max, me, stamp), me.subs, me.pending, stamp)
  {
    DelaysAreTabled(me.row.attempts + 1);
  }

  lemma ConcludesInState(max: int, s: State, w: Worker, now: Time, stamp: Time)
    requires Inv(max, s) && SessionOf(s, w).Sending? && SessionOf(s, w).next == |SessionOf(s, w).subs|
    requires PostsTold(SessionOf(s, w))
    ensures Concludes(max, s, Next(max, s, Finish(w, now, stamp)), SessionOf(s, w), now, stamp)
    ensures SessionOf(Next(max, s, Finish(w, now, stamp)), w).Idle?
  {
    var me := SessionOf(s, w);
    var e := s.events[me.event];
    if StillOwns(e, me.token, now) {
      assert HolderOk(s, me) && e == me.row;
      assert EventOk(max, e, s.nextToken);
      DelaysAreTabled(e.attempts + 1);
      FinalisedBecomes(max, me, stamp);
    }
  }

  /**
    In every reached state a worker that is past its loop writes exactly if the row carries its token and the lease
    has not run out, and then the event is delivered, dead-lettered or put off by exactly min(2^k, 300) seconds.
   */
  lemma FinishConcludes(max: int, run: seq<Step>, w: Worker, now: Time, stamp: Time)
    requires SessionOf(Reached(max, run), w).Sending?
    requires SessionOf(Reached(max, run), w).next == |SessionOf(Reached(max, run), w).subs|
    ensures
      var s := Reached(max, run);
      var t := Next(max, s, Finish(w, now, stamp));
      Concludes(max, s, t, SessionOf(s, w), now, stamp) && SessionOf(t, w).Idle?
  {
    var s := Reached(max, run);
    PostsAreTold(max, run);
    ConcludesInState(max, s, w, now, stamp);
  }

  // ----- The other steps, by what they find

  /** A claim succeeds exactly on a due event, which then carries a new token for the length of the lease. */
  lemma ClaimTakes(max: int, s: State, w: Worker, event: nat, now: Time, lease: Time)
    requires SessionOf(s, w).Idle?
    ensures
      var t := Next(max, s, Claim(w, event, now, lease));
      && t.attempts == s.attempts && t.subscriptions == s.subscriptions
      && if event < |s.events| && IsDue(s.events[event], now) then
           && SessionOf(t, w) == Claimed(event, s.nextToken)
           && t.events == s.events[event := s.events[event].(claimedBy := Some(s.nextToken),
                                                             claimExpiresAt := Some(now + lease))]
         else SessionOf(t, w).Idle? && t.events == s.events
  {
  }

  /** The ids of the enabled subscriptions of the event's tenant and type, in order. */
  ghost predicate Subscribed(s: State, e: Event, subs: seq<nat>) {
    && (forall i, j :: 0 <= i < j < |subs| ==> subs[i] < subs[j])
    && forall k :: k in subs <==>
         && 0 <= k < |s.subscriptions| && s.subscriptions[k].enabled
         && s.subscriptions[k].tenant == e.tenant && s.subscriptions[k].eventType == e.eventType
  }

  lemma LoadFinds(max: int, s: State, w: Worker)
    requires SessionOf(s, w).Claimed?
    ensures
      var me, t := SessionOf(s, w), Next(max, s, Load(w));
      var you := SessionOf(t, w);
      && t.(sessions := s.sessions) == s
      && if me.event >= |s.events| || s.events[me.event].claimedBy != Some(me.token) then you.Idle?
         else
           var e := s.events[me.event];
           exists subs :: Subscribed(s, e, subs) &&
             you == if subs != [] && !e.payloadIsJson then Releasing(me.event, me.token)
                    else Sending(me.event, me.token, e, subs, 0, Check, [], false, None)
  {
    var me := SessionOf(s, w);
    if me.event < |s.events| {
      var e := s.events[me.event];
      assert Subscribed(s, e, MatchingSubs(s.subscriptions, e, |s.subscriptions|));
    }
  }

  /** The subscription has a committed row that says success. */
  ghost predicate SucceededBefore(s: State, event: nat, sub: nat) {
    exists i :: 0 <= i < |s.attempts| && s.attempts[i].event == event && s.attempts[i].subscription == sub
                && s.attempts[i].successful
  }

  /** One subscription: skipped if it has had the event or is disabled by now, else posted to and recorded. */
  ghost predicate GoesOn(s: State, me: Session, you: Session, outcome: Outcome)
    requires me.Sending? && me.next < |me.subs|
  {
    var sub := me.subs[me.next];
    you == if SucceededBefore(s, me.event, sub) || sub >= |s.subscriptions| || !s.subscriptions[sub].enabled then
             me.(next := me.next + 1)
           else
             me.(next := me.next + 1,
                 pending := me.pending
                            + [Attempt(me.event, sub, me.row.attempts + 1, Accepted(outcome), outcome)],
                 failed := me.failed || !Accepted(outcome),
                 lastError := if Accepted(outcome) then me.lastError else Some(outcome))
  }

  /** The three steps for one subscription. */
  function Round(w: Worker, outcome: Outcome): seq<Step> {
    [CheckDelivered(w)] + [CheckEnabled(w)] + [Post(w, outcome)]
  }

  function AfterRound(max: int, s: State, w: Worker, outcome: Outcome): State {
    Next(max, Next(max, Next(max, s, CheckDelivered(w)), CheckEnabled(w)), Post(w, outcome))
  }

  lemma RoundGoesOn(max: int, s: State, w: Worker, outcome: Outcome)
    requires SessionOf(s, w).Sending? && SessionOf(s, w).phase == Check
    ensures
      var me, t := SessionOf(s, w), AfterRound(max, s, w, outcome);
      && t.(sessions := s.sessions) == s && SessionOf(t, w).Sending?
      && if me.next < |me.subs| then GoesOn(s, me, SessionOf(t, w), outcome) else SessionOf(t, w) == me
  {
    var a := Next(max, s, CheckDelivered(w));
    var b := Next(max, a, CheckEnabled(w));
    assert a.(sessions := s.sessions) == s && b.(sessions := s.sessions) == s;
  }

  function Rounds(w: Worker, outcomes: seq<Outcome>): seq<Step> {
    if outcomes == [] then []
    else Rounds(w, outcomes[..|outcomes| - 1]) + Round(w, outcomes[|outcomes| - 1])
  }

  /** An emitted event is new, without attempts, and due from its time on. */
  lemma EmittedIsDue(max: int, s: State, tenant: string, eventType: string, json: bool, at: Time, now: Time)
    ensures
      var t := Next(max, s, Emit(tenant, eventType, json, at));
      && t.(events := s.events) == s && |t.events| == |s.events| + 1 && t.events[..|s.events|] == s.events
      && var e := t.events[|s.events|];
         && e.tenant == tenant && e.eventType == eventType && e.payloadIsJson == json && e.createdAt == at
         && e.attempts == 0 && e.lastError.None? && e.deliveredAt.None?
         && (IsDue(e, now) <==> now >= at)
  {
  }

  /**
    A pass that fails leaves no trace: once the worker has released its claim the event is as it was, due at its time,
    and no attempt row has been written.
   */
  lemma FailedPassIsForgotten(max: int, run: seq<Step>, w: Worker, now: Time)
    requires SessionOf(Reached(max, run), w).Sending?
    requires
      var me := SessionOf(Reached(max, run), w);
      me.event < |Reached(max, run).events| && Reached(max, run).events[me.event].claimedBy == Some(me.token)
    ensures
      var s := Reached(max, run);
      var event := SessionOf(s, w).event;
      var t := Next(max, Next(max, s, CommitFails(w)), Release(w));
      && SessionOf(t, w).Idle? && t.attempts == s.attempts && |t.events| == |s.events|
      && (forall k :: 0 <= k < |s.events| && k != event ==> t.events[k] == s.events[k])
      && t.events[event] == s.events[event].(claimedBy := None, claimExpiresAt := None)
      && (IsDue(t.events[event], now) <==> now >= s.events[event].nextAttemptAt)
  {
    var s := Reached(max, run);
    RunKeepsInv(max, INITIAL, run);
    assert EventOk(max, s.events[SessionOf(s, w).event], s.nextToken);
  }

  // ----- A pass that nobody disturbs

  lemma {:induction false} RunsInARow(max: int, s: State, run: seq<Step>, more: seq<Step>)
    ensures Run(max, s, run + more) == Run(max, Run(max, s, run), more)
  {
    if more == [] {
      assert run + more == run;
    } else {
      assert (run + more)[..|run + more| - 1] == run + more[..|more| - 1];
      RunsInARow(max, s, run, more[..|more| - 1]);
    }
  }

  lemma OneStepRun(max: int, s: State, step: Step)
    ensures Run(max, s, [step]) == Next(max, s, step)
  {
    assert [step][..0] == [];
  }

  lemma RoundRuns(max: int, s: State, w: Worker, outcome: Outcome)
    ensures Run(max, s, Round(w, outcome)) == AfterRound(max, s, w, outcome)
  {
    var a, b := [CheckDelivered(w)], [CheckDelivered(w)] + [CheckEnabled(w)];
    OneStepRun(max, s, CheckDelivered(w));
    RunsInARow(max, s, a, [CheckEnabled(w)]);
    OneStepRun(max, Run(max, s, a), CheckEnabled(w));
    RunsInARow(max, s, b, [Post(w, outcome)]);
    OneStepRun(max, Run(max, s, b), Post(w, outcome));
  }

  /** A worker is past `n` rounds of its pass, in which every post was accepted, and has the tables to itself. */
  ghost predicate Undisturbed(before: State, s: State, w: Worker, event: nat, subs: seq<nat>, n: nat) {
    var me := SessionOf(s, w);
    && s.(sessions := before.sessions) == before
    && me.Sending? && me.event == event && me.subs == subs && me.phase == Check && me.next == Min(n, |subs|)
    && event < |s.events| && s.events[event] == me.row && s.events[event].claimedBy == Some(me.token)
    && !me.failed && PostsTold(me)
  }

  lemma RoundStaysUndisturbed(max: int, before: State, s: State, w: Worker, event: nat, subs: seq<nat>, n: nat,
                              outcome: Outcome)
    requires Undisturbed(before, s, w, event, subs, n) && Accepted(outcome)
    ensures Undisturbed(before, AfterRound(max, s, w, outcome), w, event, subs, n + 1)
  {
    RoundGoesOn(max, s, w, outcome);
    var me, you := SessionOf(s, w), SessionOf(AfterRound(max, s, w, outcome), w);
    if me.next < |subs| && you.pending != me.pending {
      assert you.pending[..|me.pending|] == me.pending;
    }
  }

  lemma {:induction false} RoundsStayUndisturbed(max: int, before: State, w: Worker, event: nat, subs: seq<nat>,
                                                 outcomes: seq<Outcome>)
    requires Undisturbed(before, before, w, event, subs, 0)
    requires forall i :: 0 <= i < |outcomes| ==> Accepted(outcomes[i])
    ensures Undisturbed(before, Run(max, before, Rounds(w, outcomes)), w, event, subs, |outcomes|)
  {
    if outcomes != [] {
      var n := |outcomes| - 1;
      RoundsStayUndisturbed(max, before, w, event, subs, outcomes[..n]);
      var s := Run(max, before, Rounds(w, outcomes[..n]));
      RunsInARow(max, before, Rounds(w, outcomes[..n]), Round(w, outcomes[n]));
      RoundRuns(max, s, w, outcomes[n]);
      RoundStaysUndisturbed(max, before, s, w, event, subs, n, outcomes[n]);
    }
  }

  /** Claim, load, a round for each answer, fence and commit. */
  function Pass(w: Worker, event: nat, now: Time, lease: Time, outcomes: seq<Outcome>, fenceNow: Time,
                stamp: Time): seq<Step> {
    [Claim(w, event, now, lease)] + [Load(w)] + Rounds(w, outcomes) + [Finish(w, fenceNow, stamp)]
  }

  /** Nothing but this event has changed, and it is delivered. */
  ghost predicate OnlyDelivers(s: State, t: State, event: nat, stamp: Time) {
    && event < |s.events| && |t.events| == |s.events|
    && t.events[event].delivered && !t.events[event].deadLettered && t.events[event].deliveredAt == Some(stamp)
    && t.events[event].claimedBy.None?
    && forall k :: 0 <= k < |s.events| && k != event ==> t.events[k] == s.events[k]
  }

  lemma {:induction false} DistinctIdsAreFew(ids: seq<nat>, n: nat)
    requires forall i, j :: 0 <= i < j < |ids| ==> ids[i] < ids[j]
    requires forall k :: k in ids ==> k < n
    ensures |ids| <= n
  {
    if ids != [] {
      var last := |ids| - 1;
      assert ids[last] in ids;
      forall k | k in ids[..last] ensures k < ids[last] {
      }
      DistinctIdsAreFew(ids[..last], ids[last]);
    }
  }

  lemma ClaimAndLoad(max: int, s: State, w: Worker, event: nat, now: Time, lease: Time) returns (subs: seq<nat>)
    requires SessionOf(s, w).Idle? && event < |s.events| && IsDue(s.events[event], now)
    requires s.events[event].payloadIsJson || forall subs :: Subscribed(s, s.events[event], subs) ==> subs == []
    ensures
      var t := Next(max, Next(max, s, Claim(w, event, now, lease)), Load(w));
      && t.events == s.events[event := s.events[event].(claimedBy := Some(s.nextToken),
                                                        claimExpiresAt := Some(now + lease))]
      && t.subscriptions == s.subscriptions
      && Undisturbed(t, t, w, event, subs, 0) && |subs| <= |s.subscriptions|
  {
    ClaimTakes(max, s, w, event, now, lease);
    var claimed := Next(max, s, Claim(w, event, now, lease));
    LoadFinds(max, claimed, w);
    subs :| Subscribed(claimed, claimed.events[event], subs)
            && SessionOf(Next(max, claimed, Load(w)), w)
               == if subs != [] && !claimed.events[event].payloadIsJson then Releasing(event, s.nextToken)
                  else Sending(event, s.nextToken, claimed.events[event], subs, 0, Check, [], false, None);
    assert Subscribed(s, s.events[event], subs);
    DistinctIdsAreFew(subs, |s.subscriptions|);
  }

  lemma PassRuns(max: int, s: State, w: Worker, event: nat, now: Time, lease: Time, outcomes: seq<Outcome>,
                 fenceNow: Time, stamp: Time)
    ensures
      var loaded := Next(max, Next(max, s, Claim(w, event, now, lease)), Load(w));
      Run(max, s, Pass(w, event, now, lease, outcomes, fenceNow, stamp))
      == Next(max, Run(max, loaded, Rounds(w, outcomes)), Finish(w, fenceNow, stamp))
  {
    var a, b := [Claim(w, event, now, lease)], [Claim(w, event, now, lease)] + [Load(w)];
    OneStepRun(max, s, a[0]);
    RunsInARow(max, s, a, [Load(w)]);
    OneStepRun(max, Run(max, s, a), Load(w));
    RunsInARow(max, s, b, Rounds(w, outcomes));
    RunsInARow(max, s, b + Rounds(w, outcomes), [Finish(w, fenceNow, stamp)]);
    OneStepRun(max, Run(max, s, b + Rounds(w, outcomes)), Finish(w, fenceNow, stamp));
  }

  /**
    Progress. From every reached state, an idle worker that claims a due event, finds its answers all accepted (one
    for each subscription there is will do) and fences before its lease runs out delivers the event, and changes
    no other.
   */
  lemma UndisturbedPassDelivers(max: int, run: seq<Step>, w: Worker, event: nat, now: Time, lease: Time,
                                outcomes: seq<Outcome>, fenceNow: Time, stamp: Time)
    requires SessionOf(Reached(max, run), w).Idle? && event < |Reached(max, run).events|
    requires IsDue(Reached(max, run).events[event], now) && fenceNow < now + lease
    requires Reached(max, run).events[event].payloadIsJson
          || forall subs :: Subscribed(Reached(max, run), Reached(max, run).events[event], subs) ==> subs == []
    requires |outcomes| >= |Reached(max, run).subscriptions|
    requires forall i :: 0 <= i < |outcomes| ==> Accepted(outcomes[i])
    ensures
      var s := Reached(max, run);
      OnlyDelivers(s, Run(max, s, Pass(w, event, now, lease, outcomes, fenceNow, stamp)), event, stamp)
  {
    var s := Reached(max, run);
    var claimed := Next(max, s, Claim(w, event, now, lease));
    var loaded := Next(max, claimed, Load(w));
    var subs := ClaimAndLoad(max, s, w, event, now, lease);
    RoundsStayUndisturbed(max, loaded, w, event, subs, outcomes);
    var sent := Run(max, loaded, Rounds(w, outcomes));
    PassRuns(max, s, w, event, now, lease, outcomes, fenceNow, stamp);
    NextKeepsInv(max, s, Claim(w, event, now, lease));
    NextKeepsInv(max, claimed, Load(w));
    RunKeepsInv(max, loaded, Rounds(w, outcomes));
    ConcludesInState(max, sent, w, fenceNow, stamp);
  }

  // ----- A worker that has crashed

  /**
    Recovery. When a worker has claimed an event and is gone, and nobody carries on with its token, then once the
    lease has run out the claim of any idle worker takes the event, if its time has come.
   */
  lemma CrashedWorkersAreReplaced(max: int, earlier: seq<Step>, later: seq<Step>, event: nat, w: Worker, now: Time,
                                  lease: Time)
    requires event < |Reached(max, earlier).events|
    requires Reached(max, earlier).events[event].claimedBy.Some?
    requires Reached(max, earlier).events[event].claimExpiresAt.Some?
    requires forall i :: 0 <= i < |later| && later[i].Claim? && later[i].event == event ==>
      later[i].now < Reached(max, earlier).events[event].claimExpiresAt.value
    requires forall i :: 0 <= i < |later| && (later[i].Finish? || later[i].Release?) ==>
      !Holds(Run(max, Reached(max, earlier), later[..i]), later[i].worker, event)
    requires SessionOf(Run(max, Reached(max, earlier), later), w).Idle?
    requires now >= Reached(max, earlier).events[event].nextAttemptAt
    ensures
      var e := Reached(max, earlier).events[event];
      var t := Run(max, Reached(max, earlier), later);
      var u := Next(max, t, Claim(w, event, now, lease));
      && (SessionOf(u, w).Claimed? <==> now >= e.claimExpiresAt.value)
      && (now >= e.claimExpiresAt.value ==>
            && SessionOf(u, w) == Claimed(event, t.nextToken)
            && event < |u.events| && u.events[event].claimedBy == Some(t.nextToken)
            && u.events[event].claimExpiresAt == Some(now + lease))
  {
    var s := Reached(max, earlier);
    LeaseIsExclusive(max, earlier, later, event);
    assert EventOk(max, s.events[event], s.nextToken);
    ClaimTakes(max, Run(max, s, later), w, event, now, lease);
  }
}
