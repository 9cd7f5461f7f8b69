/** What it means that an event is marked delivered. */
module OutboxDelivery {
  import opened Prelude
  import opened OutboxProtocol
  import opened OutboxSafety
  import opened OutboxTheorems

  /** A subscription has its committed successful attempt for an event, or is disabled. */
  ghost predicate Settled(s: State, event: nat, sub: nat) {
    HasSuccess(s.attempts, event, sub) || (sub < |s.subscriptions| && !s.subscriptions[sub].enabled)
  }

  /** Committed rows and disabled subscriptions stay. */
  ghost predicate Grows(s: State, t: State) {
    && s.attempts <= t.attempts
    && |s.subscriptions| <= |t.subscriptions|
    && |s.events| <= |t.events|
    && (forall i :: 0 <= i < |s.subscriptions| ==>
          && s.subscriptions[i].tenant == t.subscriptions[i].tenant
          && s.subscriptions[i].eventType == t.subscriptions[i].eventType
          && (t.subscriptions[i].enabled ==> s.subscriptions[i].enabled))
    && (forall i :: 0 <= i < |s.events| ==>
          s.events[i].tenant == t.events[i].tenant && s.events[i].eventType == t.events[i].eventType)
  }

  lemma FinishGrows(max: int, s: State, w: Worker, now: Time, stamp: Time)
    requires Inv(max, s) && AtFence(SessionOf(s, w))
    ensures Grows(s, NextFinish(max, s, w, now, stamp))
  {
    assert HolderOk(s, SessionOf(s, w));
  }

  lemma OthersGrow(max: int, s: State, step: Step)
    requires !step.Finish?
    ensures Grows(s, Next(max, s, step))
  {
  }

  lemma NextGrows(max: int, s: State, step: Step)
    requires Inv(max, s)
    ensures Grows(s, Next(max, s, step))
  {
    if !step.Finish? {
      OthersGrow(max, s, step);
    } else if AtFence(SessionOf(s, step.worker)) {
      FinishGrows(max, s, step.worker, step.now, step.stamp);
    }
  }

  lemma StaysSettled(s: State, t: State, event: nat, sub: nat)
    requires Grows(s, t) && Settled(s, event, sub)
    ensures Settled(t, event, sub)
  {
    if HasSuccess(s.attempts, event, sub) {
      var i :| 0 <= i < |s.attempts| && s.attempts[i].event == event
               && s.attempts[i].subscription == sub && s.attempts[i].successful;
      assert t.attempts[i] == s.attempts[i];
    }
  }

  /** Every subscription a pass has gone by is settled, about to be by a pending row, or the pass has failed. */
  ghost predicate Progress(s: State, me: Session)
    requires me.Sending? && me.next <= |me.subs|
  {
    me.failed || forall i :: 0 <= i < me.next ==>
      Settled(s, me.event, me.subs[i]) || HasSuccess(me.pending, me.event, me.subs[i])
  }

  /** Subscriptions below `n` that match the event are in the pass's list or disabled. */
  ghost predicate Listed(s: State, me: Session, n: nat)
    requires me.Sending? && me.event < |s.events| && n <= |s.subscriptions|
  {
    forall sub :: 0 <= sub < n && Matches(s.subscriptions[sub], s.events[me.event]) && s.subscriptions[sub].enabled ==>
      sub in me.subs
  }

  /** Every matching subscription below `n` is settled for the event. */
  ghost predicate AllSettled(s: State, event: nat, n: nat)
    requires event < |s.events| && n <= |s.subscriptions|
  {
    forall sub :: 0 <= sub < n && Matches(s.subscriptions[sub], s.events[event]) ==> Settled(s, event, sub)
  }

  ghost predicate PassesProgress(s: State) {
    forall w :: w in s.sessions && s.sessions[w].Sending? ==>
      s.sessions[w].next <= |s.sessions[w].subs| && Progress(s, s.sessions[w])
  }

  /** Holds from a moment on at which the table had `n` subscriptions and no event from `from` on. */
  ghost predicate Promise(s: State, n: nat, from: nat) {
    && n <= |s.subscriptions|
    && (forall w :: w in s.sessions && s.sessions[w].Sending? && from <= s.sessions[w].event < |s.events| ==>
          Listed(s, s.sessions[w], n))
    && (forall e :: from <= e < |s.events| && s.events[e].delivered ==> AllSettled(s, e, n))
  }

  lemma ProgressStays(s: State, t: State, me: Session)
    requires Grows(s, t) && me.Sending? && me.next <= |me.subs| && Progress(s, me)
    ensures Progress(t, me)
  {
    if !me.failed {
      forall i | 0 <= i < me.next
        ensures Settled(t, me.event, me.subs[i]) || HasSuccess(me.pending, me.event, me.subs[i])
      {
        if Settled(s, me.event, me.subs[i]) { StaysSettled(s, t, me.event, me.subs[i]); }
      }
    }
  }

  lemma PostProgress(s: State, me: Session, outcome: Outcome)
    requires me.Sending? && me.next < |me.subs| && Progress(s, me)
    ensures Progress(s, AfterPost(me, outcome))
  {
    var you := AfterPost(me, outcome);
    if !you.failed {
      forall i | 0 <= i < you.next
        ensures Settled(s, me.event, me.subs[i]) || HasSuccess(you.pending, me.event, me.subs[i])
      {
        if i == me.next {
          assert you.pending[|me.pending|].subscription == me.subs[i];
        } else if HasSuccess(me.pending, me.event, me.subs[i]) {
          var j :| 0 <= j < |me.pending| && me.pending[j].event == me.event
                   && me.pending[j].subscription == me.subs[i] && me.pending[j].successful;
          assert you.pending[j] == me.pending[j];
        }
      }
    }
  }

  /** The two looks at the tables let a pass go by a subscription only when it is settled. */
  lemma CheckProgress(max: int, s: State, w: Worker, step: Step)
    requires SessionOf(s, w).Sending? && SessionOf(s, w).next <= |SessionOf(s, w).subs| && Progress(s, SessionOf(s, w))
    requires forall i :: 0 <= i < |SessionOf(s, w).subs| ==> SessionOf(s, w).subs[i] < |s.subscriptions|
    requires step == CheckDelivered(w) || step == CheckEnabled(w)
    ensures
      var you := SessionOf(Next(max, s, step), w);
      you.Sending? && you.next <= |you.subs| && Progress(s, you)
  {
  }

  /** The list of a pass names rows of the table. */
  ghost predicate ListsExist(s: State) {
    forall w, i :: w in s.sessions && s.sessions[w].Sending? && 0 <= i < |s.sessions[w].subs| ==>
      s.sessions[w].subs[i] < |s.subscriptions|
  }

  lemma NextKeepsLists(max: int, s: State, step: Step)
    requires ListsExist(s)
    ensures ListsExist(Next(max, s, step))
  {
  }

  /** What a step does to the memory of a worker that is, and stays, in its loop. */
  lemma SessionStep(max: int, s: State, step: Step, w: Worker)
    requires SessionOf(Next(max, s, step), w).Sending?
    requires SessionOf(Next(max, s, step), w) != SessionOf(s, w)
    ensures step == Load(w) || step == CheckDelivered(w) || step == CheckEnabled(w) || step == Post(w, step.outcome)
    ensures step == Load(w) ==> SessionOf(Next(max, s, step), w).next == 0
    ensures step != Load(w) ==> SessionOf(s, w).Sending? && SessionOf(s, w).next < |SessionOf(s, w).subs|
    ensures step.Post? ==> SessionOf(Next(max, s, step), w) == AfterPost(SessionOf(s, w), step.outcome)
    ensures step != Load(w) ==>
      Next(max, s, step).attempts == s.attempts && Next(max, s, step).subscriptions == s.subscriptions
  {
  }

  lemma NextKeepsProgress(max: int, s: State, step: Step)
    requires Inv(max, s) && PassesProgress(s) && ListsExist(s)
    ensures PassesProgress(Next(max, s, step))
  {
    var t := Next(max, s, step);
    NextGrows(max, s, step);
    forall w | w in t.sessions && t.sessions[w].Sending?
      ensures t.sessions[w].next <= |t.sessions[w].subs| && Progress(t, t.sessions[w])
    {
      var me, you := SessionOf(s, w), SessionOf(t, w);
      if me == you {
        ProgressStays(s, t, me);
      } else {
        SessionStep(max, s, step, w);
        if step.Post? {
          PostProgress(t, me, step.outcome);
        } else if step != Load(w) {
          CheckProgress(max, s, w, step);
        }
      }
    }
  }

  /** After a fenced commit without failure, the pass's whole list is settled by committed rows. */
  lemma CommitSettles(max: int, s: State, w: Worker, now: Time, stamp: Time)
    requires Inv(max, s) && PassesProgress(s)
    requires Passes(s, w, now) && (SessionOf(s, w).failed ==> SessionOf(s, w).subs == [])
    ensures
      var me := SessionOf(s, w);
      var t := Next(max, s, Finish(w, now, stamp));
      forall i :: 0 <= i < |me.subs| ==> Settled(t, me.event, me.subs[i])
  {
    var me := SessionOf(s, w);
    var t := Next(max, s, Finish(w, now, stamp));
    NextGrows(max, s, Finish(w, now, stamp));
    forall i | 0 <= i < |me.subs| ensures Settled(t, me.event, me.subs[i]) {
      if Settled(s, me.event, me.subs[i]) {
        StaysSettled(s, t, me.event, me.subs[i]);
      } else {
        var j :| 0 <= j < |me.pending| && me.pending[j].event == me.event
                 && me.pending[j].subscription == me.subs[i] && me.pending[j].successful;
        assert t.attempts[|s.attempts| + j] == me.pending[j];
      }
    }
  }

  lemma {:induction false} RunKeepsProgress(max: int, run: seq<Step>)
    ensures PassesProgress(Reached(max, run)) && ListsExist(Reached(max, run))
  {
    if run != [] {
      var before := run[..|run| - 1];
      RunKeepsProgress(max, before);
      NextKeepsLists(max, Reached(max, before), run[|run| - 1]);
      NextKeepsProgress(max, Reached(max, before), run[|run| - 1]);
    }
  }

  /** A step turns an event delivered. */
  ghost predicate Delivers(max: int, s: State, step: Step, event: nat) {
    && event < |s.events| && !s.events[event].delivered
    && event < |Next(max, s, step).events| && Next(max, s, step).events[event].delivered
  }

  lemma OnlyFinishDelivers(max: int, s: State, step: Step, event: nat)
    requires Inv(max, s) && Delivers(max, s, step, event)
    ensures step.Finish? && Passes(s, step.worker, step.now)
    ensures SessionOf(s, step.worker).event == event
    ensures SessionOf(s, step.worker).failed ==> SessionOf(s, step.worker).subs == []
  {
  }

  /**
    An event is turned delivered only by a fenced commit, and then every subscription in the list of
    that pass has a committed successful attempt or is disabled.
   */
  lemma DeliveredMeansSettled(max: int, run: seq<Step>, step: Step, event: nat)
    requires Delivers(max, Reached(max, run), step, event)
    ensures step.Finish? && Passes(Reached(max, run), step.worker, step.now)
    ensures
      var me := SessionOf(Reached(max, run), step.worker);
      && me.event == event
      && forall i :: 0 <= i < |me.subs| ==> Settled(Next(max, Reached(max, run), step), event, me.subs[i])
  {
    var s := Reached(max, run);
    RunKeepsProgress(max, run);
    OnlyFinishDelivers(max, s, step, event);
    CommitSettles(max, s, step.worker, step.now, step.stamp);
  }

  // ----- From emission to subscriber

  lemma ListedStays(s: State, t: State, me: Session, n: nat)
    requires Grows(s, t) && me.Sending? && me.event < |s.events| && n <= |s.subscriptions| && Listed(s, me, n)
    ensures Listed(t, me, n)
  {
  }

  lemma LoadLists(max: int, s: State, w: Worker, n: nat)
    requires Inv(max, s) && n <= |s.subscriptions|
    requires SessionOf(s, w).Claimed? && SessionOf(Next(max, s, Load(w)), w).Sending?
    ensures
      var you := SessionOf(Next(max, s, Load(w)), w);
      you.event < |s.events| && Listed(Next(max, s, Load(w)), you, n)
  {
  }

  /** A step on a pass in its loop never changes its event or list. */
  lemma SameList(max: int, s: State, step: Step, w: Worker)
    requires SessionOf(s, w).Sending? && SessionOf(Next(max, s, step), w).Sending?
    ensures SessionOf(Next(max, s, step), w).subs == SessionOf(s, w).subs
    ensures SessionOf(Next(max, s, step), w).event == SessionOf(s, w).event
  {
  }

  lemma PromiseForSessions(max: int, s: State, step: Step, n: nat, from: nat, w: Worker)
    requires Inv(max, s) && Promise(s, n, from)
    requires SessionOf(Next(max, s, step), w).Sending?
    requires from <= SessionOf(Next(max, s, step), w).event < |Next(max, s, step).events|
    ensures n <= |Next(max, s, step).subscriptions|
    ensures Listed(Next(max, s, step), SessionOf(Next(max, s, step), w), n)
  {
    var t := Next(max, s, step);
    var me, you := SessionOf(s, w), SessionOf(t, w);
    NextGrows(max, s, step);
    if me.Sending? {
      SameList(max, s, step, w);
      assert me.event < |s.events|;
      ListedStays(s, t, me, n);
    } else {
      SessionStep(max, s, step, w);
      LoadLists(max, s, w, n);
    }
  }

  lemma PromiseForEvents(max: int, s: State, step: Step, n: nat, from: nat, e: nat)
    requires Inv(max, s) && PassesProgress(s) && Promise(s, n, from)
    requires from <= e < |Next(max, s, step).events| && Next(max, s, step).events[e].delivered
    ensures n <= |Next(max, s, step).subscriptions|
    ensures AllSettled(Next(max, s, step), e, n)
  {
    var t := Next(max, s, step);
    NextGrows(max, s, step);
    if e < |s.events| {
      forall sub | 0 <= sub < n && Matches(t.subscriptions[sub], t.events[e]) ensures Settled(t, e, sub) {
        if s.events[e].delivered {
          StaysSettled(s, t, e, sub);
        } else {
          OnlyFinishDelivers(max, s, step, e);
          CommitSettles(max, s, step.worker, step.now, step.stamp);
          assert Listed(s, SessionOf(s, step.worker), n);
        }
      }
    }
  }

  lemma NextKeepsPromise(max: int, s: State, step: Step, n: nat, from: nat)
    requires Inv(max, s) && PassesProgress(s) && Promise(s, n, from)
    ensures Promise(Next(max, s, step), n, from)
  {
    var t := Next(max, s, step);
    NextGrows(max, s, step);
    forall w | w in t.sessions && t.sessions[w].Sending? && from <= t.sessions[w].event < |t.events|
      ensures Listed(t, t.sessions[w], n)
    {
      PromiseForSessions(max, s, step, n, from, w);
    }
    forall e | from <= e < |t.events| && t.events[e].delivered ensures AllSettled(t, e, n) {
      PromiseForEvents(max, s, step, n, from, e);
    }
  }

  lemma {:induction false} RunConcatenates(max: int, s: State, first: seq<Step>, second: seq<Step>)
    ensures Run(max, s, first + second) == Run(max, Run(max, s, first), second)
  {
    if second == [] {
      assert first + second == first;
    } else {
      assert (first + second)[..|first + second| - 1] == first + second[..|second| - 1];
      RunConcatenates(max, s, first, second[..|second| - 1]);
    }
  }

  lemma {:induction false} RunKeepsPromise(max: int, earlier: seq<Step>, later: seq<Step>, n: nat, from: nat)
    requires Promise(Reached(max, earlier), n, from)
    ensures Promise(Reached(max, earlier + later), n, from)
  {
    if later == [] {
      assert earlier + later == earlier;
    } else {
      var before := later[..|later| - 1];
      RunKeepsPromise(max, earlier, before, n, from);
      RunKeepsProgress(max, earlier + before);
      assert (earlier + later)[..|earlier + later| - 1] == earlier + before;
      NextKeepsPromise(max, Reached(max, earlier + before), later[|later| - 1], n, from);
    }
  }

  /**
    End to end: once an event is marked delivered, every subscription to its tenant and type that
    existed before the event was emitted has a committed successful attempt for it, or is disabled.
   */
  lemma EmittedEventsReachSubscribers(max: int, earlier: seq<Step>, later: seq<Step>, event: nat, sub: nat)
    requires |Reached(max, earlier).events| <= event < |Reached(max, earlier + later).events|
    requires sub < |Reached(max, earlier).subscriptions|
    requires Reached(max, earlier + later).events[event].delivered
    ensures
      var s, t := Reached(max, earlier), Reached(max, earlier + later);
      && |s.subscriptions| <= |t.subscriptions|
      && (Matches(t.subscriptions[sub], t.events[event]) ==> Settled(t, event, sub))
  {
    var s := Reached(max, earlier);
    RunKeepsPromise(max, earlier, later, |s.subscriptions|, |s.events|);
    assert AllSettled(Reached(max, earlier + later), event, |s.subscriptions|);
  }
}
