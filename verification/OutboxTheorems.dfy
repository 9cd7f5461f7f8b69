/** Guarantees of the outbox over whole runs, from the empty database. */
module OutboxTheorems {
  import opened Prelude
  import opened OutboxProtocol
  import opened OutboxSafety

  ghost function Reached(max: int, run: seq<Step>): (s: State)
    ensures Inv(max, s)
  {
    RunKeepsInv(max, INITIAL, run);
    Run(max, INITIAL, run)
  }

  /**
    Every committed attempt row has a number in 1..attempts of its event, the unique index on
    (event, subscription, attempt number) holds, and no pair has two successful rows.
   */
  lemma AttemptRowsAreSound(max: int, run: seq<Step>)
    ensures
      var s := Reached(max, run);
      && (forall i :: 0 <= i < |s.attempts| ==>
            s.attempts[i].event < |s.events| && 1 <= s.attempts[i].number <= s.events[s.attempts[i].event].attempts)
      && (forall i, j | 0 <= i < j < |s.attempts| && s.attempts[i].event == s.attempts[j].event
                        && s.attempts[i].subscription == s.attempts[j].subscription ::
            s.attempts[i].number != s.attempts[j].number && !(s.attempts[i].successful && s.attempts[j].successful))
  {
    var s := Reached(max, run);
    forall i | 0 <= i < |s.attempts| ensures RowOk(s.events, s.attempts[i]) {
    }
    forall i, j | 0 <= i < j < |s.attempts| ensures !Clash(s.attempts[i], s.attempts[j]) {
    }
  }

  /** Delivered and dead-lettered exclude each other; a terminal event is unclaimed; attempts are capped. */
  lemma LifecycleIsSound(max: int, run: seq<Step>, event: nat)
    requires event < |Reached(max, run).events|
    ensures
      var e := Reached(max, run).events[event];
      && !(e.delivered && e.deadLettered)
      && (Terminal(e) ==> e.claimedBy.None?)
      && e.attempts <= Cap(max)
      && (!Terminal(e) ==> e.attempts < Cap(max))
  {
    var s := Reached(max, run);
    assert EventOk(max, s.events[event], s.nextToken);
  }

  // ----- Finalisations are serialised

  /** The attempt number a step commits for an event, if it is a fenced commit of a counted pass. */
  function CommittedNumber(s: State, step: Step, event: nat): seq<nat> {
    if step.Finish? && Passes(s, step.worker, step.now) then
      var me := SessionOf(s, step.worker);
      if me.event == event && me.subs != [] then [me.row.attempts + 1] else []
    else []
  }

  /** The attempt numbers committed for an event along a run, in commit order. */
  function CommittedNumbers(max: int, s: State, run: seq<Step>, event: nat): seq<nat> {
    if run == [] then []
    else
      var before := run[..|run| - 1];
      CommittedNumbers(max, s, before, event) + CommittedNumber(Run(max, s, before), run[|run| - 1], event)
  }

  function AttemptsOf(s: State, event: nat): nat {
    if event < |s.events| then s.events[event].attempts else 0
  }

  lemma StepCounts(max: int, s: State, step: Step, event: nat)
    requires Inv(max, s)
    ensures CountTo(AttemptsOf(Next(max, s, step), event))
      == CountTo(AttemptsOf(s, event)) + CommittedNumber(s, step, event)
  {
    if step.Finish? && AtFence(SessionOf(s, step.worker)) {
      var me := SessionOf(s, step.worker);
      assert HolderOk(s, me);
      assert Passes(s, step.worker, step.now) && me.event == event ==> s.events[event] == me.row;
    }
  }

  /**
    No increment of `attempts` is lost or repeated: the passes committed for an event, by whichever
    workers, carry the numbers 1, 2, ..., attempts in this order.
   */
  lemma {:induction false} FinalisationsAreSerialised(max: int, run: seq<Step>, event: nat)
    ensures CommittedNumbers(max, INITIAL, run, event) == CountTo(AttemptsOf(Reached(max, run), event))
  {
    if run != [] {
      var before := run[..|run| - 1];
      FinalisationsAreSerialised(max, before, event);
      StepCounts(max, Reached(max, before), run[|run| - 1], event);
    }
  }

  /** The retries of an event end: at most Cap passes with subscribers are ever committed for it. */
  lemma FinalisationsAreBounded(max: int, run: seq<Step>, event: nat)
    ensures |CommittedNumbers(max, INITIAL, run, event)| <= Cap(max)
  {
    FinalisationsAreSerialised(max, run, event);
    var s := Reached(max, run);
    if event < |s.events| {
      assert EventOk(max, s.events[event], s.nextToken);
    }
  }

  // ----- Events that nothing can touch

  function RowsOf(rows: seq<Attempt>, event: nat): seq<Attempt> {
    if rows == [] then []
    else
      var rest := RowsOf(rows[..|rows| - 1], event);
      if rows[|rows| - 1].event == event then rest + [rows[|rows| - 1]] else rest
  }

  lemma {:induction false} RowsOfOthers(rows: seq<Attempt>, more: seq<Attempt>, event: nat)
    requires forall i :: 0 <= i < |more| ==> more[i].event != event
    ensures RowsOf(rows + more, event) == RowsOf(rows, event)
  {
    if more == [] {
      assert rows + more == rows;
    } else {
      assert (rows + more)[..|rows + more| - 1] == rows + more[..|more| - 1];
      RowsOfOthers(rows, more[..|more| - 1], event);
    }
  }

  /** Event row and attempt rows of an event are the same in both states. */
  ghost predicate Untouched(s: State, t: State, event: nat) {
    && event < |s.events| && event < |t.events|
    && s.events[event] == t.events[event]
    && RowsOf(s.attempts, event) == RowsOf(t.attempts, event)
  }

  /** A worker that in `s` is in possession of the token standing in the event's row. */
  ghost predicate Holds(s: State, w: Worker, event: nat) {
    && event < |s.events|
    && !SessionOf(s, w).Idle?
    && s.events[event].claimedBy == Some(SessionOf(s, w).token)
  }

  /** In `t` nobody is in possession of the event's token who was not so in `s`. */
  ghost predicate NoNewHolder(s: State, t: State, event: nat) {
    forall w :: Holds(t, w, event) ==> Holds(s, w, event)
  }

  /** Steps that leave an event alone: no successful claim of it, and no commit or release by its holder. */
  ghost predicate Spares(s: State, step: Step, event: nat) {
    && event < |s.events|
    && (step.Claim? && step.event == event ==> !Claimable(s.events[event], step.now))
    && (step.Finish? || step.Release? ==> !Holds(s, step.worker, event))
  }

  lemma SparingStep(max: int, s: State, step: Step, event: nat)
    requires Inv(max, s) && Spares(s, step, event)
    ensures Untouched(s, Next(max, s, step), event)
  {
    if step.Finish? && AtFence(SessionOf(s, step.worker)) && Passes(s, step.worker, step.now) {
      var me := SessionOf(s, step.worker);
      assert me.event != event;
      RowsOfOthers(s.attempts, me.pending, event);
    }
  }

  /** A worker's token is the one it had, or a new one. */
  lemma TokenIsKept(max: int, s: State, step: Step, w: Worker)
    ensures
      var me, next := SessionOf(s, w), SessionOf(Next(max, s, step), w);
      next.Idle? || next.token == s.nextToken || (!me.Idle? && next.token == me.token)
  {
  }

  lemma SparingStepMakesNoHolder(max: int, s: State, step: Step, event: nat)
    requires Inv(max, s) && Spares(s, step, event)
    ensures NoNewHolder(s, Next(max, s, step), event)
  {
    var t := Next(max, s, step);
    SparingStep(max, s, step, event);
    assert EventOk(max, s.events[event], s.nextToken);
    forall w | Holds(t, w, event) ensures Holds(s, w, event) {
      TokenIsKept(max, s, step, w);
    }
  }

  /** If the event is still as in `s` when step `i` of the run is due, then that step spares it. */
  ghost predicate SparesNext(max: int, s: State, run: seq<Step>, i: nat, event: nat)
    requires i < |run|
  {
    var u := Run(max, s, run[..i]);
    Untouched(s, u, event) ==> Spares(u, run[i], event)
  }

  /**
    As long as no claim finds the event claimable and whoever is in possession of its token neither commits
    nor releases, a run leaves the event row and its attempt rows as they are.
   */
  lemma {:induction false} SparingRun(max: int, s: State, run: seq<Step>, event: nat)
    requires Inv(max, s) && event < |s.events|
    requires forall i :: 0 <= i < |run| ==> SparesNext(max, s, run, i, event)
    ensures Untouched(s, Run(max, s, run), event)
    ensures NoNewHolder(s, Run(max, s, run), event)
  {
    if run != [] {
      var before, last := run[..|run| - 1], |run| - 1;
      forall i | 0 <= i < |before| ensures SparesNext(max, s, before, i, event) {
        assert before[..i] == run[..i] && SparesNext(max, s, run, i, event);
      }
      SparingRun(max, s, before, event);
      RunKeepsInv(max, s, before);
      assert SparesNext(max, s, run, last, event);
      SparingStep(max, Run(max, s, before), run[last], event);
      SparingStepMakesNoHolder(max, Run(max, s, before), run[last], event);
    }
  }

  /** Delivered and dead-lettered events are final: no run changes them or adds attempt rows for them. */
  lemma TerminalEventsAreFinal(max: int, earlier: seq<Step>, later: seq<Step>, event: nat)
    requires event < |Reached(max, earlier).events| && Terminal(Reached(max, earlier).events[event])
    ensures
      var s := Reached(max, earlier);
      Untouched(s, Run(max, s, later), event)
  {
    var s := Reached(max, earlier);
    assert EventOk(max, s.events[event], s.nextToken);
    SparingRun(max, s, later, event);
  }

  /**
    An unexpired lease stands: as long as claimers of the event read the clock before its expiry and
    whoever is in possession of its token neither commits nor releases, nobody takes, changes or finalises
    the event. The worker that claimed it may crash, or go on to other events.
   */
  lemma LeaseIsExclusive(max: int, earlier: seq<Step>, later: seq<Step>, event: nat)
    requires event < |Reached(max, earlier).events|
    requires Reached(max, earlier).events[event].claimedBy.Some?
    requires Reached(max, earlier).events[event].claimExpiresAt.Some?
    requires forall i :: 0 <= i < |later| && later[i].Claim? && later[i].event == event ==>
      later[i].now < Reached(max, earlier).events[event].claimExpiresAt.value
    requires forall i :: 0 <= i < |later| && (later[i].Finish? || later[i].Release?) ==>
      !Holds(Run(max, Reached(max, earlier), later[..i]), later[i].worker, event)
    ensures
      var s := Reached(max, earlier);
      Untouched(s, Run(max, s, later), event)
  {
    SparingRun(max, Reached(max, earlier), later, event);
  }

  /** Two workers never stand in possession of the same event. */
  lemma HolderIsUnique(max: int, run: seq<Step>, v: Worker, w: Worker, event: nat)
    requires Holds(Reached(max, run), v, event) && Holds(Reached(max, run), w, event)
    ensures v == w
  {
    var s := Reached(max, run);
  }

  lemma NeverReissued(max: int, s: State, step: Step, event: nat, token: Token)
    requires Inv(max, s) && event < |s.events| && token < s.nextToken
    requires s.events[event].claimedBy != Some(token)
    ensures
      var t := Next(max, s, step);
      token < t.nextToken && event < |t.events| && t.events[event].claimedBy != Some(token)
  {
    if step.Finish? && AtFence(SessionOf(s, step.worker)) {
      var me := SessionOf(s, step.worker);
      assert HolderOk(s, me);
    }
  }

  /** A token that no longer stands in its event's row never comes back to it. */
  lemma {:induction false} LostClaimsStayLost(max: int, s: State, run: seq<Step>, event: nat, token: Token)
    requires Inv(max, s) && event < |s.events| && token < s.nextToken
    requires s.events[event].claimedBy != Some(token)
    ensures
      var t := Run(max, s, run);
      token < t.nextToken && event < |t.events| && t.events[event].claimedBy != Some(token)
  {
    if run != [] {
      var before := run[..|run| - 1];
      LostClaimsStayLost(max, s, before, event, token);
      RunKeepsInv(max, s, before);
      NeverReissued(max, Run(max, s, before), run[|run| - 1], event, token);
    }
  }

  lemma UnheldFinish(max: int, s: State, w: Worker, now: Time, stamp: Time)
    requires var me := SessionOf(s, w); me.Idle? || !Holds(s, w, me.event)
    ensures var t := Next(max, s, Finish(w, now, stamp)); t.events == s.events && t.attempts == s.attempts
  {
  }

  lemma SamePassStep(max: int, s: State, step: Step, w: Worker, event: nat, token: Token)
    requires var me := SessionOf(s, w); me.Idle? || (!me.Claimed? && me.event == event && me.token == token)
    requires !(step.Claim? && step.worker == w)
    ensures var me := SessionOf(Next(max, s, step), w);
      me.Idle? || (!me.Claimed? && me.event == event && me.token == token)
  {
  }

  lemma {:induction false} SamePass(max: int, s: State, run: seq<Step>, w: Worker)
    requires SessionOf(s, w).Sending? && forall i :: 0 <= i < |run| ==> !(run[i].Claim? && run[i].worker == w)
    ensures
      var me := SessionOf(s, w);
      var you := SessionOf(Run(max, s, run), w);
      you.Idle? || (!you.Claimed? && you.event == me.event && you.token == me.token)
  {
    if run != [] {
      var before := run[..|run| - 1];
      SamePass(max, s, before, w);
      SamePassStep(max, Run(max, s, before), run[|run| - 1], w, SessionOf(s, w).event, SessionOf(s, w).token);
    }
  }

  /**
    A worker overtaken by another claim is fenced off for good: whatever happens first, as long as it
    is on that pass its commit changes neither an event nor the attempt rows.
   */
  lemma OvertakenWorkersAreFenced(max: int, earlier: seq<Step>, later: seq<Step>, w: Worker, now: Time, stamp: Time)
    requires SessionOf(Reached(max, earlier), w).Sending?
    requires !Holds(Reached(max, earlier), w, SessionOf(Reached(max, earlier), w).event)
    requires forall i :: 0 <= i < |later| ==> !(later[i].Claim? && later[i].worker == w)
    ensures
      var t := Run(max, Reached(max, earlier), later);
      var u := Next(max, t, Finish(w, now, stamp));
      u.events == t.events && u.attempts == t.attempts
  {
    var s := Reached(max, earlier);
    var me := SessionOf(s, w);
    assert me.event < |s.events| && me.token < s.nextToken;
    LostClaimsStayLost(max, s, later, me.event, me.token);
    SamePass(max, s, later, w);
    UnheldFinish(max, Run(max, s, later), w, now, stamp);
  }

  // ----- Backoff

  lemma {:induction false} BackoffNeverShrinks(j: nat, k: nat)
    requires j <= k
    ensures BackoffSeconds(j) <= BackoffSeconds(k) && Pow2(j) <= Pow2(k)
  {
    if j < k {
      BackoffNeverShrinks(j, k - 1);
    }
  }

  /** The state is about to commit a failed pass that does not exhaust the event's attempts. */
  ghost predicate RetryableFailure(max: int, s: State, w: Worker, now: Time) {
    && Passes(s, w, now)
    && SessionOf(s, w).failed
    && SessionOf(s, w).subs != []
    && SessionOf(s, w).row.attempts + 1 < max
  }

  /**
    After failed attempt k, nothing happens to the event, under any interleaving, until some worker's
    claim reads a clock at least min(2^k, 300) seconds past the failure.
   */
  lemma BackoffIsObserved(max: int, earlier: seq<Step>, w: Worker, now: Time, stamp: Time, later: seq<Step>)
    requires RetryableFailure(max, Reached(max, earlier), w, now)
    requires
      var me := SessionOf(Reached(max, earlier), w);
      forall i :: 0 <= i < |later| && later[i].Claim? && later[i].event == me.event ==>
        later[i].now < stamp + BackoffSeconds(me.row.attempts + 1) as real
    ensures
      var me := SessionOf(Reached(max, earlier), w);
      var t := Next(max, Reached(max, earlier), Finish(w, now, stamp));
      && me.event < |t.events|
      && t.events[me.event].attempts == me.row.attempts + 1
      && !Terminal(t.events[me.event])
      && Untouched(t, Run(max, t, later), me.event)
  {
    var s := Reached(max, earlier);
    var me := SessionOf(s, w);
    var t := Next(max, s, Finish(w, now, stamp));
    NextKeepsInv(max, s, Finish(w, now, stamp));
    var e := t.events[me.event];
    assert e == Finalised(max, me, stamp) && e.claimedBy == None && HolderOk(s, me);
    assert EventOk(max, me.row, s.nextToken);
    SparingRun(max, t, later, me.event);
  }
}
