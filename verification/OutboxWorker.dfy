/**
  app/outbox_worker.py as it runs: a pass over the due events that updates the tables in place while
  other workers and the API take any steps in between. Every statement is proved to be a step of the
  protocol, so the guarantees over runs are guarantees about this code.
 */
module OutboxWorker {
  import opened Prelude
  import opened Sorting
  import opened OutboxProtocol
  import opened OutboxSafety
  import opened OutboxTheorems
  import opened OutboxDelivery
  import opened OutboxProgress

  /** A step of worker `w` turned an event delivered. */
  ghost predicate DeliversSome(max: int, s: State, step: Step) {
    exists event :: Delivers(max, s, step, event)
  }

  predicate StepOf(step: Step, w: Worker) {
    && !step.Emit? && !step.Subscribe? && !step.Disable?
    && step.worker == w
  }

  /** How many steps of worker `w` in a run from the empty database turned an event delivered. */
  ghost function DeliveriesBy(max: int, run: seq<Step>, w: Worker): nat {
    if run == [] then 0
    else
      var before := run[..|run| - 1];
      DeliveriesBy(max, before, w)
      + if StepOf(run[|run| - 1], w) && DeliversSome(max, Run(max, INITIAL, before), run[|run| - 1]) then 1 else 0
  }

  lemma OneMoreStep(max: int, run: seq<Step>, step: Step, w: Worker)
    ensures Run(max, INITIAL, run + [step]) == Next(max, Run(max, INITIAL, run), step)
    ensures DeliveriesBy(max, run + [step], w)
         == DeliveriesBy(max, run, w)
            + if StepOf(step, w) && DeliversSome(max, Run(max, INITIAL, run), step) then 1 else 0
  {
    assert (run + [step])[..|run + [step]| - 1] == run;
  }

  lemma OthersKeepOut(max: int, s: State, step: Step, w: Worker)
    requires !StepOf(step, w)
    ensures SessionOf(Next(max, s, step), w) == SessionOf(s, w)
  {
  }

  /** No step drops an event or changes its payload. */
  lemma PayloadsStay(max: int, run: seq<Step>, step: Step)
    ensures PayloadsKept(Reached(max, run).events, Next(max, Reached(max, run), step).events)
  {
    var s := Reached(max, run);
    if step.Finish? && AtFence(SessionOf(s, step.worker)) {
      assert HolderOk(s, SessionOf(s, step.worker));
    }
  }

  lemma OnlyFinishCounts(max: int, run: seq<Step>, step: Step)
    requires !step.Finish?
    ensures !DeliversSome(max, Run(max, INITIAL, run), step)
  {
    var s := Reached(max, run);
    if DeliversSome(max, s, step) {
      var event :| Delivers(max, s, step, event);
      OnlyFinishDelivers(max, s, step, event);
    }
  }

  lemma FinishCounts(max: int, run: seq<Step>, w: Worker, now: Time, stamp: Time)
    requires AtFence(SessionOf(Reached(max, run), w))
    ensures
      var s := Reached(max, run);
      DeliversSome(max, s, Finish(w, now, stamp))
      <==> Passes(s, w, now) && (SessionOf(s, w).failed ==> SessionOf(s, w).subs == [])
  {
    var s := Reached(max, run);
    var me := SessionOf(s, w);
    if Passes(s, w, now) && (me.failed ==> me.subs == []) {
      assert EventOk(max, s.events[me.event], s.nextToken);
      assert Delivers(max, s, Finish(w, now, stamp), me.event);
    } else if DeliversSome(max, s, Finish(w, now, stamp)) {
      var event :| Delivers(max, s, Finish(w, now, stamp), event);
      OnlyFinishDelivers(max, s, Finish(w, now, stamp), event);
    }
  }

  /** The event's row carries the token. */
  predicate CarriesToken(s: State, event: nat, token: Token) {
    event < |s.events| && s.events[event].claimedBy == Some(token)
  }

  function Unclaimed(e: Event): Event { e.(claimedBy := None, claimExpiresAt := None) }

  datatype Pass = Delivered | NotDelivered | Raised

  datatype Result = Count(delivered: nat) | Exception

  /** Rows are kept, and with them whether their payload is JSON. */
  ghost predicate PayloadsKept(before: seq<Event>, after: seq<Event>) {
    |before| <= |after| && forall k :: 0 <= k < |before| ==> after[k].payloadIsJson == before[k].payloadIsJson
  }

  ghost predicate AllJson(events: seq<Event>) {
    forall k :: 0 <= k < |events| ==> events[k].payloadIsJson
  }

  /** Of all events only this one has changed, and it is delivered. */
  ghost predicate DeliversOnly(before: seq<Event>, after: seq<Event>, id: nat) {
    && id < |before| == |after| && after[id].delivered
    && forall k :: 0 <= k < |before| && k != id ==> after[k] == before[k]
  }

  predicate CreatedBefore(a: (Time, nat), b: (Time, nat)) {
    a.0 < b.0 || (a.0 == b.0 && a.1 <= b.1)
  }

  /** The batch is made of due events, in order of creation, and leaves out none that is older. */
  ghost predicate OldestDue(events: seq<Event>, now: Time, size: nat, ids: seq<nat>) {
    && |ids| <= size
    && (forall i :: 0 <= i < |ids| ==> ids[i] < |events| && IsDue(events[ids[i]], now))
    && Distinct(ids)
    && (forall i, j :: 0 <= i < j < |ids| ==> events[ids[i]].createdAt <= events[ids[j]].createdAt)
    && (forall k :: 0 <= k < |events| && IsDue(events[k], now) && k !in ids ==> |ids| == size)
    && (forall k, i :: 0 <= k < |events| && IsDue(events[k], now) && k !in ids && 0 <= i < |ids| ==>
          events[ids[i]].createdAt <= events[k].createdAt)
  }

  ghost predicate ListsDue(events: seq<Event>, now: Time, due: seq<(Time, nat)>) {
    forall x :: x in due <==> x.1 < |events| && IsDue(events[x.1], now) && x.0 == events[x.1].createdAt
  }

  function Ids(pairs: seq<(Time, nat)>, n: nat): (ids: seq<nat>)
    requires n <= |pairs|
    ensures |ids| == n && forall i :: 0 <= i < n ==> ids[i] == pairs[i].1
  {
    seq(n, i requires 0 <= i < n => pairs[i].1)
  }

  lemma PrefixIsOldest(events: seq<Event>, now: Time, size: nat, sorted: seq<(Time, nat)>)
    requires ListsDue(events, now, sorted) && Distinct(sorted) && Sorted(CreatedBefore, sorted)
    ensures OldestDue(events, now, size, Ids(sorted, Min(size, |sorted|)))
  {
    var n := Min(size, |sorted|);
    var ids := Ids(sorted, n);
    forall i | 0 <= i < n
      ensures ids[i] < |events| && IsDue(events[ids[i]], now) && events[ids[i]].createdAt == sorted[i].0
    {
      assert sorted[i] in sorted;
    }
    forall m | 0 <= m < n ensures sorted[m].1 in ids {
      assert ids[m] == sorted[m].1;
    }
    forall k | 0 <= k < |events| && IsDue(events[k], now) && k !in ids
      ensures |ids| == size && forall i :: 0 <= i < |ids| ==> sorted[i].0 <= events[k].createdAt
    {
      assert (events[k].createdAt, k) in sorted;
      var j :| 0 <= j < |sorted| && sorted[j] == (events[k].createdAt, k);
    }
  }

  lemma TakeOldest(events: seq<Event>, now: Time, size: nat, due: seq<(Time, nat)>)
    requires ListsDue(events, now, due) && Distinct(due)
    ensures
      var sorted := Sort(CreatedBefore, due);
      OldestDue(events, now, size, Ids(sorted, Min(size, |sorted|)))
  {
    var sorted := Sort(CreatedBefore, due);
    SortIsSorting(CreatedBefore, due);
    SortKeepsDistinct(CreatedBefore, due);
    SameMembers(due, sorted);
    PrefixIsOldest(events, now, size, sorted);
  }

  /**
    The outbox tables. Whether a call is disturbed is an input: `faultless` says that no insert or commit raises;
    `undisturbed` that nobody else is there, every post is accepted and the clock readings of a call go forward
    and stay within a lease.
   */
  class OutboxDatabase {
    const faultless: bool
    const undisturbed: bool
    const calm := faultless && undisturbed
    const maxAttempts: int
    const lease: Time
    const batchSize: nat
    var events: seq<Event>
    var attempts: seq<Attempt>
    var subscriptions: seq<Subscription>
    var sessions: map<Worker, Session>
    var nextToken: Token
    var clock: Time
    ghost var trace: seq<Step>

    ghost function View(): State
      reads this
    {
      State(events, attempts, subscriptions, sessions, nextToken)
    }

    /** The database is where the recorded run leads from the empty one. */
    ghost predicate Valid()
      reads this
    {
      Reaches(maxAttempts, trace, View())
    }

    ghost function Deliveries(w: Worker): nat
      reads this
    {
      DeliveriesBy(maxAttempts, trace, w)
    }

    function Session(w: Worker): OutboxProtocol.Session
      reads this
    {
      if w in sessions then sessions[w] else Idle
    }

    constructor (maxAttempts: int, lease: Time, batchSize: nat, faultless: bool, undisturbed: bool)
      ensures Valid() && trace == [] && this.faultless == faultless && this.undisturbed == undisturbed
      ensures this.maxAttempts == maxAttempts && this.lease == lease && this.batchSize == batchSize
    {
      this.faultless, this.undisturbed := faultless, undisturbed;
      this.maxAttempts, this.lease, this.batchSize := maxAttempts, lease, batchSize;
      events, attempts, subscriptions, sessions, nextToken, clock := [], [], [], map[], 0, 0.0;
      trace := [];
    }

    /** A clock reading; the first of a call sets what the others go by. */
    method ReadClock(until: Time) returns (now: Time)
      modifies this`clock
      ensures clock == now && (calm && old(clock) < until ==> old(clock) <= now < until)
    {
      now := *;
      if calm && !(clock <= now < until) {
        now := clock;
      }
      clock := now;
    }

    /** URL check, decryption, signing and the POST: it answers with some status or raises. */
    method PostWebhook() returns (outcome: Outcome)
      ensures calm ==> Accepted(outcome)
    {
      outcome := *;
      if calm && !Accepted(outcome) {
        outcome := Answered(200);
      }
    }

    /** Anything the other workers and the API may do meanwhile; nothing, when it is calm. */
    method Interfere(w: Worker)
      requires Valid()
      modifies this`events, this`attempts, this`subscriptions, this`sessions, this`nextToken, this`trace
      ensures Valid() && old(trace) <= trace && Deliveries(w) == old(Deliveries(w)) && Session(w) == old(Session(w))
      ensures PayloadsKept(old(events), events) && (calm ==> View() == old(View()))
    {
      if calm {
        return;
      }
      var steps: seq<Step> := *;
      for i := 0 to |steps|
        invariant Valid() && old(trace) <= trace && Deliveries(w) == old(Deliveries(w)) && Session(w) == old(Session(w))
        invariant PayloadsKept(old(events), events)
      {
        if !StepOf(steps[i], w) {
          TakeStep(w, steps[i]);
        }
      }
    }

    method TakeStep(w: Worker, step: Step)
      requires Valid() && !StepOf(step, w)
      modifies this`events, this`attempts, this`subscriptions, this`sessions, this`nextToken, this`trace
      ensures Valid() && old(trace) <= trace && Deliveries(w) == old(Deliveries(w)) && Session(w) == old(Session(w))
      ensures PayloadsKept(old(events), events)
    {
      OneMoreStep(maxAttempts, trace, step, w);
      OthersKeepOut(maxAttempts, View(), step, w);
      PayloadsStay(maxAttempts, trace, step);
      var s := State(events, attempts, subscriptions, sessions, nextToken);
      var t := Next(maxAttempts, s, step);
      events, attempts, subscriptions := t.events, t.attempts, t.subscriptions;
      sessions, nextToken := t.sessions, t.nextToken;
      trace := trace + [step];
    }

    /** Records that the tables have just been taken through a step that delivers nothing. */
    ghost method Record(w: Worker, step: Step, before: State)
      requires Reaches(maxAttempts, trace, before) && View() == Next(maxAttempts, before, step) && !step.Finish?
      modifies this`trace
      ensures Valid() && old(trace) <= trace && Deliveries(w) == old(Deliveries(w))
      ensures trace == old(trace) + [step]
    {
      OneMoreStep(maxAttempts, trace, step, w);
      OnlyFinishCounts(maxAttempts, trace, step);
      trace := trace + [step];
    }

    method ClaimOutboxEvent(w: Worker, id: nat, now: Time) returns (token: Option<Token>)
      requires Valid() && Session(w).Idle?
      modifies this`events, this`sessions, this`nextToken, this`trace
      ensures Valid() && Deliveries(w) == old(Deliveries(w)) && trace == old(trace) + [Claim(w, id, now, lease)]
      ensures
        if id < |old(events)| && IsDue(old(events)[id], now) then
          && token == Some(old(nextToken)) && Session(w) == Claimed(id, token.value)
          && events == old(events)[id := old(events)[id].(claimedBy := token, claimExpiresAt := Some(now + lease))]
        else token.None? && Session(w).Idle? && events == old(events)
    {
      ghost var before := View();
      var newToken := nextToken;
      nextToken := nextToken + 1;
      token := None;
      if id < |events| && Claimable(events[id], now) {
        events := events[id := events[id].(claimedBy := Some(newToken), claimExpiresAt := Some(now + lease))];
        sessions := sessions[w := Claimed(id, newToken)];
        token := Some(newToken);
      }
      Record(w, Claim(w, id, now, lease), before);
    }

    method ReleaseOutboxClaim(w: Worker) returns (released: bool)
      requires Valid() && Session(w).Releasing?
      modifies this`events, this`sessions, this`trace
      ensures Valid() && Deliveries(w) == old(Deliveries(w)) && trace == old(trace) + [Release(w)]
      ensures Session(w).Idle?
      ensures
        var me := old(Session(w));
        && (released <==> CarriesToken(old(View()), me.event, me.token))
        && events == (if released then old(events)[me.event := Unclaimed(old(events)[me.event])] else old(events))
    {
      ghost var before := View();
      var me := Session(w);
      released := false;
      if me.event < |events| && events[me.event].claimedBy == Some(me.token) {
        events := events[me.event := events[me.event].(claimedBy := None, claimExpiresAt := None)];
        released := true;
      }
      sessions := sessions[w := Idle];
      Record(w, Release(w), before);
    }

    /** `db.get`, the ownership test, the query for enabled subscriptions and `json.loads`. */
    method LoadEvent(w: Worker)
      requires Valid() && Session(w).Claimed?
      modifies this`sessions, this`trace
      ensures Valid() && Deliveries(w) == old(Deliveries(w)) && trace == old(trace) + [Load(w)]
      ensures
        var me := old(Session(w));
        if !CarriesToken(View(), me.event, me.token) then Session(w).Idle?
        else
          var row := events[me.event];
          exists subs :: Subscribed(View(), row, subs)
            && Session(w) == if subs != [] && !row.payloadIsJson then Releasing(me.event, me.token)
                             else Sending(me.event, me.token, row, subs, 0, Check, [], false, None)
    {
      ghost var before := View();
      LoadFinds(maxAttempts, before, w);
      var me := Session(w);
      if me.event >= |events| || events[me.event].claimedBy != Some(me.token) {
        sessions := sessions[w := Idle];
      } else {
        var row := events[me.event];
        var subs := MatchingSubs(subscriptions, row, |subscriptions|);
        if subs != [] && !row.payloadIsJson {
          sessions := sessions[w := Releasing(me.event, me.token)];
        } else {
          sessions := sessions[w := Sending(me.event, me.token, row, subs, 0, Check, [], false, None)];
        }
        assert Subscribed(View(), row, subs);
      }
      Record(w, Load(w), before);
    }

    method AlreadyDelivered(w: Worker) returns (skip: bool)
      requires Valid() && Session(w).Sending? && Session(w).next < |Session(w).subs| && Session(w).phase == Check
      modifies this`sessions, this`trace
      ensures Valid() && Deliveries(w) == old(Deliveries(w)) && trace == old(trace) + [CheckDelivered(w)]
      ensures
        var me := old(Session(w));
        && (skip <==> SucceededBefore(old(View()), me.event, me.subs[me.next]))
        && Session(w) == if skip then me.(next := me.next + 1) else me.(phase := Recheck)
    {
      ghost var before := View();
      var me := Session(w);
      skip := HasSuccess(attempts, me.event, me.subs[me.next]);
      sessions := sessions[w := if skip then Advance(me) else me.(phase := Recheck)];
      Record(w, CheckDelivered(w), before);
    }

    method SubscriptionEnabled(w: Worker) returns (enabled: bool)
      requires Valid() && Session(w).Sending? && Session(w).next < |Session(w).subs| && Session(w).phase == Recheck
      modifies this`sessions, this`trace
      ensures Valid() && Deliveries(w) == old(Deliveries(w)) && trace == old(trace) + [CheckEnabled(w)]
      ensures
        var me := old(Session(w));
        && (enabled <==> me.subs[me.next] < |subscriptions| && subscriptions[me.subs[me.next]].enabled)
        && Session(w) == if enabled then me.(phase := Phase.Send) else me.(next := me.next + 1, phase := Check)
    {
      ghost var before := View();
      var me := Session(w);
      var sub := me.subs[me.next];
      enabled := sub < |subscriptions| && subscriptions[sub].enabled;
      sessions := sessions[w := if enabled then me.(phase := Phase.Send) else Advance(me)];
      Record(w, CheckEnabled(w), before);
    }

    /** `db.add` of the attempt row and the update of `delivery_failed`; nothing is flushed. */
    method RecordAttempt(w: Worker, outcome: Outcome)
      requires Valid() && Session(w).Sending? && Session(w).next < |Session(w).subs| && Session(w).phase == Phase.Send
      modifies this`sessions, this`trace
      ensures Valid() && Deliveries(w) == old(Deliveries(w)) && trace == old(trace) + [Post(w, outcome)]
      ensures
        var me := old(Session(w));
        var row := Attempt(me.event, me.subs[me.next], me.row.attempts + 1, Accepted(outcome), outcome);
        Session(w) == me.(next := me.next + 1, phase := Check, pending := me.pending + [row],
                          failed := me.failed || !Accepted(outcome),
                          lastError := if Accepted(outcome) then me.lastError else Some(outcome))
    {
      ghost var before := View();
      var me := Session(w);
      var row := Attempt(me.event, me.subs[me.next], me.row.attempts + 1, Successful(outcome), outcome);
      var deliveryFailed, lastError := me.failed, me.lastError;
      if !(outcome.Answered? && 200 <= outcome.status < 300) {
        deliveryFailed, lastError := true, Some(outcome);
      }
      sessions := sessions[w := me.(next := me.next + 1, phase := Check, pending := me.pending + [row],
                                    failed := deliveryFailed, lastError := lastError)];
      Record(w, Post(w, outcome), before);
    }

    method FenceOutboxClaim(w: Worker, now: Time) returns (fenced: bool)
      requires Valid() && AtFence(Session(w))
      ensures
        var me := Session(w);
        fenced <==> me.event < |events| && StillOwns(events[me.event], me.token, now)
      ensures fenced == Passes(View(), w, now)
    {
      var me := Session(w);
      fenced := me.event < |events|
             && events[me.event].claimedBy == Some(me.token)
             && events[me.event].claimExpiresAt.Some?
             && events[me.event].claimExpiresAt.value > now;
    }

    /** The columns of the loaded event that a pass assigns. */
    method Finalise(w: Worker, stamp: Time) returns (event: Event, delivered: bool)
      requires Session(w).Sending?
      ensures event == Finalised(maxAttempts, Session(w), stamp)
      ensures delivered <==> Session(w).subs == [] || !Session(w).failed
    {
      var me := Session(w);
      event, delivered := me.row, false;
      if me.subs == [] {
        event := event.(delivered := true, deliveredAt := Some(stamp));
        delivered := true;
      } else {
        event := event.(attempts := event.attempts + 1, lastError := me.lastError);
        if me.failed {
          if event.attempts >= maxAttempts {
            event := event.(deadLettered := true, nextAttemptAt := stamp);
          } else {
            event := event.(nextAttemptAt := stamp + BackoffSeconds(event.attempts) as real);
          }
        } else {
          event := event.(delivered := true, deliveredAt := Some(stamp), lastError := None);
          delivered := true;
        }
      }
      event := event.(claimedBy := None, claimExpiresAt := None);
    }

    /** The fence and what follows it in the same transaction. */
    method FinishPass(w: Worker, now: Time, stamp: Time) returns (delivered: bool)
      requires Valid() && AtFence(Session(w))
      modifies this`events, this`attempts, this`sessions, this`trace
      ensures Valid() && trace == old(trace) + [Finish(w, now, stamp)]
      ensures Deliveries(w) == old(Deliveries(w)) + if delivered then 1 else 0
      ensures Session(w).Idle? && Concludes(maxAttempts, old(View()), View(), old(Session(w)), now, stamp)
      ensures
        var me := old(Session(w));
        delivered <==> StillOwns(old(events)[me.event], me.token, now) && (me.subs == [] || !me.failed)
    {
      ghost var before := View();
      FinishConcludes(maxAttempts, trace, w, now, stamp);
      var me := Session(w);
      delivered := false;
      var fenced := FenceOutboxClaim(w, now);
      if fenced {
        var event;
        event, delivered := Finalise(w, stamp);
        events := events[me.event := event];
        attempts := attempts + me.pending;
      }
      sessions := sessions[w := Idle];
      FinishCommitted(w, now, stamp, before, delivered);
    }

    ghost method FinishCommitted(w: Worker, now: Time, stamp: Time, before: State, delivered: bool)
      requires Reaches(maxAttempts, trace, before) && AtFence(SessionOf(before, w))
      requires View() == Next(maxAttempts, before, Finish(w, now, stamp))
      requires delivered
        <==> Passes(before, w, now) && (SessionOf(before, w).failed ==> SessionOf(before, w).subs == [])
      modifies this`trace
      ensures Valid() && trace == old(trace) + [Finish(w, now, stamp)]
      ensures Deliveries(w) == old(Deliveries(w)) + if delivered then 1 else 0
    {
      OneMoreStep(maxAttempts, trace, Finish(w, now, stamp), w);
      FinishCounts(maxAttempts, trace, w, now, stamp);
      trace := trace + [Finish(w, now, stamp)];
    }

    /** The handlers around the commit and around adding a row: rollback, which forgets the pass, then release. */
    method RollbackAndRelease(w: Worker)
      requires Valid() && Session(w).Sending?
      modifies this`events, this`attempts, this`subscriptions, this`sessions, this`nextToken, this`trace
      ensures Valid() && old(trace) <= trace && Deliveries(w) == old(Deliveries(w)) && Session(w).Idle?
      ensures PayloadsKept(old(events), events)
    {
      ghost var before := View();
      sessions := sessions[w := Releasing(Session(w).event, Session(w).token)];
      Record(w, CommitFails(w), before);
      Interfere(w);
      var _ := ReleaseOutboxClaim(w);
    }

    /** In the calm, the worker is on a pass over event `id`, on a lease that lasts until `until`, without a failure. */
    ghost predicate OnCourse(w: Worker, id: nat, until: Time)
      reads this
    {
      var me := Session(w);
      && calm && me.Sending? && me.event == id && !me.failed
      && id < |events| && events[id] == me.row && clock < until && StillOwns(events[id], me.token, clock)
      && until <= events[id].claimExpiresAt.value
    }

    /** The two looks at the tables and the POST for the next subscription of the list. */
    method DeliverToNext(w: Worker, ghost id: nat, ghost until: Time) returns (raised: bool)
      requires Valid() && Session(w).Sending? && Session(w).next < |Session(w).subs| && Session(w).phase == Check
      modifies this`events, this`attempts, this`subscriptions, this`sessions, this`nextToken, this`trace
      ensures Valid() && old(trace) <= trace && Deliveries(w) == old(Deliveries(w)) && PayloadsKept(old(events), events)
      ensures raised ==> Session(w).Idle? && !faultless
      ensures !raised ==>
        && Session(w).Sending? && Session(w).subs == old(Session(w)).subs
        && Session(w).next == old(Session(w)).next + 1 && Session(w).phase == Check
      ensures old(OnCourse(w, id, until)) ==> OnCourse(w, id, until) && events == old(events)
    {
      raised := false;
      var skip := AlreadyDelivered(w);
      if !skip {
        Interfere(w);
        raised := DeliverUnlessDisabled(w, id, until);
      }
    }

    method DeliverUnlessDisabled(w: Worker, ghost id: nat, ghost until: Time) returns (raised: bool)
      requires Valid() && Session(w).Sending? && Session(w).next < |Session(w).subs| && Session(w).phase == Recheck
      modifies this`events, this`attempts, this`subscriptions, this`sessions, this`nextToken, this`trace
      ensures Valid() && old(trace) <= trace && Deliveries(w) == old(Deliveries(w)) && PayloadsKept(old(events), events)
      ensures raised ==> Session(w).Idle? && !faultless
      ensures !raised ==>
        && Session(w).Sending? && Session(w).subs == old(Session(w)).subs
        && Session(w).next == old(Session(w)).next + 1 && Session(w).phase == Check
      ensures old(OnCourse(w, id, until)) ==> OnCourse(w, id, until) && events == old(events)
    {
      raised := false;
      var enabled := SubscriptionEnabled(w);
      if enabled {
        Interfere(w);
        raised := PostAndRecord(w, id, until);
      }
    }

    method PostAndRecord(w: Worker, ghost id: nat, ghost until: Time) returns (raised: bool)
      requires Valid() && Session(w).Sending? && Session(w).next < |Session(w).subs| && Session(w).phase == Phase.Send
      modifies this`events, this`attempts, this`subscriptions, this`sessions, this`nextToken, this`trace
      ensures Valid() && old(trace) <= trace && Deliveries(w) == old(Deliveries(w)) && PayloadsKept(old(events), events)
      ensures raised ==> Session(w).Idle? && !faultless
      ensures !raised ==>
        && Session(w).Sending? && Session(w).subs == old(Session(w)).subs
        && Session(w).next == old(Session(w)).next + 1 && Session(w).phase == Check
      ensures old(OnCourse(w, id, until)) ==> OnCourse(w, id, until) && events == old(events)
    {
      var outcome := PostWebhook();
      var addRaises: bool := *;
      raised := outcome.Failed? && addRaises && !faultless;
      if raised {
        RollbackAndRelease(w);
      } else {
        RecordAttempt(w, outcome);
      }
    }

    method DeliverToAll(w: Worker, ghost id: nat, ghost until: Time) returns (raised: bool)
      requires Valid() && Session(w).Sending? && Session(w).next <= |Session(w).subs| && Session(w).phase == Check
      modifies this`events, this`attempts, this`subscriptions, this`sessions, this`nextToken, this`trace
      ensures Valid() && old(trace) <= trace && Deliveries(w) == old(Deliveries(w)) && PayloadsKept(old(events), events)
      ensures if raised then Session(w).Idle? && !faultless else AtFence(Session(w))
      ensures old(OnCourse(w, id, until)) ==> OnCourse(w, id, until) && events == old(events)
    {
      raised := false;
      while Session(w).next < |Session(w).subs|
        invariant Valid() && old(trace) <= trace && Deliveries(w) == old(Deliveries(w))
        invariant PayloadsKept(old(events), events)
        invariant Session(w).Sending? && Session(w).next <= |Session(w).subs| && Session(w).phase == Check
        invariant old(OnCourse(w, id, until)) ==> OnCourse(w, id, until) && events == old(events)
        decreases |Session(w).subs| - Session(w).next
      {
        raised := DeliverToNext(w, id, until);
        if raised {
          return;
        }
        Interfere(w);
      }
    }

    /** The event may be delivered in the calm: it is due, well-formed, and no reading will be later than a lease. */
    ghost predicate Ready(id: nat, until: Time)
      reads this
    {
      && calm && id < |events| && IsDue(events[id], clock) && events[id].payloadIsJson
      && clock < until <= clock + lease
    }

    /** The body of the loop over the batch. */
    method DeliverEvent(w: Worker, id: nat, until: Time) returns (pass: Pass)
      requires Valid() && Session(w).Idle?
      modifies this
      ensures Valid() && old(trace) <= trace && Deliveries(w) == old(Deliveries(w)) + if pass.Delivered? then 1 else 0
      ensures Session(w).Idle? && PayloadsKept(old(events), events)
      ensures pass.Raised? ==> !faultless || !AllJson(events)
      ensures old(Ready(id, until)) ==>
        pass.Delivered? && DeliversOnly(old(events), events, id) && old(clock) <= clock < until
    {
      var claimNow := ReadClock(until);
      var token := ClaimOutboxEvent(w, id, claimNow);
      Interfere(w);
      if token.None? {
        return NotDelivered;
      }
      pass := DeliverClaimed(w, id, until);
    }

    /** In the calm, the worker has just claimed event `id`. */
    ghost predicate HasClaimed(w: Worker, id: nat, until: Time)
      reads this
    {
      && calm && Session(w).Claimed? && Session(w).event == id && id < |events| && clock < until
      && StillOwns(events[id], Session(w).token, clock) && until <= events[id].claimExpiresAt.value
      && events[id].payloadIsJson
    }

    /** From the loading of a claimed event to its commit or rollback. */
    method DeliverClaimed(w: Worker, ghost id: nat, until: Time) returns (pass: Pass)
      requires Valid() && Session(w).Claimed?
      modifies this
      ensures Valid() && old(trace) <= trace && Deliveries(w) == old(Deliveries(w)) + if pass.Delivered? then 1 else 0
      ensures Session(w).Idle? && PayloadsKept(old(events), events)
      ensures pass.Raised? ==> !faultless || !AllJson(events)
      ensures old(HasClaimed(w, id, until)) ==>
        pass.Delivered? && DeliversOnly(old(events), events, id) && old(clock) <= clock < until
    {
      LoadEvent(w);
      Interfere(w);
      pass := DeliverLoaded(w, id, until);
    }

    method DeliverLoaded(w: Worker, ghost id: nat, until: Time) returns (pass: Pass)
      requires Valid() && (Session(w).Idle? || Session(w).Releasing? || Session(w).Sending?)
      requires Session(w).Releasing? ==> !AllJson(events)
      requires Session(w).Sending? ==> Session(w).next == 0 && Session(w).phase == Check
      modifies this
      ensures Valid() && old(trace) <= trace && Deliveries(w) == old(Deliveries(w)) + if pass.Delivered? then 1 else 0
      ensures Session(w).Idle? && PayloadsKept(old(events), events)
      ensures pass.Raised? ==> !faultless || !AllJson(events)
      ensures old(OnCourse(w, id, until)) ==>
        pass.Delivered? && DeliversOnly(old(events), events, id) && old(clock) <= clock < until
    {
      if Session(w).Sending? {
        var raised := DeliverToAll(w, id, until);
        if raised {
          return Raised;
        }
        pass := Conclude(w, id, until);
      } else if Session(w).Releasing? {
        var _ := ReleaseOutboxClaim(w);
        pass := Raised;
      } else {
        pass := NotDelivered;
      }
    }

    /** Fence, finalise and commit, or roll back and release when the commit raises. */
    method Conclude(w: Worker, ghost id: nat, until: Time) returns (pass: Pass)
      requires Valid() && AtFence(Session(w))
      modifies this
      ensures Valid() && old(trace) <= trace && Deliveries(w) == old(Deliveries(w)) + if pass.Delivered? then 1 else 0
      ensures Session(w).Idle? && PayloadsKept(old(events), events)
      ensures pass.Raised? ==> !faultless
      ensures old(OnCourse(w, id, until)) ==>
        pass.Delivered? && DeliversOnly(old(events), events, id) && old(clock) <= clock < until
    {
      var now := ReadClock(until);
      var stamp := ReadClock(until);
      var fenced := FenceOutboxClaim(w, now);
      var commitRaises: bool := *;
      if fenced && commitRaises && !faultless {
        RollbackAndRelease(w);
        pass := Raised;
      } else {
        pass := FinishOnCourse(w, id, until, now, stamp);
      }
    }

    /** The pass delivers if the fence finds the lease running and nothing has failed. */
    method FinishOnCourse(w: Worker, ghost id: nat, ghost until: Time, now: Time, stamp: Time) returns (pass: Pass)
      requires Valid() && AtFence(Session(w))
      modifies this`events, this`attempts, this`sessions, this`trace
      ensures Valid() && old(trace) <= trace && Deliveries(w) == old(Deliveries(w)) + if pass.Delivered? then 1 else 0
      ensures Session(w).Idle? && PayloadsKept(old(events), events) && !pass.Raised?
      ensures old(OnCourse(w, id, until)) && now < until ==> pass.Delivered? && DeliversOnly(old(events), events, id)
    {
      PostsAreTold(maxAttempts, trace);
      var delivered := FinishPass(w, now, stamp);
      pass := if delivered then Delivered else NotDelivered;
    }

    /** The batch query: due events, oldest first, at most `size` of them. */
    method SelectBatch(now: Time, size: nat) returns (ids: seq<nat>)
      ensures OldestDue(events, now, size, ids)
    {
      var due := DueEvents(now);
      var sorted := Sort(CreatedBefore, due);
      ids := Ids(sorted, Min(size, |sorted|));
      TakeOldest(events, now, size, due);
    }

    method DueEvents(now: Time) returns (due: seq<(Time, nat)>)
      ensures ListsDue(events, now, due) && Distinct(due)
    {
      due := [];
      for k := 0 to |events|
        invariant forall x :: x in due <==> x.1 < k && IsDue(events[x.1], now) && x.0 == events[x.1].createdAt
        invariant forall i, j :: 0 <= i < j < |due| ==> due[i].1 < due[j].1
      {
        if Claimable(events[k], now) {
          due := due + [(events[k].createdAt, k)];
        }
      }
    }

    /** Exactly the events of the batch have been delivered. */
    ghost predicate DeliveredBatch(before: seq<Event>, ids: seq<nat>)
      reads this
    {
      |events| == |before|
      && forall k :: 0 <= k < |before| ==> if k in ids then events[k].delivered else events[k] == before[k]
    }

    /**
      `deliver_pending_events`: it returns the number of events its own commits turned delivered, and raises only if
      an insert or a commit did, or some payload is no JSON. In the calm it delivers the whole batch.
     */
    method DeliverPendingEvents(w: Worker, requested: Option<nat>) returns (result: Result)
      requires Valid() && Session(w).Idle?
      modifies this
      ensures Valid() && old(trace) <= trace && Session(w).Idle?
      ensures result.Count? ==> result.delivered == Deliveries(w) - old(Deliveries(w))
      ensures result.Exception? ==> !faultless || !AllJson(events)
      ensures calm && 0.0 < lease && AllJson(old(events)) ==>
        var size := if requested.Some? && requested.value != 0 then requested.value else batchSize;
        exists now, ids :: OldestDue(old(events), now, size, ids) && DeliveredBatch(old(events), ids)
                           && result == Count(|ids|)
    {
      var now := ReadClock(clock);
      var size := if requested.Some? && requested.value != 0 then requested.value else batchSize;
      var ids := SelectBatch(now, size);
      var deliveredCount := 0;
      var until := now + lease;
      ghost var before := events;
      for i := 0 to |ids|
        invariant Valid() && old(trace) <= trace && Session(w).Idle?
        invariant Deliveries(w) == old(Deliveries(w)) + deliveredCount
        invariant calm && 0.0 < lease && AllJson(before) ==>
          && deliveredCount == i && now <= clock < until && DeliveredBatch(before, ids[..i])
      {
        Interfere(w);
        var pass := DeliverEvent(w, ids[i], until);
        if pass.Raised? {
          return Exception;
        }
        if pass.Delivered? {
          deliveredCount := deliveredCount + 1;
        }
      }
      assert ids[..|ids|] == ids;
      result := Count(deliveredCount);
    }
  }
}
