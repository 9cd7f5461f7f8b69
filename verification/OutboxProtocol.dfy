/**
  The outbox delivery protocol of app/outbox_worker.py as a state machine.

  The committed database is three tables whose row k has id k (rows are never deleted) and the
  memory of each worker process is a `Session`: the dirty ORM event, the attempt rows that are added
  but not flushed, and the position in the loop over subscriptions. The engine runs with
  `autoflush=False`, so nothing in a `Session` is visible to others before the fenced commit.
  Every step carries its own clock readings; nothing is assumed about them unless a lemma says so.
 */
module OutboxProtocol {
  import opened Prelude

  type Token = nat
  type Worker = nat

  /** What `requests.post`, or anything raising before it, came to. */
  datatype Outcome = Answered(status: int) | Failed(error: string)

  datatype Event = Event(
    tenant: string,
    eventType: string,
    payloadIsJson: bool,
    delivered: bool,
    deadLettered: bool,
    attempts: nat,
    nextAttemptAt: Time,
    claimedBy: Option<Token>,
    claimExpiresAt: Option<Time>,
    lastError: Option<Outcome>,
    deliveredAt: Option<Time>,
    createdAt: Time)

  datatype Attempt = Attempt(event: nat, subscription: nat, number: nat, successful: bool, outcome: Outcome)

  datatype Subscription = Subscription(tenant: string, eventType: string, enabled: bool)

  /** Where a worker stands with the subscription it is looking at. */
  datatype Phase = Check | Recheck | Send

  datatype Session =
    | Idle
    | Claimed(event: nat, token: Token)
    | Sending(event: nat, token: Token, row: Event, subs: seq<nat>, next: nat, phase: Phase,
              pending: seq<Attempt>, failed: bool, lastError: Option<Outcome>)
    | Releasing(event: nat, token: Token)

  datatype State = State(
    events: seq<Event>,
    attempts: seq<Attempt>,
    subscriptions: seq<Subscription>,
    sessions: map<Worker, Session>,
    nextToken: Token)

  datatype Step =
    | Emit(tenant: string, eventType: string, payloadIsJson: bool, at: Time)
    | Subscribe(subscription: Subscription)
    | Disable(id: nat)
    | Claim(worker: Worker, event: nat, now: Time, lease: Time)
    | Load(worker: Worker)
    | CheckDelivered(worker: Worker)
    | CheckEnabled(worker: Worker)
    | Post(worker: Worker, outcome: Outcome)
    | Finish(worker: Worker, now: Time, stamp: Time)
    | CommitFails(worker: Worker)
    | Release(worker: Worker)
    | Crash(worker: Worker)

  const MAX_BACKOFF := 300

  function Pow2(n: nat): (r: nat)
    ensures r >= 1
  {
    if n == 0 then 1 else 2 * Pow2(n - 1)
  }

  function BackoffSeconds(attempts: int): (r: nat)
    ensures 1 <= r <= MAX_BACKOFF
  {
    Min(Pow2(Max(attempts, 0)), MAX_BACKOFF)
  }

  function SessionOf(s: State, w: Worker): Session {
    if w in s.sessions then s.sessions[w] else Idle
  }

  function SetSession(s: State, w: Worker, session: Session): State {
    s.(sessions := s.sessions[w := session])
  }

  predicate Terminal(e: Event) { e.delivered || e.deadLettered }

  /** The WHERE clause shared by the batch query and the claiming UPDATE. */
  predicate Claimable(e: Event, now: Time) {
    && !e.delivered
    && !e.deadLettered
    && e.nextAttemptAt <= now
    && (e.claimedBy.None? || e.claimExpiresAt.None? || e.claimExpiresAt.value <= now)
  }

  /** The WHERE clause of the fencing UPDATE. */
  predicate Fenced(e: Event, token: Token, now: Time) {
    e.claimedBy == Some(token) && e.claimExpiresAt.Some? && e.claimExpiresAt.value > now
  }

  predicate HasSuccess(rows: seq<Attempt>, event: nat, subscription: nat) {
    exists i :: 0 <= i < |rows| && rows[i].event == event && rows[i].subscription == subscription && rows[i].successful
  }

  predicate Matches(sub: Subscription, e: Event) {
    sub.tenant == e.tenant && sub.eventType == e.eventType
  }

  /** Ids of the enabled subscriptions for an event among the first `n` rows. */
  function MatchingSubs(subscriptions: seq<Subscription>, e: Event, n: nat): (ids: seq<nat>)
    requires n <= |subscriptions|
    ensures forall i :: 0 <= i < |ids| ==> ids[i] < n
    ensures forall i, j :: 0 <= i < j < |ids| ==> ids[i] < ids[j]
    ensures forall k :: k in ids <==> 0 <= k < n && Matches(subscriptions[k], e) && subscriptions[k].enabled
  {
    if n == 0 then []
    else
      var rest := MatchingSubs(subscriptions, e, n - 1);
      if Matches(subscriptions[n - 1], e) && subscriptions[n - 1].enabled then rest + [n - 1] else rest
  }

  predicate Successful(outcome: Outcome) {
    outcome.Answered? && 200 <= outcome.status < 300
  }

  /** The event row written by a fenced commit of a worker that loaded `row`. */
  function Finalised(maxAttempts: int, me: Session, stamp: Time): Event
    requires me.Sending?
  {
    var free := me.row.(claimedBy := None, claimExpiresAt := None);
    if me.subs == [] then free.(delivered := true, deliveredAt := Some(stamp))
    else
      var counted := free.(attempts := me.row.attempts + 1);
      if !me.failed then counted.(delivered := true, deliveredAt := Some(stamp), lastError := None)
      else if me.row.attempts + 1 >= maxAttempts then
        counted.(deadLettered := true, nextAttemptAt := stamp, lastError := me.lastError)
      else
        counted.(nextAttemptAt := stamp + BackoffSeconds(me.row.attempts + 1) as real, lastError := me.lastError)
  }

  /** A worker is past its loop over subscriptions and stands at the fence. */
  predicate AtFence(me: Session) {
    me.Sending? && me.next == |me.subs|
  }

  predicate Passes(s: State, w: Worker, now: Time) {
    var me := SessionOf(s, w);
    AtFence(me) && me.event < |s.events| && Fenced(s.events[me.event], me.token, now)
  }

  function NextClaim(s: State, w: Worker, event: nat, now: Time, lease: Time): State {
    var used := s.(nextToken := s.nextToken + 1);
    if event < |s.events| && Claimable(s.events[event], now) then
      SetSession(
        used.(events := s.events[event := s.events[event].(claimedBy := Some(s.nextToken),
                                                           claimExpiresAt := Some(now + lease))]),
        w, Claimed(event, s.nextToken))
    else used
  }

  /** `db.get`, the ownership test, the subscription query and the payload parse. */
  function NextLoad(s: State, w: Worker, event: nat, token: Token): State {
    if event >= |s.events| || s.events[event].claimedBy != Some(token) then SetSession(s, w, Idle)
    else
      var row := s.events[event];
      var subs := MatchingSubs(s.subscriptions, row, |s.subscriptions|);
      if subs != [] && !row.payloadIsJson then SetSession(s, w, Releasing(event, token))
      else SetSession(s, w, Sending(event, token, row, subs, 0, Check, [], false, None))
  }

  function Advance(me: Session): Session
    requires me.Sending?
  {
    me.(next := me.next + 1, phase := Check)
  }

  function AfterPost(me: Session, outcome: Outcome): Session
    requires me.Sending? && me.next < |me.subs|
  {
    var row := Attempt(me.event, me.subs[me.next], me.row.attempts + 1, Successful(outcome), outcome);
    var sent := Advance(me).(pending := me.pending + [row]);
    if Successful(outcome) then sent else sent.(failed := true, lastError := Some(outcome))
  }

  /** Fence and commit: one transaction, the row locked from the conditional UPDATE on. */
  function NextFinish(maxAttempts: int, s: State, w: Worker, now: Time, stamp: Time): State
    requires AtFence(SessionOf(s, w))
  {
    var me := SessionOf(s, w);
    if Passes(s, w, now) then
      SetSession(s.(events := s.events[me.event := Finalised(maxAttempts, me, stamp)],
                    attempts := s.attempts + me.pending), w, Idle)
    else SetSession(s, w, Idle)
  }

  function NextRelease(s: State, w: Worker, event: nat, token: Token): State {
    if event < |s.events| && s.events[event].claimedBy == Some(token) then
      SetSession(s.(events := s.events[event := s.events[event].(claimedBy := None, claimExpiresAt := None)]), w, Idle)
    else SetSession(s, w, Idle)
  }

  /** One step of the system; a step that its worker cannot take changes nothing. */
  function Next(maxAttempts: int, s: State, step: Step): State {
    match step
    case Emit(tenant, eventType, json, at) =>
      s.(events := s.events + [Event(tenant, eventType, json, false, false, 0, at, None, None, None, None, at)])
    case Subscribe(sub) => s.(subscriptions := s.subscriptions + [sub])
    case Disable(id) =>
      if id < |s.subscriptions| then
        s.(subscriptions := s.subscriptions[id := s.subscriptions[id].(enabled := false)])
      else s
    case Claim(w, event, now, lease) =>
      if SessionOf(s, w).Idle? then NextClaim(s, w, event, now, lease) else s
    case Load(w) =>
      var me := SessionOf(s, w);
      if me.Claimed? then NextLoad(s, w, me.event, me.token) else s
    case CheckDelivered(w) =>
      var me := SessionOf(s, w);
      if me.Sending? && me.next < |me.subs| && me.phase == Check then
        SetSession(s, w,
                   if HasSuccess(s.attempts, me.event, me.subs[me.next]) then Advance(me) else me.(phase := Recheck))
      else s
    case CheckEnabled(w) =>
      var me := SessionOf(s, w);
      if me.Sending? && me.next < |me.subs| && me.phase == Recheck then
        var sub := me.subs[me.next];
        SetSession(s, w,
                   if sub < |s.subscriptions| && s.subscriptions[sub].enabled then me.(phase := Phase.Send)
                   else Advance(me))
      else s
    case Post(w, outcome) =>
      var me := SessionOf(s, w);
      if me.Sending? && me.next < |me.subs| && me.phase == Phase.Send then SetSession(s, w, AfterPost(me, outcome))
      else s
    case Finish(w, now, stamp) =>
      if AtFence(SessionOf(s, w)) then NextFinish(maxAttempts, s, w, now, stamp) else s
    case CommitFails(w) =>
      var me := SessionOf(s, w);
      if me.Sending? then SetSession(s, w, Releasing(me.event, me.token)) else s
    case Release(w) =>
      var me := SessionOf(s, w);
      if me.Releasing? then NextRelease(s, w, me.event, me.token) else s
    case Crash(w) => SetSession(s, w, Idle)
  }

  const INITIAL := State([], [], [], map[], 0)

  function Run(maxAttempts: int, s: State, run: seq<Step>): State {
    if run == [] then s
    else Next(maxAttempts, Run(maxAttempts, s, run[..|run| - 1]), run[|run| - 1])
  }

  /**
    The run from the empty database leads to this state. (The quantifier keeps proofs from unfolding runs where
    they need not.)
   */
  ghost predicate Reaches(maxAttempts: int, run: seq<Step>, s: State) {
    forall r :: r == run ==> Run(maxAttempts, INITIAL, r) == s
  }
}
