/** Who gets in: the tests of a request's token, and that every committed log passed them. */
module AccessAuthentication {
  import opened Prelude
  import opened AccessProtocol
  import opened AccessSafety

  predicate DeviceEnabled(s: State, api: Api) {
    var device := DeviceKey(api.tenantId, api.deviceId);
    device in s.db.devices && s.db.devices[device]
  }

  predicate TokenRuns(s: State, api: Api, now: Time) {
    api.token in s.guards.tokens && now < s.guards.tokens[api.token].exp as real
  }

  /** Everything about the request is in order. */
  predicate MayEnter(s: State, api: Api, now: Time) {
    && DeviceEnabled(s, api) && TokenRuns(s, api, now)
    && var claims := s.guards.tokens[api.token];
       && claims.tenantId == api.tenantId && claims.deviceId == api.deviceId && claims.scope == api.requestType
       && claims.tenantId in s.db.tenants
  }

  /** The first thing that is not. */
  predicate IsReason(s: State, api: Api, now: Time, error: Error) {
    if !DeviceEnabled(s, api) then error == DeviceNotFound
    else if api.token !in s.guards.tokens then error == InvalidToken
    else
      var claims := s.guards.tokens[api.token];
      if !TokenRuns(s, api, now) then error == TokenExpired
      else if claims.tenantId != api.tenantId then error == TenantMismatch
      else if claims.deviceId != api.deviceId then error == DeviceMismatch
      else if claims.scope != api.requestType then error == ScopeMismatch
      else claims.tenantId !in s.db.tenants && error == NoTenant
  }

  /** The call that a request becomes: its token's claims, and whether its tenant has quota left now. */
  function Entering(s: State, api: Api): Call
    requires api.token in s.guards.tokens && s.guards.tokens[api.token].tenantId in s.db.tenants
  {
    var claims := s.guards.tokens[api.token];
    Call(s.nextCall, api, claims, s.db.tenants[claims.tenantId].usageCount < s.db.tenants[claims.tenantId].monthlyQuota)
  }

  /** An idle worker's request is authenticated exactly if everything is in order, or else refused for the reason. */
  lemma EntersExactlyWhen(digest: Digest, s: State, w: Worker, api: Api, now: Time)
    requires (SessionOf(s, w).Idle? || SessionOf(s, w).Done?) && s.guards.clock <= now
    ensures
      var t := Next(digest, s, Authenticate(w, api, now));
      && t.db == s.db && t.guards == s.guards.(clock := now)
      && if MayEnter(s, api, now) then
           && t.nextCall == s.nextCall + 1
           && t.sessions == s.sessions[w := Authenticated(Entering(s, api))]
         else
           && t.nextCall == s.nextCall
           && exists error :: IsReason(s, api, now, error) && t.sessions == s.sessions[w := Done(Refused(error))]
  {
    if !MayEnter(s, api, now) {
      assert IsReason(s, api, now, AuthenticationError(s, api, now).value);
    }
  }

  // ----- Over runs

  /** Step `k` of the run authenticated this call. */
  ghost predicate EnteredAt(digest: Digest, run: seq<Step>, k: nat, call: Call) {
    && k < |run| && run[k].Authenticate?
    && var s := Run(digest, run[..k]);
       s.guards.clock <= run[k].now && MayEnter(s, run[k].api, run[k].now) && call == Entering(s, run[k].api)
  }

  ghost predicate HasEntered(digest: Digest, run: seq<Step>, call: Call) {
    exists k: nat :: EnteredAt(digest, run, k, call)
  }

  /** The log belongs to the call: number, token, identity and request. */
  predicate LoggedFor(entry: Entry, call: Call) {
    && entry.callId == call.id && entry.jti == call.api.token
    && entry.row.tenantId == call.claims.tenantId && entry.row.rightId == call.claims.rightId
    && entry.row.userId == call.claims.sub && entry.row.requestType == call.claims.scope
    && entry.row.newOwnerId == call.api.newOwnerId && Circumstances(call.api, entry.row)
  }

  ghost predicate CallsEntered(digest: Digest, run: seq<Step>, s: State) {
    forall w :: w in s.sessions && CallOf(s.sessions[w]).Some? ==> HasEntered(digest, run, CallOf(s.sessions[w]).value)
  }

  ghost predicate LogEntered(digest: Digest, run: seq<Step>, entry: Entry) {
    exists call :: HasEntered(digest, run, call) && LoggedFor(entry, call)
  }

  ghost predicate LogsEntered(digest: Digest, run: seq<Step>, s: State) {
    forall i :: 0 <= i < |s.db.logs| ==> LogEntered(digest, run, s.db.logs[i])
  }

  lemma HasEnteredStays(digest: Digest, run: seq<Step>, step: Step, call: Call)
    requires HasEntered(digest, run, call)
    ensures HasEntered(digest, run + [step], call)
  {
    var k: nat :| EnteredAt(digest, run, k, call);
    assert (run + [step])[..k] == run[..k] && (run + [step])[k] == run[k];
    assert EnteredAt(digest, run + [step], k, call);
  }

  lemma EntersNow(digest: Digest, run: seq<Step>, w: Worker, api: Api, now: Time)
    requires Run(digest, run).guards.clock <= now && MayEnter(Run(digest, run), api, now)
    ensures HasEntered(digest, run + [Authenticate(w, api, now)], Entering(Run(digest, run), api))
  {
    var more := run + [Authenticate(w, api, now)];
    assert more[..|run|] == run;
    assert EnteredAt(digest, more, |run|, Entering(Run(digest, run), api));
  }

  /** Whoever is on a call was on it before, unless the step has just authenticated it. */
  ghost predicate CallsCarryOn(s: State, t: State, step: Step) {
    forall w :: w in t.sessions && CallOf(t.sessions[w]).Some? ==>
      || CallOf(SessionOf(s, w)) == CallOf(t.sessions[w])
      || (step.Authenticate? && s.guards.clock <= step.now && MayEnter(s, step.api, step.now)
          && CallOf(t.sessions[w]) == Some(Entering(s, step.api)))
  }

  lemma AuthenticationCarriesOn(digest: Digest, s: State, step: Step)
    requires step.Authenticate?
    ensures CallsCarryOn(s, Next(digest, s, step), step) && Next(digest, s, step).db == s.db
  {
    if (SessionOf(s, step.worker).Idle? || SessionOf(s, step.worker).Done?) && s.guards.clock <= step.now {
      EntersExactlyWhen(digest, s, step.worker, step.api, step.now);
    }
  }

  lemma LookingCarriesOn(digest: Digest, s: State, step: Step)
    requires step.ReadRight? || step.Lookup?
    ensures CallsCarryOn(s, Next(digest, s, step), step) && Next(digest, s, step).db == s.db
  {
  }

  lemma MarkingCarriesOn(digest: Digest, s: State, step: Step)
    requires step.MarkToken? || step.ConsultCache? || step.DecideRequest?
    ensures CallsCarryOn(s, Next(digest, s, step), step) && Next(digest, s, step).db == s.db
  {
  }

  lemma LateStepsCarryOn(digest: Digest, s: State, step: Step)
    requires !IsEarly(step)
    ensures CallsCarryOn(s, Next(digest, s, step), step)
  {
  }

  lemma LateStepsLog(digest: Digest, s: State, step: Step)
    requires !IsEarly(step)
    ensures
      var t := Next(digest, s, step);
      || t.db.logs == s.db.logs
      || (step.Commit? && SessionOf(s, step.worker).Reserved?
          && var me := SessionOf(s, step.worker);
             t.db.logs == s.db.logs + [Entry(me.row.(id := |s.db.logs|), me.call.api.token, me.call.id, me.response)])
  {
  }

  lemma StepsCarryOn(digest: Digest, s: State, step: Step)
    ensures CallsCarryOn(s, Next(digest, s, step), step)
    ensures
      var t := Next(digest, s, step);
      || t.db.logs == s.db.logs
      || (step.Commit? && SessionOf(s, step.worker).Reserved?
          && var me := SessionOf(s, step.worker);
             t.db.logs == s.db.logs + [Entry(me.row.(id := |s.db.logs|), me.call.api.token, me.call.id, me.response)])
  {
    if step.Authenticate? {
      AuthenticationCarriesOn(digest, s, step);
    } else if step.ReadRight? || step.Lookup? {
      LookingCarriesOn(digest, s, step);
    } else if IsEarly(step) {
      MarkingCarriesOn(digest, s, step);
    } else {
      LateStepsCarryOn(digest, s, step);
      LateStepsLog(digest, s, step);
    }
  }

  lemma NextKeepsCallsEntered(digest: Digest, run: seq<Step>, s: State, step: Step)
    requires s == Run(digest, run) && CallsEntered(digest, run, s)
    ensures CallsEntered(digest, run + [step], Next(digest, s, step))
  {
    var t := Next(digest, s, step);
    StepsCarryOn(digest, s, step);
    forall w | w in t.sessions && CallOf(t.sessions[w]).Some?
      ensures HasEntered(digest, run + [step], CallOf(t.sessions[w]).value)
    {
      if CallOf(SessionOf(s, w)) == CallOf(t.sessions[w]) {
        assert w in s.sessions;
        HasEnteredStays(digest, run, step, CallOf(t.sessions[w]).value);
      } else {
        EntersNow(digest, run, step.worker, step.api, step.now);
      }
    }
  }

  lemma ScopeIsType(digest: Digest, run: seq<Step>, call: Call)
    requires HasEntered(digest, run, call)
    ensures call.claims.scope == call.api.requestType
  {
  }

  lemma CommittedIsLoggedFor(digest: Digest, run: seq<Step>, s: State, me: Session, id: nat)
    requires me.Reserved? && SessionOk(digest, s, me) && HasEntered(digest, run, me.call)
    ensures LoggedFor(Entry(me.row.(id := id), me.call.api.token, me.call.id, me.response), me.call)
  {
    ScopeIsType(digest, run, me.call);
  }

  lemma LogStaysEntered(digest: Digest, run: seq<Step>, step: Step, entry: Entry)
    requires LogEntered(digest, run, entry)
    ensures LogEntered(digest, run + [step], entry)
  {
    var call :| HasEntered(digest, run, call) && LoggedFor(entry, call);
    HasEnteredStays(digest, run, step, call);
  }

  lemma NewLogEntered(digest: Digest, run: seq<Step>, s: State, step: Step, me: Session, entry: Entry)
    requires me.Reserved? && SessionOk(digest, s, me) && HasEntered(digest, run, me.call)
    requires entry == Entry(me.row.(id := |s.db.logs|), me.call.api.token, me.call.id, me.response)
    ensures LogEntered(digest, run + [step], entry)
  {
    CommittedIsLoggedFor(digest, run, s, me, |s.db.logs|);
    HasEnteredStays(digest, run, step, me.call);
  }

  lemma NextKeepsLogsEntered(digest: Digest, run: seq<Step>, s: State, step: Step)
    requires CallsEntered(digest, run, s) && LogsEntered(digest, run, s) && SessionsOk(digest, s)
    ensures LogsEntered(digest, run + [step], Next(digest, s, step))
  {
    var t := Next(digest, s, step);
    StepsCarryOn(digest, s, step);
    forall i | 0 <= i < |t.db.logs| ensures LogEntered(digest, run + [step], t.db.logs[i]) {
      if i < |s.db.logs| {
        assert t.db.logs[i] == s.db.logs[i];
        LogStaysEntered(digest, run, step, s.db.logs[i]);
      } else {
        var me := s.sessions[step.worker];
        assert SessionOk(digest, s, me) && HasEntered(digest, run, me.call);
        NewLogEntered(digest, run, s, step, me, t.db.logs[i]);
      }
    }
  }

  lemma {:induction false} RunKeepsEntered(digest: Digest, run: seq<Step>)
    ensures CallsEntered(digest, run, Run(digest, run)) && LogsEntered(digest, run, Run(digest, run))
  {
    if run != [] {
      var before, step := run[..|run| - 1], run[|run| - 1];
      RunKeepsEntered(digest, before);
      RunKeepsInv(digest, before);
      assert before + [step] == run;
      NextKeepsCallsEntered(digest, before, Run(digest, before), step);
      NextKeepsLogsEntered(digest, before, Run(digest, before), step);
    }
  }

  lemma AuthenticatedInRun(digest: Digest, run: seq<Step>, entry: Entry)
    requires LogEntered(digest, run, entry)
    ensures exists k: nat, call :: WasAuthenticated(digest, run, k, call, entry)
  {
    var call :| HasEntered(digest, run, call) && LoggedFor(entry, call);
    var k: nat :| EnteredAt(digest, run, k, call);
    assert WasAuthenticated(digest, run, k, call, entry);
  }

  /**
    In every run each committed log belongs to a call that some step authenticated: when its device was enabled, its
    token issued and not yet expired, and tenant, device and scope agreed.
   */
  lemma EveryLogWasAuthenticated(digest: Digest, run: seq<Step>, i: nat)
    requires i < |Run(digest, run).db.logs|
    ensures exists k: nat, call :: WasAuthenticated(digest, run, k, call, Run(digest, run).db.logs[i])
  {
    RunKeepsEntered(digest, run);
    AuthenticatedInRun(digest, run, Run(digest, run).db.logs[i]);
  }

  ghost predicate WasAuthenticated(digest: Digest, run: seq<Step>, k: nat, call: Call, entry: Entry) {
    EnteredAt(digest, run, k, call) && LoggedFor(entry, call) && run[k].now < call.claims.exp as real
  }

}
