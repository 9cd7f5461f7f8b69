/** Which policy decides, whatever order the policies are supplied in. */
module PolicySelection {
  import opened Prelude
  import opened Sorting
  import opened Text
  import opened PolicyEngine

  /** A policy in force at the query's clock reading that matches it and says allow or deny. */
  predicate Applicable(p: Policy, q: Query)
    requires q.now.Some?
  {
    && (p.validFrom.Some? ==> q.now.value >= p.validFrom.value)
    && (p.expiresAt.Some? ==> q.now.value <= p.expiresAt.value)
    && Matches(p, q, Trust(q))
    && Effective(p)
  }

  /** An applicable policy whose key no applicable policy is below. */
  ghost predicate Wins(w: Policy, policies: seq<Policy>, q: Query)
    requires q.now.Some?
  {
    w in policies && Applicable(w, q) && forall p :: p in policies && Applicable(p, q) ==> PolicyLeq(w, p)
  }

  lemma {:induction false} FirstMatchSelects(sorted: seq<Policy>, q: Query)
    requires q.now.Some? && Sorted(PolicyLeq, sorted)
    ensures FirstMatch(sorted, q).Decided?
    ensures (exists p :: p in sorted && Applicable(p, q)) ==>
      exists w :: Wins(w, sorted, q) && FirstMatch(sorted, q) == Decided(DecisionOf(w))
    ensures !(exists p :: p in sorted && Applicable(p, q)) ==> FirstMatch(sorted, q) == Decided(NO_MATCH)
  {
    if sorted != [] {
      var first, rest := sorted[0], sorted[1..];
      PolicyOrder();
      FirstMatchSelects(rest, q);
      if Applicable(first, q) {
        assert Wins(first, sorted, q);
      } else {
        forall w | Wins(w, rest, q) ensures Wins(w, sorted, q) {
        }
        assert forall p :: p in sorted ==> p == first || p in rest;
      }
    }
  }

  /**
    The decision is that of a least-key applicable policy, and "no match" exactly when none applies.
   */
  lemma LeastApplicableDecides(policies: seq<Policy>, q: Query)
    requires q.now.Some?
    ensures Evaluate(policies, q).Decided?
    ensures Evaluate(policies, q).decision.matched <==> exists p :: p in policies && Applicable(p, q)
    ensures Evaluate(policies, q).decision.matched ==>
      exists w :: Wins(w, policies, q) && Evaluate(policies, q).decision == DecisionOf(w)
    ensures !Evaluate(policies, q).decision.matched ==> Evaluate(policies, q).decision == NO_MATCH
  {
    var sorted := Sort(PolicyLeq, policies);
    PolicyOrder();
    SortIsSorting(PolicyLeq, policies);
    SameMembers(policies, sorted);
    FirstMatchSelects(sorted, q);
    if exists p :: p in sorted && Applicable(p, q) {
      var w :| Wins(w, sorted, q) && FirstMatch(sorted, q) == Decided(DecisionOf(w));
      assert Wins(w, policies, q);
    }
  }

  /** Policies no two of which have the same sort key. */
  ghost predicate DistinctKeys(policies: seq<Policy>) {
    Strict(PolicyLeq, policies)
  }

  /** The order in which policies with distinct keys are supplied is irrelevant. */
  lemma OrderOfPoliciesIsIrrelevant(policies: seq<Policy>, shuffled: seq<Policy>, q: Query)
    requires DistinctKeys(policies) && multiset(policies) == multiset(shuffled)
    ensures Evaluate(policies, q) == Evaluate(shuffled, q)
  {
    PolicyOrder();
    SortForgetsOrder(PolicyLeq, policies, shuffled);
  }

  /** Policies that differ in name, or in id when both have one, have distinct keys. */
  lemma DistinctNamesSuffice(policies: seq<Policy>)
    requires forall p, r :: p in policies && r in policies && p != r ==>
      p.name != r.name || (p.policyId.Some? && r.policyId.Some? && p.policyId != r.policyId)
    ensures DistinctKeys(policies)
  {
    forall p, r | p in policies && r in policies && PolicyLeq(p, r) && PolicyLeq(r, p) ensures p == r {
      StringOrder(p.name, r.name);
    }
  }

  /** An allow stands only when no applicable deny has the same or a more urgent priority. */
  lemma DenyWins(policies: seq<Policy>, q: Query, deny: Policy)
    requires q.now.Some? && Evaluate(policies, q).Decided?
    requires Evaluate(policies, q).decision.allow == Some(true)
    requires deny in policies && Applicable(deny, q) && Lower(deny.effect) == "deny"
    ensures exists w ::
      Wins(w, policies, q) && Evaluate(policies, q).decision == DecisionOf(w) && w.priority < deny.priority
  {
    LeastApplicableDecides(policies, q);
    var w :| Wins(w, policies, q) && Evaluate(policies, q).decision == DecisionOf(w);
    assert PolicyLeq(w, deny);
  }

  /** A policy alone decides as it does in company whenever it is the one that decided there. */
  lemma WinnerDecidesAlone(policies: seq<Policy>, q: Query, w: Policy)
    requires q.now.Some? && Wins(w, policies, q)
    ensures Evaluate([w], q) == Decided(DecisionOf(w))
  {
    assert Sort(PolicyLeq, [w]) == [w] by {
      assert [w][..0] == [];
    }
  }

  lemma NobodyDecidesAlone(q: Query)
    ensures Evaluate([], q) == Decided(NO_MATCH)
  {
  }

  // ----- Applicability and order, written out

  /** The effect column says "deny", in whatever case. */
  predicate SaysDeny(effect: string) {
    && |effect| == 4 && (effect[0] == 'd' || effect[0] == 'D') && (effect[1] == 'e' || effect[1] == 'E')
    && (effect[2] == 'n' || effect[2] == 'N') && (effect[3] == 'y' || effect[3] == 'Y')
  }

  predicate SaysAllow(effect: string) {
    && |effect| == 5 && (effect[0] == 'a' || effect[0] == 'A') && (effect[1] == 'l' || effect[1] == 'L')
    && (effect[2] == 'l' || effect[2] == 'L') && (effect[3] == 'o' || effect[3] == 'O')
    && (effect[4] == 'w' || effect[4] == 'W')
  }

  lemma LettersMean(effect: string, word: string)
    requires forall i :: 0 <= i < |word| ==> 'a' <= word[i] <= 'z'
    ensures Lower(effect) == word <==>
      |effect| == |word| && forall i :: 0 <= i < |word| ==> effect[i] == word[i] || effect[i] == word[i] - 'a' + 'A'
  {
    if |effect| == |word| {
      forall i | 0 <= i < |word|
        ensures LowerChar(effect[i]) == word[i] <==> effect[i] == word[i] || effect[i] == word[i] - 'a' + 'A'
      {
      }
      if forall i :: 0 <= i < |word| ==> LowerChar(effect[i]) == word[i] {
        assert Lower(effect) == word;
      } else {
        var i :| 0 <= i < |word| && LowerChar(effect[i]) != word[i];
        assert Lower(effect)[i] != word[i];
      }
    }
  }

  lemma EffectsMean(effect: string)
    ensures Lower(effect) == "deny" <==> SaysDeny(effect)
    ensures Lower(effect) == "allow" <==> SaysAllow(effect)
  {
    LettersMean(effect, "deny");
    LettersMean(effect, "allow");
  }

  /** The hours from `start` up to `end`, over midnight if need be; equal ends leave no hour out. */
  lemma HoursGoRound(start: int, end: int, hour: int)
    requires 0 <= start < 24 && 0 <= end < 24 && 0 <= hour < 24
    ensures HourAllowed(Some(start), Some(end), hour) <==> start == end || (hour - start) % 24 < (end - start) % 24
    ensures HourAllowed(Some(start), None, hour) <==> start <= hour
    ensures HourAllowed(None, Some(end), hour) <==> hour < end
  {
  }

  /** The policy is in force at this time, and at this hour if it cares. */
  predicate InForce(p: Policy, now: Time, hour: Option<int>) {
    && !(p.validFrom.Some? && now < p.validFrom.value)
    && !(p.expiresAt.Some? && p.expiresAt.value < now)
    && match (p.allowedStartHour, p.allowedEndHour)
       case (None, None) => true
       case (Some(start), None) => hour.Some? && start <= hour.value
       case (None, Some(end)) => hour.Some? && hour.value < end
       case (Some(start), Some(end)) =>
         && hour.Some?
         && (|| start == end
             || (start < end && start <= hour.value && hour.value < end)
             || (start > end && (start <= hour.value || hour.value < end)))
  }

  /** It concerns a request of this kind, at this risk. */
  predicate Concerns(p: Policy, requestType: string, deviceId: string, countryCode: string, amount: Option<real>,
                     riskScore: int, trustScore: int) {
    && (|p.requestTypes| > 0 ==> exists i :: 0 <= i < |p.requestTypes| && p.requestTypes[i] == requestType)
    && (|p.deviceIds| > 0 ==> exists i :: 0 <= i < |p.deviceIds| && p.deviceIds[i] == deviceId)
    && (|p.countries| > 0 ==> exists i :: 0 <= i < |p.countries| && p.countries[i] == countryCode)
    && !(p.maxRiskScore.Some? && riskScore > p.maxRiskScore.value)
    && !(p.minTrustScore.Some? && trustScore < p.minTrustScore.value)
    && !(p.maxTransactionAmount.Some? && (amount.None? || amount.value > p.maxTransactionAmount.value))
  }

  /** The trust of a query: what it says, or 100 less the risk, between 0 and 100. */
  function TrustIn(q: Query): int {
    if q.trustScore.Some? then q.trustScore.value
    else if q.riskScore > 100 then 0 else if q.riskScore < 0 then 100 else 100 - q.riskScore
  }

  /** Everything about the policy and the query speaks for it. */
  predicate Applies(p: Policy, q: Query)
    requires q.now.Some?
  {
    && InForce(p, q.now.value, q.hour)
    && Concerns(p, q.requestType, q.deviceId, q.countryCode, q.transactionAmount, q.riskScore, TrustIn(q))
    && (SaysDeny(p.effect) || SaysAllow(p.effect))
  }

  lemma ApplicableMeans(p: Policy, q: Query)
    requires q.now.Some?
    ensures Applicable(p, q) <==> Applies(p, q)
  {
    EffectsMean(p.effect);
  }

  /** Strictly more urgent: a smaller priority, then a denial, then the smaller name, id and version. */
  predicate MoreUrgent(p: Policy, r: Policy) {
    || p.priority < r.priority
    || (p.priority == r.priority && SaysDeny(p.effect) && !SaysDeny(r.effect))
    || (p.priority == r.priority && SaysDeny(p.effect) == SaysDeny(r.effect) && p.name != r.name
        && StringLeq(p.name, r.name))
    || (p.priority == r.priority && SaysDeny(p.effect) == SaysDeny(r.effect) && p.name == r.name
        && IdOrZero(p) < IdOrZero(r))
    || (p.priority == r.priority && SaysDeny(p.effect) == SaysDeny(r.effect) && p.name == r.name
        && IdOrZero(p) == IdOrZero(r) && p.version < r.version)
  }

  lemma UrgencyMeans(p: Policy, r: Policy)
    ensures PolicyLeq(p, r) <==> !MoreUrgent(r, p)
  {
    EffectsMean(p.effect);
    EffectsMean(r.effect);
    StringOrder(p.name, r.name);
  }

  /** The decision that `w` makes. */
  predicate MadeBy(d: PolicyDecision, w: Policy) {
    && d.matched && d.policyId == w.policyId && d.policyVersion == Some(w.version) && d.policyName == Some(w.name)
    && d.allow == Some(!SaysDeny(w.effect))
    && d.reason == (if SaysDeny(w.effect) then "policy_deny:" + w.name else "policy_allow:" + w.name)
  }

  /** Nothing when no policy applies, else what the most urgent of those that apply says. */
  ghost predicate MostUrgentDecides(policies: seq<Policy>, q: Query, d: PolicyDecision)
    requires q.now.Some?
  {
    if forall p :: p in policies ==> !Applies(p, q) then
      d == PolicyDecision(false, None, "no_policy_match", None, None, None)
    else
      exists w :: w in policies && Applies(w, q) && MadeBy(d, w)
                  && forall p :: p in policies && Applies(p, q) ==> !MoreUrgent(p, w)
  }

  /** What the evaluation decides, written out. */
  lemma EvaluationMeans(policies: seq<Policy>, q: Query)
    requires q.now.Some?
    ensures Evaluate(policies, q).Decided? && MostUrgentDecides(policies, q, Evaluate(policies, q).decision)
  {
    LeastApplicableDecides(policies, q);
    forall p ensures Applicable(p, q) <==> Applies(p, q) {
      ApplicableMeans(p, q);
    }
    var d := Evaluate(policies, q).decision;
    if d.matched {
      var w :| Wins(w, policies, q) && d == DecisionOf(w);
      EffectsMean(w.effect);
      forall p | p in policies && Applies(p, q) ensures !MoreUrgent(p, w) {
        UrgencyMeans(w, p);
      }
      assert MadeBy(d, w);
    }
  }

  // ----- Queries without a clock reading

  /** Without a clock reading a start of validity is not looked at and an expiry cannot be. */
  predicate Stops(p: Policy, q: Query) {
    p.expiresAt.None? && Matches(p, q, Trust(q)) && Effective(p)
  }

  /** In this order a policy with an expiry is reached before one that settles the matter. */
  ghost predicate ReachesExpiry(sorted: seq<Policy>, q: Query) {
    exists i :: 0 <= i < |sorted| && sorted[i].expiresAt.Some? && forall j :: 0 <= j < i ==> !Stops(sorted[j], q)
  }

  lemma {:induction false} ClocklessFirstMatch(sorted: seq<Policy>, q: Query)
    requires q.now.None?
    ensures FirstMatch(sorted, q).TypeError? <==> ReachesExpiry(sorted, q)
  {
    if sorted != [] {
      var rest := sorted[1..];
      ClocklessFirstMatch(rest, q);
      if FirstMatch(sorted, q).TypeError? {
        if sorted[0].expiresAt.None? {
          var i :| 0 <= i < |rest| && rest[i].expiresAt.Some? && forall j :: 0 <= j < i ==> !Stops(rest[j], q);
          assert sorted[i + 1] == rest[i];
          forall j | 0 <= j < i + 1 ensures !Stops(sorted[j], q) {
            if j > 0 { assert sorted[j] == rest[j - 1]; }
          }
        }
      } else {
        forall i | 0 <= i < |sorted| && sorted[i].expiresAt.Some?
          ensures exists j :: 0 <= j < i && Stops(sorted[j], q)
        {
          if !Stops(sorted[0], q) {
            assert rest[i - 1] == sorted[i];
            var j :| 0 <= j < i - 1 && Stops(rest[j], q);
            assert sorted[j + 1] == rest[j];
          }
        }
      }
    }
  }

  /**
    `evaluate` raises exactly when there is no clock reading and a policy with an expiry is reached
    in key order.
   */
  lemma RaisesExactlyWhen(policies: seq<Policy>, q: Query)
    ensures Evaluate(policies, q).TypeError? <==> q.now.None? && ReachesExpiry(Sort(PolicyLeq, policies), q)
  {
    if q.now.None? {
      ClocklessFirstMatch(Sort(PolicyLeq, policies), q);
    } else {
      LeastApplicableDecides(policies, q);
    }
  }

  /** A policy with an expiry, such that no policy with a key up to its own settles the matter. */
  ghost predicate ExpiryComesFirst(policies: seq<Policy>, q: Query) {
    exists p :: p in policies && p.expiresAt.Some? && forall r :: r in policies && PolicyLeq(r, p) ==> !Stops(r, q)
  }

  lemma SortedReachesFirst(sorted: seq<Policy>, q: Query)
    requires Sorted(PolicyLeq, sorted) && Total(PolicyLeq) && DistinctKeys(sorted)
    ensures ReachesExpiry(sorted, q) <==> ExpiryComesFirst(sorted, q)
  {
    if ReachesExpiry(sorted, q) {
      var i :| 0 <= i < |sorted| && sorted[i].expiresAt.Some? && forall j :: 0 <= j < i ==> !Stops(sorted[j], q);
      forall r | r in sorted && PolicyLeq(r, sorted[i]) ensures !Stops(r, q) {
        var j :| 0 <= j < |sorted| && sorted[j] == r;
        if j > i {
          assert PolicyLeq(sorted[i], sorted[j]);
          assert sorted[i] in sorted;
        }
      }
      assert sorted[i] in sorted;
    }
    if ExpiryComesFirst(sorted, q) {
      var p :| p in sorted && p.expiresAt.Some? && forall r :: r in sorted && PolicyLeq(r, p) ==> !Stops(r, q);
      var i :| 0 <= i < |sorted| && sorted[i] == p;
      forall j | 0 <= j < i ensures !Stops(sorted[j], q) {
        assert PolicyLeq(sorted[j], sorted[i]) && sorted[j] in sorted;
      }
    }
  }

  /**
    In terms of the policies' keys, which are distinct in the database: an expiry is met before anything settles
    the matter.
   */
  lemma KeysTellWhenItRaises(policies: seq<Policy>, q: Query)
    requires DistinctKeys(policies)
    ensures Evaluate(policies, q).TypeError? <==> q.now.None? && ExpiryComesFirst(policies, q)
  {
    RaisesExactlyWhen(policies, q);
    var sorted := Sort(PolicyLeq, policies);
    PolicyOrder();
    SortIsSorting(PolicyLeq, policies);
    SameMembers(policies, sorted);
    SortedReachesFirst(sorted, q);
    assert ExpiryComesFirst(policies, q) <==> ExpiryComesFirst(sorted, q);
  }

  /** The simulation endpoint gives no clock reading, so one policy with an expiry makes it fail. */
  lemma SimulationCanRaise()
    ensures exists p: Policy, q: Query :: q.now.None? && Evaluate([p], q).TypeError?
  {
    var p := Policy("night", "deny", Some(1), 100, 1, [], [], [], None, None, None, None, None, None, Some(0.0));
    var q := Query("access", "d", "EE", 0, None, None, None, None);
    assert Sort(PolicyLeq, [p]) == [p] by {
      assert [p][..0] == [];
    }
    assert Evaluate([p], q).TypeError?;
  }
}
