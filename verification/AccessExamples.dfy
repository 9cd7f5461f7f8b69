/** Two concrete runs: a transfer with its refused retry, and a token with two committed logs. */
module AccessExamples {
  import opened Prelude
  import opened CommaLists
  import opened AuditLog
  import AuditReplay
  import opened RiskEngine
  import opened PolicyEngine
  import opened ReplayProtection
  import opened AccessProtocol
  import opened AccessIdempotency
  import opened AccessRights
  import opened AccessProgress

  const KEY := RightKey("t", "r")
  const DEVICE := DeviceKey("t", "d")
  const EXPIRY := 100

  function ClaimsFor(scope: string): Claims { Claims("t", "r", "a", "d", scope, EXPIRY) }

  /** A tenant with a device, a right of user "a", and a token "j" for it. */
  function Opening(scope: string): seq<Step> {
    [CreateTenant("t", 10)] + [SetDevice(DEVICE, true)]
    + [CreateRight(KEY, "a", true)] + [IssueToken("j", ClaimsFor(scope))]
  }

  const OWNED := Right("a", true, 0, 1, None)

  function World(devices: map<DeviceKey, bool>, rights: map<RightKey, Right>, origins: map<RightKey, string>,
                 tokens: map<string, Claims>): State {
    State(Database(map["t" := Tenant(0, 10)], devices, rights, origins, [], []),
          Guards(tokens, map[], [], map[], 0.0), map[], 0)
  }

  function Opened(scope: string): State {
    World(map[DEVICE := true], map[KEY := OWNED], map[KEY := "a"], map["j" := ClaimsFor(scope)])
  }

  lemma StartsEmpty(digest: Digest)
    ensures Reaches(digest, [], INITIAL)
  {
    assert Run(digest, []) == INITIAL;
  }

  lemma TenantsOpen(digest: Digest)
    ensures Next(digest, INITIAL, CreateTenant("t", 10)) == World(map[], map[], map[], map[])
    ensures Next(digest, World(map[], map[], map[], map[]), SetDevice(DEVICE, true))
      == World(map[DEVICE := true], map[], map[], map[])
  {
  }

  lemma RightsOpen(digest: Digest)
    ensures Next(digest, World(map[DEVICE := true], map[], map[], map[]), CreateRight(KEY, "a", true))
         == World(map[DEVICE := true], map[KEY := OWNED], map[KEY := "a"], map[])
  {
  }

  lemma TokensOpen(digest: Digest, scope: string)
    ensures Next(digest, World(map[DEVICE := true], map[KEY := OWNED], map[KEY := "a"], map[]),
                 IssueToken("j", ClaimsFor(scope)))
         == Opened(scope)
  {
  }

  lemma OpeningOpens(digest: Digest, scope: string)
    ensures Reaches(digest, Opening(scope), Opened(scope))
  {
    StartsEmpty(digest);
    TenantsOpen(digest);
    RightsOpen(digest);
    TokensOpen(digest, scope);
    var first := [CreateTenant("t", 10)];
    ReachesNext(digest, [], INITIAL, first[0]);
    assert [] + first == first;
    ReachesNext(digest, first, World(map[], map[], map[], map[]), SetDevice(DEVICE, true));
    var second := first + [SetDevice(DEVICE, true)];
    ReachesNext(digest, second, World(map[DEVICE := true], map[], map[], map[]), CreateRight(KEY, "a", true));
    var third := second + [CreateRight(KEY, "a", true)];
    ReachesNext(digest, third, World(map[DEVICE := true], map[KEY := OWNED], map[KEY := "a"], map[]),
                IssueToken("j", ClaimsFor(scope)));
  }

  /** A request with the token: a transfer to "b" under the key "k", or a plain access, from some country. */
  function ApiFor(requestType: string, country: string): Api {
    Api("t", "j", requestType, "d", "ip", country, None, Some("b"), if requestType == TRANSFER then Some("k") else None,
        "trace", "v8")
  }

  /** The call that such a request becomes; it is the first of the run, or the second. */
  function CallOfApi(id: nat, requestType: string, country: string): Call {
    Call(id, ApiFor(requestType, country), ClaimsFor(requestType), true)
  }

  /** No history, no policy, no workflow configuration. */
  function Nothing(now: Time): Basis { Basis([], now, NO_MATCH, None, now) }

  // ----- A transfer, and its retry

  lemma KeyIsStripped()
    ensures Strip("k") == "k"
  {
    assert !IsSpace('k');
    assert LStrip("k") == "k";
  }

  lemma TransferArrives(digest: Digest)
    ensures MayArrive(digest, Opened(TRANSFER), 0, ApiFor(TRANSFER, "EE"), 1.0)
  {
    KeyIsStripped();
  }

  lemma ArrivedMayTransfer(digest: Digest, t: State)
    requires HasArrived(Opened(TRANSFER), t, 0, ApiFor(TRANSFER, "EE"), 1.0)
    ensures t.sessions == map[0 := Unlogged(CallOfApi(0, TRANSFER, "EE"), OWNED)]
    ensures MayCommit(digest, t, 0, 1.0) && MayPass(digest, t, 0, Nothing(1.0))
  {
    EmptyHistoryAllows(AuditReplay.RiskQueryOf(RequestOf(digest, CallOfApi(0, TRANSFER, "EE"), OWNED)), 1.0);
    assert TRANSFER != ACCESS by {
      assert |TRANSFER| != |ACCESS|;
    }
  }

  function PrintOf(requestType: string, country: string): Fingerprint {
    Fingerprint("t", "r", requestType, "d", "ip", country, Some("b"), "j")
  }

  /** The right has gone to "b", and there is the log of it. */
  ghost predicate Transferred(digest: Digest, t: State) {
    && t.db.tenants == map["t" := Tenant(1, 10)] && t.db.devices == map[DEVICE := true]
    && KEY in t.db.rights && t.db.rights[KEY].ownerId == "b" && t.db.rights[KEY].valid
    && |t.db.logs| == 1 && IsTransfer(t.db.logs[0].row)
    && Concerns(t.db.logs[0].row, KEY) && t.db.logs[0].row.userId == "a"
    && t.db.logs[0].row.idempotencyKey == "k"
    && t.db.logs[0].row.requestFingerprint == digest(PrintOf(TRANSFER, "EE"))
    && 1 !in t.sessions && t.guards.tokens == map["j" := ClaimsFor(TRANSFER)] && t.guards.clock == 1.0
  }

  lemma CommitTransfers(digest: Digest, s: State, t: State, me: Session)
    requires s.db == Opened(TRANSFER).db && s.guards == Opened(TRANSFER).guards.(clock := 1.0)
    requires s.sessions == map[0 := Unlogged(CallOfApi(0, TRANSFER, "EE"), OWNED)]
    requires HasCommitted(digest, s, t, 0, me, 1.0) && me.row.allowed
    ensures Transferred(digest, t)
  {
    KeyIsStripped();
    assert t.db.rights[KEY] == WriteRight(OWNED, OWNED, me.row);
    assert t.db.logs == [Entry(me.row.(id := 0), "j", 0, me.response)];
  }

  /** An authenticated request with the explicit key and the fingerprint of log `i`. */
  ghost predicate RepeatsKey(digest: Digest, s: State, v: Worker, i: nat) {
    && SessionOf(s, v).Authenticated? && HasKeyOf(s.db.logs, i, SessionOf(s, v).call)
    && s.db.logs[i].row.requestFingerprint == FingerprintOf(digest, SessionOf(s, v).call)
  }

  lemma RetryKnocks(digest: Digest, t: State)
    requires Transferred(digest, t)
    ensures
      var u := NextAuthenticate(t, 1, ApiFor(TRANSFER, "EE"), 2.0);
      && SessionOf(u, 1).Authenticated? && ComesBack(u, 1, 0) && RepeatsKey(digest, u, 1, 0)
      && SessionOf(NextReadRight(u, 1), 1) == Done(Refused(OwnerMismatch))
  {
    KeyIsStripped();
  }

  lemma TransferHappens(digest: Digest) returns (run: seq<Step>, t: State)
    ensures Reaches(digest, run, t) && Transferred(digest, t)
  {
    var api := ApiFor(TRANSFER, "EE");
    OpeningOpens(digest, TRANSFER);
    TransferArrives(digest);
    var s := RequestsArrive(digest, Opening(TRANSFER), Opened(TRANSFER), 0, api, 1.0);
    ArrivedMayTransfer(digest, s);
    run := Opening(TRANSFER) + Arriving(0, api, 1.0);
    var me;
    t, me := UndisturbedRequestCommits(digest, run, s, 0, Nothing(1.0), 1.0);
    CommitTransfers(digest, s, t, me);
    run := run + Settling(0, Nothing(1.0), 1.0);
  }

  /**
    User "a" transfers the right to "b" under an Idempotency-Key; the retry of this very request under the same
    key is refused.
   */
  lemma RetryAfterTransferFails(digest: Digest) returns (run: seq<Step>)
    ensures
      var s := Run(digest, run);
      && |s.db.logs| == 1 && IsTransfer(s.db.logs[0].row) && ComesBack(s, 1, 0) && RepeatsKey(digest, s, 1, 0)
      && SessionOf(NextReadRight(s, 1), 1) == Done(Refused(OwnerMismatch))
  {
    var t;
    run, t := TransferHappens(digest);
    AuthenticateStep(digest, run, t, 1, ApiFor(TRANSFER, "EE"), 2.0);
    run := run + [Authenticate(1, ApiFor(TRANSFER, "EE"), 2.0)];
    RetryKnocks(digest, t);
  }

  // ----- A token marked late, twice

  /** Two plain requests with the token, from two countries, have passed their lookups before it expires. */
  ghost predicate BothArrived(s: State) {
    && s.db == Opened(ACCESS).db && s.guards == Opened(ACCESS).guards.(clock := 1.0)
    && s.sessions == map[0 := Unlogged(CallOfApi(0, ACCESS, "EE"), OWNED),
                        1 := Unlogged(CallOfApi(1, ACCESS, "FI"), OWNED)]
  }

  lemma FirstArrives(digest: Digest)
    ensures MayArrive(digest, Opened(ACCESS), 0, ApiFor(ACCESS, "EE"), 1.0)
  {
  }

  lemma SecondArrives(digest: Digest, s: State)
    requires HasArrived(Opened(ACCESS), s, 0, ApiFor(ACCESS, "EE"), 1.0)
    ensures MayArrive(digest, s, 1, ApiFor(ACCESS, "FI"), 1.0)
  {
  }

  lemma BothAreThere(s: State, t: State)
    requires HasArrived(Opened(ACCESS), s, 0, ApiFor(ACCESS, "EE"), 1.0)
    requires HasArrived(s, t, 1, ApiFor(ACCESS, "FI"), 1.0)
    ensures BothArrived(t)
  {
  }

  lemma BothArrive(digest: Digest) returns (run: seq<Step>, s: State)
    ensures Reaches(digest, run, s) && BothArrived(s)
  {
    OpeningOpens(digest, ACCESS);
    FirstArrives(digest);
    var first := RequestsArrive(digest, Opening(ACCESS), Opened(ACCESS), 0, ApiFor(ACCESS, "EE"), 1.0);
    SecondArrives(digest, first);
    run := Opening(ACCESS) + Arriving(0, ApiFor(ACCESS, "EE"), 1.0);
    s := RequestsArrive(digest, run, first, 1, ApiFor(ACCESS, "FI"), 1.0);
    BothAreThere(first, s);
    run := run + Arriving(1, ApiFor(ACCESS, "FI"), 1.0);
  }

  lemma FirstMayCommit(digest: Digest, s: State)
    requires BothArrived(s)
    ensures MayCommit(digest, s, 0, 100.5)
  {
  }

  /** The first has marked the token half a second after its expiry, for one second, and has committed. */
  ghost predicate FirstLogged(digest: Digest, t: State) {
    && t.db.tenants == map["t" := Tenant(1, 10)] && KEY in t.db.rights && t.db.rights[KEY].version == 1
    && |t.db.logs| == 1 && t.db.logs[0].row.tenantId == "t" && t.db.logs[0].jti == "j"
    && t.db.logs[0].row.idempotencyKey == digest(PrintOf(ACCESS, "EE"))
    && t.guards.clock == 100.5 && t.guards.cache == map[]
    && (TokenId("t", "j") in t.guards.seen ==> t.guards.seen[TokenId("t", "j")] == 101.5)
    && 0 in t.sessions && t.sessions[0].Stored? && 1 in t.sessions
    && t.sessions == map[0 := t.sessions[0], 1 := Unlogged(CallOfApi(1, ACCESS, "FI"), OWNED)]
  }

  lemma FirstLogs(digest: Digest, s: State, t: State, me: Session)
    requires BothArrived(s) && HasCommitted(digest, s, t, 0, me, 100.5)
    ensures FirstLogged(digest, t)
  {
    assert t.db.logs == [Entry(me.row.(id := 0), "j", 0, me.response)];
    assert t.guards.cache == map[];
    assert !(me.row.requestType == TRANSFER) by {
      assert |TRANSFER| != |ACCESS|;
    }
  }

  lemma SecondMayCommit(digest: Digest, t: State)
    requires FirstLogged(digest, t) && digest(PrintOf(ACCESS, "EE")) != digest(PrintOf(ACCESS, "FI"))
    ensures MayCommit(digest, t, 1, 101.5)
  {
  }

  ghost predicate LoggedTwice(logs: seq<Entry>) {
    |logs| == 2 && logs[0].row.tenantId == logs[1].row.tenantId && logs[0].jti == logs[1].jti
  }

  lemma SecondLogs(digest: Digest, t: State, u: State, me: Session)
    requires FirstLogged(digest, t) && HasCommitted(digest, t, u, 1, me, 101.5)
    ensures LoggedTwice(u.db.logs)
  {
    assert u.db.logs == t.db.logs + [Entry(me.row.(id := 1), "j", me.call.id, me.response)];
  }

  lemma FirstHappens(digest: Digest) returns (run: seq<Step>, t: State)
    ensures Reaches(digest, run, t) && FirstLogged(digest, t)
  {
    var s;
    run, s := BothArrive(digest);
    FirstMayCommit(digest, s);
    var me;
    t, me := UndisturbedRequestCommits(digest, run, s, 0, Nothing(100.5), 100.5);
    FirstLogs(digest, s, t, me);
    run := run + Settling(0, Nothing(100.5), 100.5);
  }

  lemma BothLog(digest: Digest) returns (run: seq<Step>, u: State)
    requires digest(PrintOf(ACCESS, "EE")) != digest(PrintOf(ACCESS, "FI"))
    ensures Reaches(digest, run, u) && LoggedTwice(u.db.logs)
  {
    var t;
    run, t := FirstHappens(digest);
    SecondMayCommit(digest, t);
    var me;
    u, me := UndisturbedRequestCommits(digest, run, t, 1, Nothing(101.5), 101.5);
    SecondLogs(digest, t, u, me);
    run := run + Settling(1, Nothing(101.5), 101.5);
  }

  /** For every hash that tells the two requests apart, a token used in time and marked late has two committed logs. */
  lemma LateTokenIsUsedTwice(digest: Digest) returns (run: seq<Step>)
    requires digest(PrintOf(ACCESS, "EE")) != digest(PrintOf(ACCESS, "FI"))
    ensures LoggedTwice(Run(digest, run).db.logs)
  {
    var u;
    run, u := BothLog(digest);
  }
}
