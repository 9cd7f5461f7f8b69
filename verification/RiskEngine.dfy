/** app/risk_engine.py: the risk score of a request against its history. */
module RiskEngine {
  import opened Prelude
  import opened Sorting
  import opened Text
  import opened AuditLog

  const FAILURE_WINDOW: Time := 900.0
  const TRANSFER_WINDOW: Time := 3600.0
  const DENY_SCORE := 70

  datatype RiskQuery = RiskQuery(requestType: string, deviceId: string, ipHash: string, countryCode: string)

  datatype Signal = FailureBurst | NewDevice | NewIp | GeoChange | TransferVelocity | SensitiveAction

  datatype RiskDecision = RiskDecision(allow: bool, riskScore: int, trustScore: int,
                                       reason: string, signals: seq<Signal>)

  function Score(signal: Signal): int {
    match signal
    case FailureBurst => 35
    case NewDevice => 15
    case NewIp => 10
    case GeoChange => 15
    case TransferVelocity => 30
    case SensitiveAction => 10
  }

  function Name(signal: Signal): string {
    match signal
    case FailureBurst => "failure_burst"
    case NewDevice => "new_device"
    case NewIp => "new_ip"
    case GeoChange => "geo_change"
    case TransferVelocity => "transfer_velocity"
    case SensitiveAction => "sensitive_action"
  }

  function Names(signals: seq<Signal>): (names: seq<string>)
    ensures |names| == |signals| && forall i :: 0 <= i < |names| ==> names[i] == Name(signals[i])
  {
    seq(|signals|, i requires 0 <= i < |signals| => Name(signals[i]))
  }

  function TotalScore(signals: seq<Signal>): int {
    if signals == [] then 0 else TotalScore(signals[..|signals| - 1]) + Score(signals[|signals| - 1])
  }

  /** `";".join(names)` */
  function Reasons(names: seq<string>): string {
    if names == [] then ""
    else if |names| == 1 then names[0]
    else Reasons(names[..|names| - 1]) + ";" + names[|names| - 1]
  }

  /** `xs[-n:]` */
  function Suffix<T>(xs: seq<T>, n: nat): seq<T> {
    if |xs| <= n then xs else xs[|xs| - n..]
  }

  function Keep(xs: seq<RequestLog>, p: RequestLog -> bool): (r: seq<RequestLog>)
    ensures forall x :: x in r <==> x in xs && p(x)
    ensures |r| <= |xs|
  {
    if xs == [] then []
    else
      var rest := Keep(xs[..|xs| - 1], p);
      if p(xs[|xs| - 1]) then rest + [xs[|xs| - 1]] else rest
  }

  function RecentFailure(now: Time): RequestLog -> bool {
    (l: RequestLog) => now - l.createdAt <= FAILURE_WINDOW && !l.allowed
  }

  function RecentTransfer(now: Time): RequestLog -> bool {
    (l: RequestLog) => l.requestType == TRANSFER && now - l.createdAt <= TRANSFER_WINDOW
  }

  predicate UnknownDevice(recent: seq<RequestLog>, q: RiskQuery) {
    recent != [] && forall i :: 0 <= i < |recent| ==> recent[i].deviceId != q.deviceId
  }

  predicate UnknownIp(recent: seq<RequestLog>, q: RiskQuery) {
    recent != [] && forall i :: 0 <= i < |recent| ==> recent[i].ipHash != q.ipHash
  }

  predicate UnknownCountry(recent: seq<RequestLog>, q: RiskQuery) {
    recent != [] && forall i :: 0 <= i < |recent| ==> recent[i].countryCode != q.countryCode
  }

  function Flag(raised: bool, signal: Signal): seq<Signal> {
    if raised then [signal] else []
  }

  function TransferSignal(q: RiskQuery, logs: seq<RequestLog>, now: Time): seq<Signal> {
    if q.requestType != TRANSFER then []
    else if |Keep(logs, RecentTransfer(now))| >= 2 then [TransferVelocity]
    else [SensitiveAction]
  }

  /** The signals a request raises against sorted logs, in the engine's order. */
  function SignalsOf(q: RiskQuery, logs: seq<RequestLog>, now: Time): seq<Signal> {
    Flag(|Keep(logs, RecentFailure(now))| >= 3, FailureBurst)
    + Flag(UnknownDevice(Suffix(logs, 5), q), NewDevice)
    + Flag(UnknownIp(Suffix(logs, 5), q), NewIp)
    + Flag(UnknownCountry(Suffix(logs, 10), q), GeoChange)
    + TransferSignal(q, logs, now)
  }

  function Verdict(score: int, signals: seq<Signal>): RiskDecision {
    var reasons := Reasons(Names(signals));
    var trust := Max(0, Min(100, 100 - score));
    if score >= DENY_SCORE then RiskDecision(false, score, trust, if reasons != "" then reasons else "deny", signals)
    else RiskDecision(true, score, trust, if reasons != "" then reasons else "allowed", signals)
  }

  function DecisionOf(signals: seq<Signal>): RiskDecision {
    Verdict(TotalScore(signals), signals)
  }

  /** What the engine decides on a history, in whatever order it is supplied. */
  function Risk(q: RiskQuery, history: seq<RequestLog>, now: Time): RiskDecision {
    DecisionOf(SignalsOf(q, Sort(LogLeq, history), now))
  }

  lemma OneMoreSignal(signals: seq<Signal>, raised: bool, signal: Signal)
    ensures TotalScore(signals + Flag(raised, signal))
         == TotalScore(signals) + if raised then Score(signal) else 0
  {
    if raised {
      assert (signals + [signal])[..|signals|] == signals;
    } else {
      assert signals + [] == signals;
    }
  }

  lemma GeoChangeIsAbsence(q: RiskQuery, recent: seq<RequestLog>, countries: set<string>)
    requires countries == set i | 0 <= i < |recent| :: recent[i].countryCode
    ensures UnknownCountry(recent, q) <==> countries != {} && q.countryCode !in countries
  {
    if recent != [] { assert recent[0].countryCode in countries; }
  }

  /** The tests on the sorted logs: failures in the window, and the last five and ten logs. */
  method Observe(q: RiskQuery, logs: seq<RequestLog>, now: Time)
    returns (burst: bool, newDevice: bool, newIp: bool, geoChange: bool)
    ensures burst <==> |Keep(logs, RecentFailure(now))| >= 3
    ensures newDevice <==> UnknownDevice(Suffix(logs, 5), q)
    ensures newIp <==> UnknownIp(Suffix(logs, 5), q)
    ensures geoChange <==> UnknownCountry(Suffix(logs, 10), q)
  {
    var recentFailures := Keep(logs, RecentFailure(now));
    burst := |recentFailures| >= 3;
    var recentLogs := Suffix(logs, 5);
    newDevice := UnknownDevice(recentLogs, q);
    newIp := UnknownIp(recentLogs, q);
    var recentCountries := set i | 0 <= i < |Suffix(logs, 10)| :: Suffix(logs, 10)[i].countryCode;
    geoChange := recentCountries != {} && q.countryCode !in recentCountries;
    GeoChangeIsAbsence(q, Suffix(logs, 10), recentCountries);
  }

  /** The four signals that do not depend on the request type. */
  method HistorySignals(q: RiskQuery, logs: seq<RequestLog>, now: Time) returns (score: int, reasons: seq<Signal>)
    ensures reasons == Flag(|Keep(logs, RecentFailure(now))| >= 3, FailureBurst)
                       + Flag(UnknownDevice(Suffix(logs, 5), q), NewDevice)
                       + Flag(UnknownIp(Suffix(logs, 5), q), NewIp)
                       + Flag(UnknownCountry(Suffix(logs, 10), q), GeoChange)
    ensures score == TotalScore(reasons)
  {
    var burst, newDevice, newIp, geoChange := Observe(q, logs, now);
    score, reasons := AddSignals(burst, newDevice, newIp, geoChange);
  }

  method AddSignals(burst: bool, newDevice: bool, newIp: bool,
                    geoChange: bool) returns (score: int, reasons: seq<Signal>)
    ensures reasons
      == Flag(burst, FailureBurst) + Flag(newDevice, NewDevice) + Flag(newIp, NewIp) + Flag(geoChange, GeoChange)
    ensures score == TotalScore(reasons)
  {
    score, reasons := AddSignal(0, [], burst, FailureBurst);
    score, reasons := AddSignal(score, reasons, newDevice, NewDevice);
    score, reasons := AddSignal(score, reasons, newIp, NewIp);
    score, reasons := AddSignal(score, reasons, geoChange, GeoChange);
  }

  method AddSignal(before: int, names: seq<Signal>, raised: bool,
                   signal: Signal) returns (score: int, reasons: seq<Signal>)
    requires before == TotalScore(names)
    ensures reasons == names + Flag(raised, signal) && score == TotalScore(reasons)
  {
    OneMoreSignal(names, raised, signal);
    score, reasons := before, names;
    if raised {
      score, reasons := score + Score(signal), reasons + [signal];
    }
  }

  /** The signal of a transfer: its velocity, or its sensitivity. */
  method AddTransferSignal(q: RiskQuery, logs: seq<RequestLog>, now: Time, before: int, names: seq<Signal>)
    returns (score: int, reasons: seq<Signal>)
    requires before == TotalScore(names)
    ensures reasons == names + TransferSignal(q, logs, now) && score == TotalScore(reasons)
  {
    score, reasons := before, names;
    if q.requestType == TRANSFER {
      var recentTransfers := Keep(logs, RecentTransfer(now));
      var velocity := |recentTransfers| >= 2;
      score, reasons := AddSignal(score, reasons, true, if velocity then TransferVelocity else SensitiveAction);
    }
  }

  // ----- What the signals mean

  function Indices(logs: seq<RequestLog>, p: RequestLog -> bool): set<nat> {
    set i: nat | i < |logs| && p(logs[i])
  }

  lemma OneMoreIndex(front: seq<RequestLog>, last: RequestLog, p: RequestLog -> bool)
    ensures |Indices(front + [last], p)| == |Indices(front, p)| + if p(last) then 1 else 0
  {
    var all, some := Indices(front + [last], p), Indices(front, p);
    var n: nat := |front|;
    forall i: nat | i < n ensures i in all <==> i in some {
      assert (front + [last])[i] == front[i];
    }
    if p(last) {
      assert all == some + {n};
    } else {
      assert all == some;
    }
  }

  lemma {:induction false} KeepCounts(logs: seq<RequestLog>, p: RequestLog -> bool)
    ensures |Keep(logs, p)| == |Indices(logs, p)|
  {
    if logs != [] {
      var n := |logs| - 1;
      KeepCounts(logs[..n], p);
      OneMoreIndex(logs[..n], logs[n], p);
      assert logs[..n] + [logs[n]] == logs;
    }
  }

  /** The indices of denials of the last 15 minutes. */
  function Denials(logs: seq<RequestLog>, now: Time): set<nat> {
    set i: nat | i < |logs| && !logs[i].allowed && now - logs[i].createdAt <= 900.0
  }

  /** The indices of transfers of the last hour, allowed or not. */
  function Transfers(logs: seq<RequestLog>, now: Time): set<nat> {
    set i: nat | i < |logs| && logs[i].requestType == TRANSFER && now - logs[i].createdAt <= 3600.0
  }

  /** There are logs, and none of the last five is from this device. */
  ghost predicate DeviceIsNew(q: RiskQuery, logs: seq<RequestLog>) {
    logs != [] && forall i :: 0 <= i < |logs| && |logs| - 5 <= i ==> logs[i].deviceId != q.deviceId
  }

  ghost predicate IpIsNew(q: RiskQuery, logs: seq<RequestLog>) {
    logs != [] && forall i :: 0 <= i < |logs| && |logs| - 5 <= i ==> logs[i].ipHash != q.ipHash
  }

  ghost predicate CountryIsNew(q: RiskQuery, logs: seq<RequestLog>) {
    logs != [] && forall i :: 0 <= i < |logs| && |logs| - 10 <= i ==> logs[i].countryCode != q.countryCode
  }

  /** The last `n` elements, by their places in the whole. */
  lemma SuffixPlaces(logs: seq<RequestLog>, n: nat, i: int)
    requires 0 <= i < |logs| && |logs| - n <= i
    ensures |logs| - |Suffix(logs, n)| <= i && Suffix(logs, n)[i - (|logs| - |Suffix(logs, n)|)] == logs[i]
  {
  }

  lemma NewDeviceMeans(q: RiskQuery, logs: seq<RequestLog>)
    ensures UnknownDevice(Suffix(logs, 5), q) <==> DeviceIsNew(q, logs)
  {
    if UnknownDevice(Suffix(logs, 5), q) {
      forall i | 0 <= i < |logs| && |logs| - 5 <= i ensures logs[i].deviceId != q.deviceId {
        SuffixPlaces(logs, 5, i);
      }
    }
  }

  lemma NewIpMeans(q: RiskQuery, logs: seq<RequestLog>)
    ensures UnknownIp(Suffix(logs, 5), q) <==> IpIsNew(q, logs)
  {
    if UnknownIp(Suffix(logs, 5), q) {
      forall i | 0 <= i < |logs| && |logs| - 5 <= i ensures logs[i].ipHash != q.ipHash {
        SuffixPlaces(logs, 5, i);
      }
    }
  }

  lemma NewCountryMeans(q: RiskQuery, logs: seq<RequestLog>)
    ensures UnknownCountry(Suffix(logs, 10), q) <==> CountryIsNew(q, logs)
  {
    if UnknownCountry(Suffix(logs, 10), q) {
      forall i | 0 <= i < |logs| && |logs| - 10 <= i ensures logs[i].countryCode != q.countryCode {
        SuffixPlaces(logs, 10, i);
      }
    }
  }

  lemma FlagsMean(a: bool, b: bool, c: bool, d: bool, last: seq<Signal>)
    requires last == [] || last == [TransferVelocity] || last == [SensitiveAction]
    ensures
      var signals := Flag(a, FailureBurst) + Flag(b, NewDevice) + Flag(c, NewIp) + Flag(d, GeoChange) + last;
      && (FailureBurst in signals <==> a) && (NewDevice in signals <==> b) && (NewIp in signals <==> c)
      && (GeoChange in signals <==> d)
      && (TransferVelocity in signals <==> last == [TransferVelocity])
      && (SensitiveAction in signals <==> last == [SensitiveAction])
  {
  }

  /**
    What raises each signal, on the logs in time order: three denials within 15 minutes; a device or address
    unknown to the last five logs, a country unknown to the last ten, if there are logs at all; and for a
    transfer either two transfers within an hour or, failing that, the transfer itself.
   */
  lemma SignalsMean(q: RiskQuery, logs: seq<RequestLog>, now: Time)
    ensures
      var signals := SignalsOf(q, logs, now);
      && (FailureBurst in signals <==> |Denials(logs, now)| >= 3)
      && (NewDevice in signals <==> DeviceIsNew(q, logs))
      && (NewIp in signals <==> IpIsNew(q, logs))
      && (GeoChange in signals <==> CountryIsNew(q, logs))
      && (TransferVelocity in signals <==> q.requestType == TRANSFER && |Transfers(logs, now)| >= 2)
      && (SensitiveAction in signals <==> q.requestType == TRANSFER && |Transfers(logs, now)| < 2)
  {
    KeepCounts(logs, RecentFailure(now));
    assert Indices(logs, RecentFailure(now)) == Denials(logs, now);
    KeepCounts(logs, RecentTransfer(now));
    assert Indices(logs, RecentTransfer(now)) == Transfers(logs, now);
    NewDeviceMeans(q, logs);
    NewIpMeans(q, logs);
    NewCountryMeans(q, logs);
    FlagsMean(|Keep(logs, RecentFailure(now))| >= 3, UnknownDevice(Suffix(logs, 5), q), UnknownIp(Suffix(logs, 5), q),
              UnknownCountry(Suffix(logs, 10), q), TransferSignal(q, logs, now));
  }

  /** On these two lists of logs, at these two times, the request raises each signal on both or on neither. */
  ghost predicate SameFacts(q: RiskQuery, xs: seq<RequestLog>, xNow: Time, ys: seq<RequestLog>, yNow: Time) {
    && (|Denials(xs, xNow)| >= 3 <==> |Denials(ys, yNow)| >= 3)
    && (DeviceIsNew(q, xs) <==> DeviceIsNew(q, ys))
    && (IpIsNew(q, xs) <==> IpIsNew(q, ys))
    && (CountryIsNew(q, xs) <==> CountryIsNew(q, ys))
    && (q.requestType == TRANSFER ==> (|Transfers(xs, xNow)| >= 2 <==> |Transfers(ys, yNow)| >= 2))
  }

  lemma SignalsHaveOneOrder(q: RiskQuery, xs: seq<RequestLog>, xNow: Time, ys: seq<RequestLog>, yNow: Time)
    requires forall signal :: signal in SignalsOf(q, xs, xNow) <==> signal in SignalsOf(q, ys, yNow)
    ensures SignalsOf(q, xs, xNow) == SignalsOf(q, ys, yNow)
  {
    FlagsMean(|Keep(xs, RecentFailure(xNow))| >= 3, UnknownDevice(Suffix(xs, 5), q), UnknownIp(Suffix(xs, 5), q),
              UnknownCountry(Suffix(xs, 10), q), TransferSignal(q, xs, xNow));
    FlagsMean(|Keep(ys, RecentFailure(yNow))| >= 3, UnknownDevice(Suffix(ys, 5), q), UnknownIp(Suffix(ys, 5), q),
              UnknownCountry(Suffix(ys, 10), q), TransferSignal(q, ys, yNow));
  }

  lemma SignalsAgreeExactlyWhen(q: RiskQuery, xs: seq<RequestLog>, xNow: Time, ys: seq<RequestLog>, yNow: Time)
    ensures SignalsOf(q, xs, xNow) == SignalsOf(q, ys, yNow) <==> SameFacts(q, xs, xNow, ys, yNow)
  {
    SignalsMean(q, xs, xNow);
    SignalsMean(q, ys, yNow);
    if SameFacts(q, xs, xNow, ys, yNow) {
      forall signal ensures signal in SignalsOf(q, xs, xNow) <==> signal in SignalsOf(q, ys, yNow) {
        match signal
        case FailureBurst =>
        case NewDevice =>
        case NewIp =>
        case GeoChange =>
        case TransferVelocity =>
        case SensitiveAction =>
      }
      SignalsHaveOneOrder(q, xs, xNow, ys, yNow);
    }
  }

  // ----- What the decision means, in numbers

  /** The points of the facts about logs in time order. */
  ghost function Points(q: RiskQuery, logs: seq<RequestLog>, now: Time): int {
    (if |Denials(logs, now)| >= 3 then 35 else 0)
    + (if DeviceIsNew(q, logs) then 15 else 0)
    + (if IpIsNew(q, logs) then 10 else 0)
    + (if CountryIsNew(q, logs) then 15 else 0)
    + (if q.requestType != "ownership_transfer" then 0 else if |Transfers(logs, now)| >= 2 then 30 else 10)
  }

  function Said(raised: bool, text: string): string {
    if raised then text else ""
  }

  /** The names of the facts, each with a separator. */
  ghost function Facts(q: RiskQuery, logs: seq<RequestLog>, now: Time): string {
    Listing(|Denials(logs, now)| >= 3, DeviceIsNew(q, logs), IpIsNew(q, logs), CountryIsNew(q, logs),
            TransferFact(q, logs, now))
  }

  function Listing(burst: bool, newDevice: bool, newIp: bool, geoChange: bool, last: string): string {
    Said(burst, "failure_burst;") + Said(newDevice, "new_device;") + Said(newIp, "new_ip;")
    + Said(geoChange, "geo_change;") + last
  }

  ghost function TransferFact(q: RiskQuery, logs: seq<RequestLog>, now: Time): string {
    if q.requestType != "ownership_transfer" then ""
    else if |Transfers(logs, now)| >= 2 then "transfer_velocity;" else "sensitive_action;"
  }

  function Listed(names: seq<string>): string {
    if names == [] then "" else Listed(names[..|names| - 1]) + names[|names| - 1] + ";"
  }

  lemma {:induction false} ReasonsAreListed(names: seq<string>)
    ensures names != [] ==> Reasons(names) + ";" == Listed(names)
  {
    if |names| > 1 {
      ReasonsAreListed(names[..|names| - 1]);
      assert Reasons(names) + ";" == (Reasons(names[..|names| - 1]) + ";") + names[|names| - 1] + ";";
    } else if |names| == 1 {
      assert names[..0] == [];
      assert Listed(names) == "" + names[0] + ";";
    }
  }

  lemma {:induction false} ListedTogether(xs: seq<string>, ys: seq<string>)
    ensures Listed(xs + ys) == Listed(xs) + Listed(ys)
  {
    if ys == [] {
      assert xs + ys == xs;
    } else {
      assert (xs + ys)[..|xs + ys| - 1] == xs + ys[..|ys| - 1];
      ListedTogether(xs, ys[..|ys| - 1]);
    }
  }

  lemma {:induction false} ScoresTogether(xs: seq<Signal>, ys: seq<Signal>)
    ensures TotalScore(xs + ys) == TotalScore(xs) + TotalScore(ys)
  {
    if ys == [] {
      assert xs + ys == xs;
    } else {
      assert (xs + ys)[..|xs + ys| - 1] == xs + ys[..|ys| - 1];
      ScoresTogether(xs, ys[..|ys| - 1]);
    }
  }

  lemma NamesTogether(xs: seq<Signal>, ys: seq<Signal>)
    ensures Listed(Names(xs + ys)) == Listed(Names(xs)) + Listed(Names(ys))
  {
    assert Names(xs + ys) == Names(xs) + Names(ys);
    ListedTogether(Names(xs), Names(ys));
  }

  lemma FiveTogether(v: seq<Signal>, w: seq<Signal>, x: seq<Signal>, y: seq<Signal>, z: seq<Signal>)
    ensures TotalScore(v + w + x + y + z)
         == TotalScore(v) + TotalScore(w) + TotalScore(x) + TotalScore(y) + TotalScore(z)
    ensures Listed(Names(v + w + x + y + z))
         == Listed(Names(v)) + Listed(Names(w)) + Listed(Names(x)) + Listed(Names(y)) + Listed(Names(z))
  {
    ScoresTogether(v, w);
    ScoresTogether(v + w, x);
    ScoresTogether(v + w + x, y);
    ScoresTogether(v + w + x + y, z);
    NamesTogether(v, w);
    NamesTogether(v + w, x);
    NamesTogether(v + w + x, y);
    NamesTogether(v + w + x + y, z);
  }

  lemma FlagAlone(raised: bool, signal: Signal)
    ensures TotalScore(Flag(raised, signal)) == if raised then Score(signal) else 0
    ensures Listed(Names(Flag(raised, signal))) == Said(raised, Name(signal) + ";")
  {
    if raised {
      assert [signal][..0] == [];
      assert Names([signal])[..0] == [];
      assert Listed(Names([signal])) == "" + Name(signal) + ";";
    }
  }

  /** Which signals are raised is told by the facts. */
  lemma FlagsAreFacts(q: RiskQuery, logs: seq<RequestLog>, now: Time)
    ensures |Keep(logs, RecentFailure(now))| == |Denials(logs, now)|
    ensures |Keep(logs, RecentTransfer(now))| == |Transfers(logs, now)|
    ensures UnknownDevice(Suffix(logs, 5), q) <==> DeviceIsNew(q, logs)
    ensures UnknownIp(Suffix(logs, 5), q) <==> IpIsNew(q, logs)
    ensures UnknownCountry(Suffix(logs, 10), q) <==> CountryIsNew(q, logs)
  {
    KeepCounts(logs, RecentFailure(now));
    assert Indices(logs, RecentFailure(now)) == Denials(logs, now);
    KeepCounts(logs, RecentTransfer(now));
    assert Indices(logs, RecentTransfer(now)) == Transfers(logs, now);
    NewDeviceMeans(q, logs);
    NewIpMeans(q, logs);
    NewCountryMeans(q, logs);
  }

  lemma NamesAreSpelled()
    ensures "failure_burst" + ";" == "failure_burst;" && "new_device" + ";" == "new_device;"
    ensures "new_ip" + ";" == "new_ip;" && "geo_change" + ";" == "geo_change;"
    ensures "transfer_velocity" + ";" == "transfer_velocity;" && "sensitive_action" + ";" == "sensitive_action;"
  {
  }

  lemma TransferAddsUp(q: RiskQuery, logs: seq<RequestLog>, now: Time)
    ensures TotalScore(TransferSignal(q, logs, now))
         == if q.requestType != "ownership_transfer" then 0 else if |Transfers(logs, now)| >= 2 then 30 else 10
    ensures Listed(Names(TransferSignal(q, logs, now))) == TransferFact(q, logs, now)
  {
    FlagsAreFacts(q, logs, now);
    NamesAreSpelled();
    FlagAlone(true, TransferVelocity);
    FlagAlone(true, SensitiveAction);
  }

  lemma FlagsScore(a: bool, b: bool, c: bool, d: bool, last: seq<Signal>)
    ensures TotalScore(Flag(a, FailureBurst) + Flag(b, NewDevice) + Flag(c, NewIp) + Flag(d, GeoChange) + last)
         == (if a then 35 else 0) + (if b then 15 else 0) + (if c then 10 else 0) + (if d then 15 else 0)
            + TotalScore(last)
  {
    FiveTogether(Flag(a, FailureBurst), Flag(b, NewDevice), Flag(c, NewIp), Flag(d, GeoChange), last);
    FlagAlone(a, FailureBurst);
    FlagAlone(b, NewDevice);
    FlagAlone(c, NewIp);
    FlagAlone(d, GeoChange);
  }

  lemma FlagsNames(a: bool, b: bool, c: bool, d: bool, last: seq<Signal>)
    ensures Listed(Names(Flag(a, FailureBurst) + Flag(b, NewDevice) + Flag(c, NewIp) + Flag(d, GeoChange) + last))
         == Listing(a, b, c, d, Listed(Names(last)))
  {
    NamesAreSpelled();
    FiveTogether(Flag(a, FailureBurst), Flag(b, NewDevice), Flag(c, NewIp), Flag(d, GeoChange), last);
    FlagAlone(a, FailureBurst);
    FlagAlone(b, NewDevice);
    FlagAlone(c, NewIp);
    FlagAlone(d, GeoChange);
  }

  lemma SignalsAddUp(q: RiskQuery, logs: seq<RequestLog>, now: Time)
    ensures TotalScore(SignalsOf(q, logs, now)) == Points(q, logs, now)
  {
    FlagsAreFacts(q, logs, now);
    FlagsScore(|Keep(logs, RecentFailure(now))| >= 3, UnknownDevice(Suffix(logs, 5), q), UnknownIp(Suffix(logs, 5), q),
               UnknownCountry(Suffix(logs, 10), q), TransferSignal(q, logs, now));
    TransferAddsUp(q, logs, now);
  }

  lemma SignalsAreListed(q: RiskQuery, logs: seq<RequestLog>, now: Time)
    ensures Listed(Names(SignalsOf(q, logs, now))) == Facts(q, logs, now)
  {
    FlagsAreFacts(q, logs, now);
    FlagsNames(|Keep(logs, RecentFailure(now))| >= 3, UnknownDevice(Suffix(logs, 5), q), UnknownIp(Suffix(logs, 5), q),
               UnknownCountry(Suffix(logs, 10), q), TransferSignal(q, logs, now));
    TransferAddsUp(q, logs, now);
  }

  /** What the decision says of the logs: score, verdict, trust and reason. */
  ghost predicate DecidedOn(decision: RiskDecision, q: RiskQuery, logs: seq<RequestLog>, now: Time) {
    var points := Points(q, logs, now);
    && decision.riskScore == points
    && (decision.allow <==> points < 70)
    && decision.trustScore == (if points > 100 then 0 else 100 - points)
    && (if points == 0 then decision.reason == "allowed" else decision.reason + ";" == Facts(q, logs, now))
  }

  lemma {:induction false} RaisedSignalsScore(signals: seq<Signal>)
    ensures TotalScore(signals) >= 10 * |signals|
  {
    if signals != [] {
      RaisedSignalsScore(signals[..|signals| - 1]);
    }
  }

  lemma SomeScore(signals: seq<Signal>)
    ensures signals != [] ==> TotalScore(signals) >= 10 && Reasons(Names(signals)) != ""
  {
    if signals != [] {
      RaisedSignalsScore(signals);
      ReasonsAreListed(Names(signals));
    }
  }

  lemma DecisionMeans(q: RiskQuery, logs: seq<RequestLog>, now: Time)
    ensures DecidedOn(DecisionOf(SignalsOf(q, logs, now)), q, logs, now)
  {
    var signals := SignalsOf(q, logs, now);
    SignalsAddUp(q, logs, now);
    SignalsAreListed(q, logs, now);
    SomeScore(signals);
    ReasonsAreListed(Names(signals));
  }

  /** The list is the history in the order of time, id and trace id. */
  ghost predicate InOrderOf(history: seq<RequestLog>, logs: seq<RequestLog>) {
    && multiset(logs) == multiset(history)
    && forall i, j :: 0 <= i < j < |logs| ==>
         || logs[i].createdAt < logs[j].createdAt
         || (logs[i].createdAt == logs[j].createdAt
             && (logs[i].id < logs[j].id || (logs[i].id == logs[j].id && StringLeq(logs[i].traceId, logs[j].traceId))))
  }

  lemma SortedHistory(history: seq<RequestLog>)
    ensures InOrderOf(history, Sort(LogLeq, history))
  {
    LogOrder();
    SortIsSorting(LogLeq, history);
  }

  /**
    The decision on a history in whatever order: 35 points for three denials within 15 minutes, 15 for a new device,
    10 for a new address, 15 for a new country, 30 or 10 for a transfer; denied from 70 points on.
   */
  lemma RiskMeans(q: RiskQuery, history: seq<RequestLog>, now: Time)
    ensures InOrderOf(history, Sort(LogLeq, history))
    ensures DecidedOn(Risk(q, history, now), q, Sort(LogLeq, history), now)
  {
    SortedHistory(history);
    DecisionMeans(q, Sort(LogLeq, history), now);
  }

  /** `RiskEngine.evaluate`: score and reasons grow side by side. */
  method Evaluate(q: RiskQuery, history: seq<RequestLog>, now: Time) returns (decision: RiskDecision)
    ensures decision == Risk(q, history, now)
    ensures exists logs :: InOrderOf(history, logs) && DecidedOn(decision, q, logs, now)
  {
    RiskMeans(q, history, now);
    var logs := Sort(LogLeq, history);
    var score, reasons := HistorySignals(q, logs, now);
    score, reasons := AddTransferSignal(q, logs, now, score, reasons);
    decision := Verdict(score, reasons);
  }

  /** Without any history no request reaches the denying score. */
  lemma EmptyHistoryAllows(q: RiskQuery, now: Time)
    ensures Risk(q, [], now).allow
  {
    var logs := Sort(LogLeq, []);
    assert logs == [];
    assert Keep(logs, RecentFailure(now)) == [] && Keep(logs, RecentTransfer(now)) == [];
    assert Suffix(logs, 5) == [] && Suffix(logs, 10) == [];
    assert SignalsOf(q, logs, now) == TransferSignal(q, logs, now);
    var signals := SignalsOf(q, logs, now);
    assert signals == [] || signals == [SensitiveAction];
    assert TotalScore(signals) <= 10 by {
      assert signals != [] ==> signals[..0] == [];
    }
  }
}
