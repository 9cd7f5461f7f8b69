/** What one uncontended call of `reencrypt_webhook_secrets` does to the table, and what calls in a row achieve. */
module ReencryptProgress {
  import opened Prelude
  import opened Secrets
  import opened ReencryptProtocol

  /** The rows that do not have a verified label with the active kid. */
  ghost function Needing(rows: seq<Sub>, active: Kid): set<nat> {
    set i: nat | i < |rows| && !(rows[i].verified && rows[i].keyVersion == active)
  }

  /** Another call's lease on the row has not run out. */
  predicate LeaseRuns(row: Sub, now: Time) {
    row.claimedBy.Some? && row.claimExpiresAt.Some? && now < row.claimExpiresAt.value
  }

  /** Those of them that nobody else is working on. */
  ghost function Takeable(rows: seq<Sub>, active: Kid, now: Time): set<nat> {
    set i: nat | i < |rows| && !(rows[i].verified && rows[i].keyVersion == active) && !LeaseRuns(rows[i], now)
  }

  /** The lowest of these numbers, up to `limit` of them, in order. */
  ghost predicate Lowest(ids: seq<nat>, among: set<nat>, limit: nat) {
    && |ids| == Min(limit, |among|)
    && (forall i, j :: 0 <= i < j < |ids| ==> ids[i] < ids[j])
    && (forall k :: k in ids ==> k in among)
    && (forall k, id :: k in among && k !in ids && id in ids ==> id < k)
  }

  /** How many rows from `from` on are stale and not under a running lease. */
  function CountStale(rows: seq<Sub>, active: Kid, now: Time, from: nat): (n: nat)
    decreases |rows| - from
  {
    if from >= |rows| then 0
    else (if Stale(rows[from], active) && Free(rows[from], now) then 1 else 0) + CountStale(rows, active, now, from + 1)
  }

  /** The rows a call with this limit works on. */
  function Chosen(rows: seq<Sub>, active: Kid, now: Time, limit: nat): (ids: seq<nat>)
    ensures forall i, j :: 0 <= i < j < |ids| ==> ids[i] < ids[j]
    ensures forall i :: 0 <= i < |ids| ==> ids[i] < |rows|
  {
    CandidateIds(rows, active, now, 0, limit)
  }

  /** The same secret, opened by the active key alone, with a verified label and no claim. */
  predicate Migrated(ring: Keyring, before: Sub, after: Sub) {
    && after.cipher.plaintext == before.cipher.plaintext
    && KeyOf(ring.entries, ring.active) == Some(after.cipher.key)
    && after.keyVersion == ring.active && after.verified
    && after.claimedBy.None? && after.claimExpiresAt.None?
  }

  /** The effect of one successful call: the chosen rows are migrated, the others untouched. */
  ghost predicate Call(ring: Keyring, now: Time, limit: nat, before: seq<Sub>, after: seq<Sub>) {
    && |after| == |before|
    && forall i :: 0 <= i < |before| ==>
         if i in Chosen(before, ring.active, now, limit) then Migrated(ring, before[i], after[i])
         else after[i] == before[i]
  }

  lemma {:induction false} CandidatesAreStale(rows: seq<Sub>, active: Kid, now: Time, from: nat, n: nat)
    ensures forall i :: i in CandidateIds(rows, active, now, from, n) ==>
      i < |rows| && Stale(rows[i], active) && Free(rows[i], now)
    decreases |rows| - from
  {
    if from < |rows| && n > 0 {
      CandidatesAreStale(rows, active, now, from + 1, n - 1);
      CandidatesAreStale(rows, active, now, from + 1, n);
    }
  }

  lemma {:induction false} CandidatesAreCounted(rows: seq<Sub>, active: Kid, now: Time, from: nat, n: nat)
    ensures |CandidateIds(rows, active, now, from, n)| == Min(n, CountStale(rows, active, now, from))
    decreases |rows| - from
  {
    if from < |rows| && n > 0 {
      CandidatesAreCounted(rows, active, now, from + 1, n - 1);
      CandidatesAreCounted(rows, active, now, from + 1, n);
    }
  }

  /** A longer query begins with the shorter one. */
  lemma {:induction false} CandidatesArePrefix(rows: seq<Sub>, active: Kid, now: Time, from: nat, n: nat)
    ensures CandidateIds(rows, active, now, from, n) <= CandidateIds(rows, active, now, from, n + 1)
    decreases |rows| - from
  {
    if from < |rows| {
      if n > 0 {
        CandidatesArePrefix(rows, active, now, from + 1, n - 1);
      }
      CandidatesArePrefix(rows, active, now, from + 1, n);
    }
  }

  /** Rows from `from` on that the query picks lose their staleness, and no other row changes. */
  ghost predicate MigratesFrom(before: seq<Sub>, after: seq<Sub>, active: Kid, now: Time, from: nat, n: nat) {
    && |after| == |before|
    && forall i :: from <= i < |before| ==>
         if i in CandidateIds(before, active, now, from, n) then !Stale(after[i], active) else after[i] == before[i]
  }

  lemma {:induction false} MigrationCounts(before: seq<Sub>, after: seq<Sub>, active: Kid, now: Time, from: nat, n: nat)
    requires MigratesFrom(before, after, active, now, from, n)
    ensures CountStale(after, active, now, from)
         == CountStale(before, active, now, from) - |CandidateIds(before, active, now, from, n)|
    decreases |before| - from
  {
    if from < |before| {
      var picked := n > 0 && Stale(before[from], active) && Free(before[from], now);
      var m := if picked then n - 1 else n;
      var rest := CandidateIds(before, active, now, from + 1, m);
      assert CandidateIds(before, active, now, from, n) == if picked then [from] + rest else rest by {
        if n == 0 { assert rest == []; }
      }
      assert MigratesFrom(before, after, active, now, from + 1, m);
      MigrationCounts(before, after, active, now, from + 1, m);
    }
  }


  lemma FreeMeans(row: Sub, now: Time)
    ensures Free(row, now) <==> !LeaseRuns(row, now)
  {
  }

  ghost function TakeableFrom(rows: seq<Sub>, active: Kid, now: Time, from: nat): set<nat> {
    set i: nat | from <= i < |rows| && !(rows[i].verified && rows[i].keyVersion == active) && !LeaseRuns(rows[i], now)
  }

  lemma {:induction false} CountIsOfTakeable(rows: seq<Sub>, active: Kid, now: Time, from: nat)
    ensures CountStale(rows, active, now, from) == |TakeableFrom(rows, active, now, from)|
    decreases |rows| - from
  {
    if from < |rows| {
      CountIsOfTakeable(rows, active, now, from + 1);
      var all, rest := TakeableFrom(rows, active, now, from), TakeableFrom(rows, active, now, from + 1);
      FreeMeans(rows[from], now);
      if Stale(rows[from], active) && Free(rows[from], now) {
        assert all == rest + {from};
      } else {
        assert all == rest;
      }
    } else {
      assert TakeableFrom(rows, active, now, from) == {};
    }
  }

  lemma CountMeans(rows: seq<Sub>, active: Kid, now: Time)
    ensures CountStale(rows, active, now, 0) == |Takeable(rows, active, now)|
  {
    CountIsOfTakeable(rows, active, now, 0);
    assert TakeableFrom(rows, active, now, 0) == Takeable(rows, active, now);
  }

  lemma {:induction false} CandidatesComeFirst(rows: seq<Sub>, active: Kid, now: Time, from: nat, n: nat, k: nat,
                                               id: nat)
    requires from <= k < |rows| && Stale(rows[k], active) && Free(rows[k], now)
    requires k !in CandidateIds(rows, active, now, from, n) && id in CandidateIds(rows, active, now, from, n)
    ensures id < k
    decreases |rows| - from
  {
    var picked := Stale(rows[from], active) && Free(rows[from], now);
    var m := if picked then n - 1 else n;
    var ids, rest := CandidateIds(rows, active, now, from, n), CandidateIds(rows, active, now, from + 1, m);
    assert ids == if picked then [from] + rest else rest;
    if k != from && id != from {
      CandidatesComeFirst(rows, active, now, from + 1, m, k, id);
    }
  }

  /** A call works on exactly the lowest rows that need it and are not under a running lease, up to its limit. */
  lemma ChosenAreLowest(rows: seq<Sub>, active: Kid, now: Time, limit: nat)
    ensures Lowest(Chosen(rows, active, now, limit), Takeable(rows, active, now), limit)
  {
    CandidatesAreCounted(rows, active, now, 0, limit);
    CountMeans(rows, active, now);
    CandidatesAreStale(rows, active, now, 0, limit);
    var ids := Chosen(rows, active, now, limit);
    forall k, id | k in Takeable(rows, active, now) && k !in ids && id in ids ensures id < k {
      FreeMeans(rows[k], now);
      CandidatesComeFirst(rows, active, now, 0, limit, k, id);
    }
  }

  /** Each uncontended call migrates the lowest rows that it may take, min(limit, all) of them. */
  lemma CallMigratesLimit(ring: Keyring, now: Time, limit: nat, before: seq<Sub>, after: seq<Sub>)
    requires Call(ring, now, limit, before, after)
    ensures
      var takeable := Takeable(before, ring.active, now);
      && Lowest(Chosen(before, ring.active, now, limit), takeable, limit)
      && |Takeable(after, ring.active, now)| == |takeable| - Min(limit, |takeable|)
  {
    ChosenAreLowest(before, ring.active, now, limit);
    CandidatesAreCounted(before, ring.active, now, 0, limit);
    MigrationCounts(before, after, ring.active, now, 0, limit);
    CountMeans(before, ring.active, now);
    CountMeans(after, ring.active, now);
  }

  /** Every claim there is has run out. */
  ghost predicate ClaimsOver(rows: seq<Sub>, now: Time) {
    forall i :: 0 <= i < |rows| ==> !LeaseRuns(rows[i], now)
  }

  /** Every row opens under the active key alone. */
  ghost predicate AllOnActiveKey(ring: Keyring, rows: seq<Sub>) {
    forall i :: 0 <= i < |rows| ==>
      rows[i].keyVersion == ring.active && rows[i].verified
      && KeyOf(ring.entries, ring.active) == Some(rows[i].cipher.key)
  }

  /** Not stale means on the active key, wherever verified labels tell the truth. */
  ghost predicate ActiveLabelsTrue(ring: Keyring, rows: seq<Sub>) {
    forall i :: 0 <= i < |rows| && !Stale(rows[i], ring.active) ==>
      KeyOf(ring.entries, ring.active) == Some(rows[i].cipher.key)
  }

  lemma AllAreTakeable(rows: seq<Sub>, active: Kid, now: Time)
    requires ClaimsOver(rows, now)
    ensures Takeable(rows, active, now) == Needing(rows, active)
  {
  }

  /** Nothing is left to do exactly if every row is on the active key, where verified labels tell the truth. */
  lemma NothingLeft(ring: Keyring, rows: seq<Sub>)
    requires ActiveLabelsTrue(ring, rows)
    ensures |Needing(rows, ring.active)| == 0 <==> AllOnActiveKey(ring, rows)
  {
    var needing := Needing(rows, ring.active);
    if AllOnActiveKey(ring, rows) {
      assert needing == {};
    }
    if |needing| == 0 {
      forall i | 0 <= i < |rows| ensures !Stale(rows[i], ring.active) {
        assert i !in needing;
      }
    }
  }

  lemma CallKeepsTable(ring: Keyring, now: Time, limit: nat, before: seq<Sub>, after: seq<Sub>, later: Time)
    requires Call(ring, now, limit, before, after) && ActiveLabelsTrue(ring, before)
    ensures ActiveLabelsTrue(ring, after)
    ensures ClaimsOver(before, later) ==> ClaimsOver(after, later)
  {
  }

  /** A series of uncontended calls with one limit: the table before each call, and after the last. */
  ghost predicate Calls(ring: Keyring, limit: nat, tables: seq<seq<Sub>>, clocks: seq<Time>) {
    && |tables| == |clocks| + 1
    && forall k :: 0 <= k < |clocks| ==> Call(ring, clocks[k], limit, tables[k], tables[k + 1])
  }

  /** A call takes up to `limit` rows off those that need it. */
  lemma OneMoreCall(ring: Keyring, limit: nat, before: seq<Sub>, after: seq<Sub>, now: Time)
    requires Call(ring, now, limit, before, after) && ActiveLabelsTrue(ring, before) && ClaimsOver(before, now)
    ensures |Needing(after, ring.active)| == Max(0, |Needing(before, ring.active)| - limit)
  {
    CallMigratesLimit(ring, now, limit, before, after);
    CallKeepsTable(ring, now, limit, before, after, now);
    CountMeans(before, ring.active, now);
    CountMeans(after, ring.active, now);
    AllAreTakeable(before, ring.active, now);
    AllAreTakeable(after, ring.active, now);
  }

  function Times(n: nat, limit: nat): (r: nat)
    ensures r == n * limit
  {
    if n == 0 then 0 else Times(n - 1, limit) + limit
  }

  /** At each of these clock readings every claim of the table has run out. */
  ghost predicate ClaimsOverAt(rows: seq<Sub>, clocks: seq<Time>) {
    forall k :: 0 <= k < |clocks| ==> ClaimsOver(rows, clocks[k])
  }

  lemma {:induction false} CallsReduce(ring: Keyring, limit: nat, tables: seq<seq<Sub>>, clocks: seq<Time>,
                                       all: seq<Time>)
    requires Calls(ring, limit, tables, clocks) && clocks <= all && ClaimsOverAt(tables[0], all)
    requires ActiveLabelsTrue(ring, tables[0])
    ensures
      var last := tables[|clocks|];
      && ClaimsOverAt(last, all) && ActiveLabelsTrue(ring, last)
      && |Needing(last, ring.active)| == Max(0, |Needing(tables[0], ring.active)| - Times(|clocks|, limit))
  {
    var n := |clocks|;
    if n > 0 {
      CallsReduce(ring, limit, tables[..n], clocks[..n - 1], all);
      assert Call(ring, clocks[n - 1], limit, tables[n - 1], tables[n]);
      assert ClaimsOver(tables[n - 1], all[n - 1]);
      OneMoreCall(ring, limit, tables[n - 1], tables[n], clocks[n - 1]);
      forall k | 0 <= k < |all| ensures ClaimsOver(tables[n], all[k]) {
        CallKeepsTable(ring, clocks[n - 1], limit, tables[n - 1], tables[n], all[k]);
      }
      CallKeepsTable(ring, clocks[n - 1], limit, tables[n - 1], tables[n], clocks[n - 1]);
    }
  }

  /**
    Repeated uncontended calls finish: if every claim in the table has run out by the time of each call, then after
    k calls max(0, n - k * limit) of n rows that need it are left, and every ciphertext opens under the active key
    alone exactly if k * limit is enough.
   */
  lemma CallsFinish(ring: Keyring, limit: nat, tables: seq<seq<Sub>>, clocks: seq<Time>)
    requires Calls(ring, limit, tables, clocks) && ClaimsOverAt(tables[0], clocks) && ActiveLabelsTrue(ring, tables[0])
    ensures
      var stale := |Needing(tables[0], ring.active)|;
      var last := tables[|clocks|];
      && |Needing(last, ring.active)| == Max(0, stale - |clocks| * limit)
      && (stale <= |clocks| * limit <==> AllOnActiveKey(ring, last))
  {
    CallsReduce(ring, limit, tables, clocks, clocks);
    NothingLeft(ring, tables[|clocks|]);
  }

  /** What a call answers about this table: there are more rows than it may take. */
  ghost predicate Remaining(ring: Keyring, now: Time, limit: nat, rows: seq<Sub>) {
    |Takeable(rows, ring.active, now)| > limit
  }

  /**
    When every claim has run out the answer is the truth: False exactly when the call leaves every row on the
    active key.
   */
  lemma RemainingIsTruthful(ring: Keyring, now: Time, limit: nat, before: seq<Sub>, after: seq<Sub>)
    requires Call(ring, now, limit, before, after) && ClaimsOver(before, now) && ActiveLabelsTrue(ring, before)
    ensures !Remaining(ring, now, limit, before) <==> AllOnActiveKey(ring, after)
  {
    OneMoreCall(ring, limit, before, after, now);
    AllAreTakeable(before, ring.active, now);
    CallKeepsTable(ring, now, limit, before, after, now);
    NothingLeft(ring, after);
  }

  /**
    The last of the calls answers False exactly when they were enough, and that is when every row is on the
    active key.
   */
  lemma LastCallAnswersFalse(ring: Keyring, limit: nat, tables: seq<seq<Sub>>, clocks: seq<Time>)
    requires clocks != [] && Calls(ring, limit, tables, clocks) && ClaimsOverAt(tables[0], clocks)
    requires ActiveLabelsTrue(ring, tables[0])
    ensures
      var n := |clocks|;
      var done := !Remaining(ring, clocks[n - 1], limit, tables[n - 1]);
      && (done <==> |Needing(tables[0], ring.active)| <= n * limit)
      && (done <==> AllOnActiveKey(ring, tables[n]))
  {
    var n := |clocks|;
    CallsReduce(ring, limit, tables[..n], clocks[..n - 1], clocks);
    CallsFinish(ring, limit, tables, clocks);
    assert Call(ring, clocks[n - 1], limit, tables[n - 1], tables[n]);
    assert ClaimsOver(tables[n - 1], clocks[n - 1]);
    RemainingIsTruthful(ring, clocks[n - 1], limit, tables[n - 1], tables[n]);
  }

  // ----- Rows under somebody else's lease

  /** Some row that needs the call is under a lease that has not run out. */
  ghost predicate SomeLeased(rows: seq<Sub>, active: Kid, now: Time) {
    exists i :: 0 <= i < |rows| && !(rows[i].verified && rows[i].keyVersion == active) && LeaseRuns(rows[i], now)
  }

  ghost predicate SomeStale(rows: seq<Sub>, active: Kid) {
    exists i :: 0 <= i < |rows| && !(rows[i].verified && rows[i].keyVersion == active)
  }

  lemma {:induction false} CandidatesAreAll(rows: seq<Sub>, active: Kid, now: Time, from: nat, n: nat)
    requires CountStale(rows, active, now, from) <= n
    ensures forall i :: from <= i < |rows| && Stale(rows[i], active) && Free(rows[i], now) ==>
      i in CandidateIds(rows, active, now, from, n)
    decreases |rows| - from
  {
    if from < |rows| {
      CandidatesAreAll(rows, active, now, from + 1,
                       if Stale(rows[from], active) && Free(rows[from], now) then n - 1 else n);
    }
  }

  /** A call that answers False has left a stale row behind exactly if one was under a running lease. */
  lemma StaleRowsAreLeftWhen(ring: Keyring, now: Time, limit: nat, before: seq<Sub>, after: seq<Sub>)
    requires Call(ring, now, limit, before, after) && !Remaining(ring, now, limit, before)
    ensures SomeStale(after, ring.active) <==> SomeLeased(before, ring.active, now)
  {
    CountMeans(before, ring.active, now);
    CandidatesAreAll(before, ring.active, now, 0, limit);
    CandidatesAreStale(before, ring.active, now, 0, limit);
    if SomeLeased(before, ring.active, now) {
      var i :| 0 <= i < |before| && Stale(before[i], ring.active) && LeaseRuns(before[i], now);
      assert after[i] == before[i];
    }
    if SomeStale(after, ring.active) {
      var i :| 0 <= i < |after| && !(after[i].verified && after[i].keyVersion == ring.active);
      FreeMeans(before[i], now);
      assert Stale(before[i], ring.active) && LeaseRuns(before[i], now);
    }
  }

  /** A call that changes nothing and answers False although the only row is stale. */
  lemma LeasedRowIsOverlooked()
    ensures
      var ring := Keyring([Entry("old", "first"), Entry("new", "second")], "new");
      var rows := [Sub(Cipher("first", "secret", 0), "old", true, Some(0), Some(10.0))];
      Call(ring, 5.0, 1, rows, rows) && !Remaining(ring, 5.0, 1, rows) && SomeStale(rows, ring.active)
  {
    var rows := [Sub(Cipher("first", "secret", 0), "old", true, Some(0), Some(10.0))];
    assert "old" != "new" by {
      assert "old"[0] != "new"[0];
    }
    assert Stale(rows[0], "new") && !Free(rows[0], 5.0);
    assert CandidateIds(rows, "new", 5.0, 1, 1) == [];
    assert Takeable(rows, "new", 5.0) == {};
  }
}
