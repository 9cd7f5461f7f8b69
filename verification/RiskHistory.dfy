/**
  `load_risk_history`: the last hour and the latest ten rows of a right, instead of all of them.
  The truncation never changes the risk decision.
 */
module RiskHistory {
  import opened Prelude
  import opened Sorting
  import opened AuditLog
  import opened RiskEngine

  const HOUR: Time := 3600.0
  const LATEST := 10

  /** Rows the history of a right may use: strictly before a replayed log, or up to the clock reading. */
  function InScope(tenant: string, right: string, reference: Time, strict: bool): RequestLog -> bool {
    (l: RequestLog) => l.tenantId == tenant && l.rightId == right
                       && (if strict then l.createdAt < reference else l.createdAt <= reference)
  }

  function WithinHour(reference: Time): RequestLog -> bool {
    (l: RequestLog) => l.createdAt >= reference - HOUR
  }

  /** ORDER BY created_at DESC, id DESC */
  function Descending(rows: seq<RequestLog>): (r: seq<RequestLog>)
    ensures |r| == |rows|
    ensures forall i :: 0 <= i < |r| ==> r[i] == Sort(RowLeq, rows)[|rows| - 1 - i]
  {
    var sorted := Sort(RowLeq, rows);
    seq(|rows|, i requires 0 <= i < |rows| => sorted[|rows| - 1 - i])
  }

  predicate HasId(entries: seq<RequestLog>, id: nat) {
    exists i :: 0 <= i < |entries| && entries[i].id == id
  }

  /** `d[log.id] = log` on a dictionary kept in insertion order. */
  function Assign(entries: seq<RequestLog>, log: RequestLog): seq<RequestLog> {
    if entries == [] then [log]
    else if entries[0].id == log.id then [log] + entries[1..]
    else [entries[0]] + Assign(entries[1..], log)
  }

  function AssignAll(entries: seq<RequestLog>, more: seq<RequestLog>): seq<RequestLog> {
    if more == [] then entries else Assign(AssignAll(entries, more[..|more| - 1]), more[|more| - 1])
  }

  function Eligible(table: seq<RequestLog>, tenant: string, right: string, reference: Time,
                    strict: bool): seq<RequestLog> {
    Keep(table, InScope(tenant, right, reference, strict))
  }

  function RecentByTime(rows: seq<RequestLog>, reference: Time): seq<RequestLog> {
    Descending(Keep(rows, WithinHour(reference)))
  }

  function LatestTen(rows: seq<RequestLog>): seq<RequestLog> {
    Descending(rows)[..Min(LATEST, |rows|)]
  }

  /** The rows `load_risk_history` returns. */
  function History(table: seq<RequestLog>, tenant: string, right: string, reference: Time,
                   strict: bool): seq<RequestLog> {
    var rows := Eligible(table, tenant, right, reference, strict);
    AssignAll(RecentByTime(rows, reference), LatestTen(rows))
  }

  method LoadRiskHistory(table: seq<RequestLog>, tenant: string, right: string, before: Option<Time>, clock: Time)
    returns (rows: seq<RequestLog>)
    ensures rows == History(table, tenant, right, if before.Some? then before.value else clock, before.Some?)
  {
    var reference := if before.Some? then before.value else clock;
    var conditions := Eligible(table, tenant, right, reference, before.Some?);
    var recentByTime := RecentByTime(conditions, reference);
    var latestTen := LatestTen(conditions);
    var logsById := recentByTime;
    for k := 0 to |latestTen|
      invariant logsById == AssignAll(recentByTime, latestTen[..k])
    {
      assert latestTen[..k + 1][..k] == latestTen[..k];
      logsById := Assign(logsById, latestTen[k]);
    }
    assert latestTen[..|latestTen|] == latestTen;
    rows := logsById;
  }

  // ----- The dictionary

  lemma {:induction false} AssignMembers(entries: seq<RequestLog>, log: RequestLog, x: RequestLog)
    requires forall i :: 0 <= i < |entries| && entries[i].id == log.id ==> entries[i] == log
    ensures x in Assign(entries, log) <==> x in entries || x == log
  {
    if entries != [] && entries[0].id != log.id {
      AssignMembers(entries[1..], log, x);
      assert x in entries <==> x == entries[0] || x in entries[1..];
    }
  }

  lemma {:induction false} AssignKeepsDistinctIds(entries: seq<RequestLog>, log: RequestLog)
    requires DistinctIds(entries)
    ensures DistinctIds(Assign(entries, log))
    ensures forall i :: 0 <= i < |Assign(entries, log)| ==>
      Assign(entries, log)[i].id == log.id || HasId(entries, Assign(entries, log)[i].id)
  {
    if entries != [] && entries[0].id != log.id {
      var rest := entries[1..];
      AssignKeepsDistinctIds(rest, log);
      var r := Assign(rest, log);
      forall i | 0 <= i < |r| ensures r[i].id == log.id || HasId(rest, r[i].id) {
      }
    }
  }

  /** Rows of one table: an id determines its row. */
  ghost predicate SameTable(xs: seq<RequestLog>, ys: seq<RequestLog>) {
    forall x, y :: x in xs && y in ys && x.id == y.id ==> x == y
  }

  lemma {:induction false} AssignAllIsUnion(entries: seq<RequestLog>, more: seq<RequestLog>)
    requires DistinctIds(entries) && SameTable(entries, more) && SameTable(more, more)
    ensures DistinctIds(AssignAll(entries, more))
    ensures forall x :: x in AssignAll(entries, more) <==> x in entries || x in more
  {
    if more != [] {
      var front, last := more[..|more| - 1], more[|more| - 1];
      AssignAllIsUnion(entries, front);
      var r := AssignAll(entries, front);
      AssignKeepsDistinctIds(r, last);
      assert forall i :: 0 <= i < |r| && r[i].id == last.id ==> r[i] in r;
      forall x ensures x in Assign(r, last) <==> x in entries || x in more {
        AssignMembers(r, last, x);
        assert x in more <==> x in front || x == last;
      }
    }
  }

  // ----- Sorting rows with distinct ids

  lemma RowOrder()
    ensures Total(RowLeq)
  {
  }

  lemma DistinctIdsAreDistinct(rows: seq<RequestLog>)
    requires DistinctIds(rows)
    ensures Distinct(rows) && Strict(RowLeq, rows) && Strict(LogLeq, rows)
  {
    forall x, y | x in rows && y in rows && x.id == y.id ensures x == y {
    }
  }

  /** On rows with distinct ids the trace id never decides, so the engine's sort is the table's order. */
  lemma SortsAgree(rows: seq<RequestLog>)
    requires DistinctIds(rows)
    ensures Sort(LogLeq, rows) == Sort(RowLeq, rows)
  {
    LogOrder();
    RowOrder();
    DistinctIdsAreDistinct(rows);
    SortIsSorting(LogLeq, rows);
    SortIsSorting(RowLeq, rows);
    var l, r := Sort(LogLeq, rows), Sort(RowLeq, rows);
    assert Sorted(RowLeq, l);
    SameMembers(rows, l);
    assert Strict(RowLeq, l);
    SortedIsUnique(RowLeq, l, r);
  }

  lemma {:induction false} KeepsDistinctIds(rows: seq<RequestLog>, p: RequestLog -> bool)
    requires DistinctIds(rows)
    ensures DistinctIds(Keep(rows, p))
  {
    if rows != [] {
      KeepsDistinctIds(rows[..|rows| - 1], p);
      var rest := Keep(rows[..|rows| - 1], p);
      forall i | 0 <= i < |rest| ensures rest[i].id != rows[|rows| - 1].id {
        assert rest[i] in rows[..|rows| - 1];
      }
    }
  }

  /** Two duplicate-free lists with the same members are rearrangements of each other. */
  lemma SameMultiset(xs: seq<RequestLog>, ys: seq<RequestLog>)
    requires Distinct(xs) && Distinct(ys) && forall x :: x in xs <==> x in ys
    ensures multiset(xs) == multiset(ys)
  {
    forall x ensures multiset(xs)[x] == multiset(ys)[x] {
      DistinctCountsOnce(xs, x);
      DistinctCountsOnce(ys, x);
      assert x in multiset(xs) <==> x in xs;
      assert x in multiset(ys) <==> x in ys;
    }
  }

  lemma SortKeepsDistinctIds(rows: seq<RequestLog>)
    requires DistinctIds(rows)
    ensures DistinctIds(Sort(RowLeq, rows))
    ensures forall x :: x in Sort(RowLeq, rows) <==> x in rows
  {
    RowOrder();
    DistinctIdsAreDistinct(rows);
    SortIsSorting(RowLeq, rows);
    SortKeepsDistinct(RowLeq, rows);
    var sorted := Sort(RowLeq, rows);
    SameMembers(rows, sorted);
    forall i, j | 0 <= i < j < |sorted| ensures sorted[i].id != sorted[j].id {
      assert sorted[i] in rows && sorted[j] in rows && sorted[i] != sorted[j];
    }
  }

  // ----- The truncated history is the tail of the whole

  /** Where, in sorted rows, the last hour or the latest ten begin, whichever is earlier. */
  function CutFor(sorted: seq<RequestLog>, reference: Time): (k: nat)
    ensures k <= |sorted| && (|sorted| <= LATEST ==> k == 0) && |sorted| - k >= Min(LATEST, |sorted|)
    ensures forall i :: 0 <= i < k ==> sorted[i].createdAt < reference - HOUR
    ensures k < |sorted| - Min(LATEST, |sorted|) ==> sorted[k].createdAt >= reference - HOUR
  {
    CutFrom(sorted, reference, 0)
  }

  function CutFrom(sorted: seq<RequestLog>, reference: Time, from: nat): (k: nat)
    requires from <= |sorted| - Min(LATEST, |sorted|)
    ensures from <= k <= |sorted| - Min(LATEST, |sorted|)
    ensures forall i :: from <= i < k ==> sorted[i].createdAt < reference - HOUR
    ensures k < |sorted| - Min(LATEST, |sorted|) ==> sorted[k].createdAt >= reference - HOUR
    decreases |sorted| - from
  {
    if from < |sorted| - Min(LATEST, |sorted|) && sorted[from].createdAt < reference - HOUR then
      CutFrom(sorted, reference, from + 1)
    else from
  }

  lemma DescendingMembers(rows: seq<RequestLog>)
    requires DistinctIds(rows)
    ensures DistinctIds(Descending(rows)) && forall x :: x in Descending(rows) <==> x in rows
  {
    SortKeepsDistinctIds(rows);
    var sorted, r := Sort(RowLeq, rows), Descending(rows);
    forall x ensures x in r <==> x in sorted {
      if x in sorted {
        var i :| 0 <= i < |sorted| && sorted[i] == x;
        assert r[|rows| - 1 - i] == x;
      }
    }
  }

  lemma LatestTenMembers(rows: seq<RequestLog>)
    ensures forall x :: x in LatestTen(rows) <==> x in Sort(RowLeq, rows)[|rows| - Min(LATEST, |rows|)..]
  {
    var m := Min(LATEST, |rows|);
    var r, tail := LatestTen(rows), Sort(RowLeq, rows)[|rows| - m..];
    assert forall i :: 0 <= i < m ==> r[i] == tail[m - 1 - i];
    forall x | x in tail ensures x in r {
      var i :| 0 <= i < |tail| && tail[i] == x;
      assert r[m - 1 - i] == x;
    }
  }

  lemma TailIsRecentOrLatest(sorted: seq<RequestLog>, reference: Time, x: RequestLog)
    requires Sorted(RowLeq, sorted) && x in sorted[CutFor(sorted, reference)..]
    ensures (x in sorted && x.createdAt >= reference - HOUR) || x in sorted[|sorted| - Min(LATEST, |sorted|)..]
  {
    var k, m := CutFor(sorted, reference), Min(LATEST, |sorted|);
    var i :| k <= i < |sorted| && sorted[i] == x;
    if i < |sorted| - m {
      assert i != k ==> RowLeq(sorted[k], sorted[i]);
    } else {
      assert sorted[|sorted| - m..][i - (|sorted| - m)] == x;
    }
  }

  lemma RecentIsInTail(sorted: seq<RequestLog>, reference: Time, x: RequestLog)
    requires x in sorted && x.createdAt >= reference - HOUR
    ensures x in sorted[CutFor(sorted, reference)..]
  {
    var k := CutFor(sorted, reference);
    var i :| 0 <= i < |sorted| && sorted[i] == x;
    assert sorted[k..][i - k] == x;
  }

  lemma LatestIsInTail(sorted: seq<RequestLog>, reference: Time, x: RequestLog)
    requires x in sorted[|sorted| - Min(LATEST, |sorted|)..]
    ensures x in sorted[CutFor(sorted, reference)..]
  {
    var k := CutFor(sorted, reference);
    var i :| |sorted| - Min(LATEST, |sorted|) <= i < |sorted| && sorted[i] == x;
    assert sorted[k..][i - k] == x;
  }

  lemma TailMembers(sorted: seq<RequestLog>, reference: Time, x: RequestLog)
    requires Sorted(RowLeq, sorted)
    ensures x in sorted[CutFor(sorted, reference)..]
       <==> (x in sorted && x.createdAt >= reference - HOUR) || x in sorted[|sorted| - Min(LATEST, |sorted|)..]
  {
    if x in sorted[CutFor(sorted, reference)..] {
      TailIsRecentOrLatest(sorted, reference, x);
    } else if x in sorted && x.createdAt >= reference - HOUR {
      RecentIsInTail(sorted, reference, x);
    } else if x in sorted[|sorted| - Min(LATEST, |sorted|)..] {
      LatestIsInTail(sorted, reference, x);
    }
  }

  lemma LoadedIsUnion(rows: seq<RequestLog>, reference: Time)
    requires DistinctIds(rows)
    ensures
      var h := AssignAll(RecentByTime(rows, reference), LatestTen(rows));
      && DistinctIds(h)
      && forall x :: x in h <==> (x in rows && x.createdAt >= reference - HOUR) || x in LatestTen(rows)
  {
    KeepsDistinctIds(rows, WithinHour(reference));
    DescendingMembers(Keep(rows, WithinHour(reference)));
    DescendingMembers(rows);
    var recent, latest := RecentByTime(rows, reference), LatestTen(rows);
    assert forall x :: x in latest ==> x in Descending(rows);
    DistinctIdsAreDistinct(rows);
    assert SameTable(rows, rows) by {
      forall x, y | x in rows && y in rows && x.id == y.id ensures x == y {
      }
    }
    AssignAllIsUnion(recent, latest);
  }

  lemma LoadedMembersAreTail(rows: seq<RequestLog>, reference: Time)
    requires DistinctIds(rows)
    ensures
      var whole := Sort(RowLeq, rows);
      var tail := whole[CutFor(whole, reference)..];
      forall x :: x in AssignAll(RecentByTime(rows, reference), LatestTen(rows)) <==> x in tail
  {
    var whole := Sort(RowLeq, rows);
    RowOrder();
    SortIsSorting(RowLeq, rows);
    SameMembers(rows, whole);
    LoadedIsUnion(rows, reference);
    LatestTenMembers(rows);
    forall x ensures x in AssignAll(RecentByTime(rows, reference), LatestTen(rows))
      <==> x in whole[CutFor(whole, reference)..] {
      TailMembers(whole, reference, x);
    }
  }

  lemma TailIsInOrder(rows: seq<RequestLog>, reference: Time)
    requires DistinctIds(rows)
    ensures
      var whole := Sort(RowLeq, rows);
      var tail := whole[CutFor(whole, reference)..];
      DistinctIds(tail) && Sorted(RowLeq, tail)
  {
    RowOrder();
    SortIsSorting(RowLeq, rows);
    SortKeepsDistinctIds(rows);
  }

  lemma LoadedIsTail(rows: seq<RequestLog>, reference: Time)
    requires DistinctIds(rows)
    ensures
      var whole := Sort(RowLeq, rows);
      var tail := whole[CutFor(whole, reference)..];
      DistinctIds(tail) && Sorted(RowLeq, tail)
      && multiset(AssignAll(RecentByTime(rows, reference), LatestTen(rows))) == multiset(tail)
  {
    var h := AssignAll(RecentByTime(rows, reference), LatestTen(rows));
    var whole := Sort(RowLeq, rows);
    var tail := whole[CutFor(whole, reference)..];
    TailIsInOrder(rows, reference);
    assert DistinctIds(h) by { LoadedIsUnion(rows, reference); }
    assert forall x :: x in h <==> x in tail by { LoadedMembersAreTail(rows, reference); }
    DistinctIdsAreDistinct(h);
    DistinctIdsAreDistinct(tail);
    SameMultiset(h, tail);
  }

  /** All rows of the right in the scope of the query, in time order. */
  ghost predicate WholeHistory(table: seq<RequestLog>, tenant: string, right: string, reference: Time, strict: bool,
                               all: seq<RequestLog>) {
    && DistinctIds(all)
    && (forall x :: x in all <==>
          x in table && x.tenantId == tenant && x.rightId == right
          && (x.createdAt < reference || (!strict && x.createdAt == reference)))
    && forall i, j :: 0 <= i < j < |all| ==>
         all[i].createdAt < all[j].createdAt || (all[i].createdAt == all[j].createdAt && all[i].id < all[j].id)
  }

  /** The row is of the last hour, or one of the last ten. */
  ghost predicate RecentOrLatest(all: seq<RequestLog>, reference: Time, x: RequestLog) {
    exists k :: 0 <= k < |all| && all[k] == x && (x.createdAt >= reference - 3600.0 || k >= |all| - 10)
  }

  lemma EligibleInOrder(table: seq<RequestLog>, tenant: string, right: string, reference: Time, strict: bool)
    requires DistinctIds(table)
    ensures WholeHistory(table, tenant, right, reference, strict,
                         Sort(RowLeq, Eligible(table, tenant, right, reference, strict)))
  {
    var rows := Eligible(table, tenant, right, reference, strict);
    KeepsDistinctIds(table, InScope(tenant, right, reference, strict));
    RowOrder();
    SortIsSorting(RowLeq, rows);
    SortKeepsDistinctIds(rows);
    SameMembers(rows, Sort(RowLeq, rows));
  }

  lemma RecentOrInTail(all: seq<RequestLog>, reference: Time, x: RequestLog)
    ensures
      var tail := all[|all| - Min(LATEST, |all|)..];
      RecentOrLatest(all, reference, x) <==> (x in all && x.createdAt >= reference - HOUR) || x in tail
  {
    var n := |all| - Min(LATEST, |all|);
    if x in all[n..] {
      var k :| 0 <= k < |all| - n && all[n..][k] == x;
      assert all[n + k] == x;
    }
    if RecentOrLatest(all, reference, x) {
      var k :| 0 <= k < |all| && all[k] == x && (x.createdAt >= reference - 3600.0 || k >= |all| - 10);
      assert k >= n ==> all[n..][k - n] == x;
    }
  }

  lemma LoadedAreRecentOrLatest(rows: seq<RequestLog>, reference: Time, x: RequestLog)
    requires DistinctIds(rows)
    ensures x in AssignAll(RecentByTime(rows, reference), LatestTen(rows))
       <==> RecentOrLatest(Sort(RowLeq, rows), reference, x)
  {
    RowOrder();
    SortIsSorting(RowLeq, rows);
    SameMembers(rows, Sort(RowLeq, rows));
    LoadedIsUnion(rows, reference);
    LatestTenMembers(rows);
    RecentOrInTail(Sort(RowLeq, rows), reference, x);
  }

  /** Which rows are loaded: those of the last hour and the last ten, each once. */
  lemma LoadedRowsMean(table: seq<RequestLog>, tenant: string, right: string, reference: Time, strict: bool)
    requires DistinctIds(table)
    ensures
      var all := Sort(RowLeq, Eligible(table, tenant, right, reference, strict));
      var loaded := History(table, tenant, right, reference, strict);
      && WholeHistory(table, tenant, right, reference, strict, all) && DistinctIds(loaded)
      && forall x :: x in loaded <==> RecentOrLatest(all, reference, x)
  {
    var rows := Eligible(table, tenant, right, reference, strict);
    EligibleInOrder(table, tenant, right, reference, strict);
    KeepsDistinctIds(table, InScope(tenant, right, reference, strict));
    assert DistinctIds(History(table, tenant, right, reference, strict)) by { LoadedIsUnion(rows, reference); }
    forall x ensures x in History(table, tenant, right, reference, strict)
      <==> RecentOrLatest(Sort(RowLeq, rows), reference, x) {
      LoadedAreRecentOrLatest(rows, reference, x);
    }
  }

  /** However the loaded rows are arranged, the engine sorts them into a tail of the whole history. */
  lemma TruncatedSort(rows: seq<RequestLog>, reference: Time, supplied: seq<RequestLog>)
    requires DistinctIds(rows)
    requires multiset(supplied) == multiset(AssignAll(RecentByTime(rows, reference), LatestTen(rows)))
    ensures
      var whole := Sort(RowLeq, rows);
      Sort(LogLeq, supplied) == whole[CutFor(whole, reference)..]
  {
    var whole := Sort(RowLeq, rows);
    var tail := whole[CutFor(whole, reference)..];
    LoadedIsTail(rows, reference);
    DistinctIdsAreDistinct(tail);
    LogOrder();
    SortForgetsOrder(LogLeq, tail, supplied);
    SortsAgree(tail);
    RowOrder();
    SortIsSorting(RowLeq, tail);
    SortedIsUnique(RowLeq, tail, Sort(RowLeq, tail));
  }

  // ----- Nothing before the tail matters

  lemma {:induction false} KeepOfBoth(xs: seq<RequestLog>, ys: seq<RequestLog>, p: RequestLog -> bool)
    ensures Keep(xs + ys, p) == Keep(xs, p) + Keep(ys, p)
  {
    if ys == [] {
      assert xs + ys == xs;
    } else {
      var n := |ys| - 1;
      assert (xs + ys)[..|xs + ys| - 1] == xs + ys[..n] && (xs + ys)[|xs + ys| - 1] == ys[n];
      KeepOfBoth(xs, ys[..n], p);
    }
  }

  lemma {:induction false} KeepOfNone(xs: seq<RequestLog>, p: RequestLog -> bool)
    requires forall i :: 0 <= i < |xs| ==> !p(xs[i])
    ensures Keep(xs, p) == []
  {
    if xs != [] {
      KeepOfNone(xs[..|xs| - 1], p);
    }
  }

  lemma KeepIgnores(xs: seq<RequestLog>, k: nat, p: RequestLog -> bool)
    requires k <= |xs| && forall i :: 0 <= i < k ==> !p(xs[i])
    ensures Keep(xs, p) == Keep(xs[k..], p)
  {
    KeepOfNone(xs[..k], p);
    KeepOfBoth(xs[..k], xs[k..], p);
    assert xs[..k] + xs[k..] == xs;
  }

  lemma SuffixOfTail(whole: seq<RequestLog>, k: nat, n: nat)
    requires k <= |whole| && (|whole| - k >= n || k == 0)
    ensures Suffix(whole[k..], n) == Suffix(whole, n)
  {
  }

  /** What is more than an hour old counts neither as a recent failure nor as a recent transfer. */
  lemma OldLogsAreIgnored(whole: seq<RequestLog>, k: nat, now: Time)
    requires k <= |whole| && forall i :: 0 <= i < k ==> whole[i].createdAt < now - HOUR
    ensures Keep(whole[k..], RecentFailure(now)) == Keep(whole, RecentFailure(now))
    ensures Keep(whole[k..], RecentTransfer(now)) == Keep(whole, RecentTransfer(now))
  {
    KeepIgnores(whole, k, RecentFailure(now));
    KeepIgnores(whole, k, RecentTransfer(now));
  }

  lemma SameSignals(q: RiskQuery, xs: seq<RequestLog>, ys: seq<RequestLog>, now: Time)
    requires Keep(xs, RecentFailure(now)) == Keep(ys, RecentFailure(now))
    requires Keep(xs, RecentTransfer(now)) == Keep(ys, RecentTransfer(now))
    requires Suffix(xs, 5) == Suffix(ys, 5) && Suffix(xs, 10) == Suffix(ys, 10)
    ensures SignalsOf(q, xs, now) == SignalsOf(q, ys, now)
  {
  }

  lemma TailDecides(q: RiskQuery, whole: seq<RequestLog>, reference: Time, now: Time)
    requires now >= reference
    ensures SignalsOf(q, whole[CutFor(whole, reference)..], now) == SignalsOf(q, whole, now)
  {
    var k := CutFor(whole, reference);
    OldLogsAreIgnored(whole, k, now);
    SuffixOfTail(whole, k, 5);
    SuffixOfTail(whole, k, 10);
    SameSignals(q, whole[k..], whole, now);
  }

  /**
    The truncated history is exact. For every table, tenant, right, cut-off and every clock reading not
    before it, the decision on the loaded rows, in whatever order they come, is the decision on all
    eligible rows, in whatever order these come.
   */
  lemma TruncatedHistoryIsExact(table: seq<RequestLog>, tenant: string, right: string, reference: Time, strict: bool,
                                q: RiskQuery, now: Time, supplied: seq<RequestLog>, all: seq<RequestLog>)
    requires DistinctIds(table) && now >= reference
    requires multiset(supplied) == multiset(History(table, tenant, right, reference, strict))
    requires multiset(all) == multiset(Eligible(table, tenant, right, reference, strict))
    ensures Risk(q, supplied, now) == Risk(q, all, now)
  {
    var rows := Eligible(table, tenant, right, reference, strict);
    KeepsDistinctIds(table, InScope(tenant, right, reference, strict));
    TruncatedSort(rows, reference, supplied);
    TailDecides(q, Sort(RowLeq, rows), reference, now);
    LogOrder();
    DistinctIdsAreDistinct(rows);
    SortForgetsOrder(LogLeq, rows, all);
    SortsAgree(rows);
  }
}
