/**
  Rows with a version counter and a history table, under optimistic concurrency. The policies table
  (keyed by id) and the workflow configurations (keyed by tenant) are both of this kind: an update or a
  delete copies the row it read into the history and goes through only if the row still has the version
  that was read; keys of deleted rows are not used again.
 */
module VersionedStore {
  import opened Prelude

  type Admin = nat

  datatype Row<C> = Row(version: nat, content: C)

  datatype Snapshot<K, C> = Snapshot(key: K, row: Row<C>)

  datatype Store<K, C> = Store(
    rows: map<K, Row<C>>,
    history: seq<Snapshot<K, C>>,
    readers: map<Admin, Snapshot<K, C>>)

  datatype Step<K, C> =
    | Insert(key: K, content: C)
    | Read(admin: Admin, key: K)
    | Update(admin: Admin, content: C)
    | Delete(admin: Admin)
    | Abandon(admin: Admin)

  function Empty<K, C>(): Store<K, C> { Store(map[], [], map[]) }

  predicate InHistory<K(==), C>(history: seq<Snapshot<K, C>>, key: K) {
    exists i :: 0 <= i < |history| && history[i].key == key
  }

  predicate Unused<K(==), C>(s: Store<K, C>, key: K) {
    key !in s.rows && !InHistory(s.history, key)
  }

  function Forget<K, C>(s: Store<K, C>, a: Admin): Store<K, C> {
    s.(readers := map b | b in s.readers && b != a :: s.readers[b])
  }

  /** The row a transaction has read is still the current one: the WHERE clause on the version. */
  predicate Current<K(==), C>(s: Store<K, C>, a: Admin) {
    && a in s.readers
    && s.readers[a].key in s.rows
    && s.rows[s.readers[a].key].version == s.readers[a].row.version
  }

  function Next<K(==), C>(s: Store<K, C>, step: Step<K, C>): Store<K, C> {
    match step
    case Insert(key, content) => if Unused(s, key) then s.(rows := s.rows[key := Row(1, content)]) else s
    case Read(a, key) =>
      if key in s.rows then s.(readers := s.readers[a := Snapshot(key, s.rows[key])]) else Forget(s, a)
    case Update(a, content) =>
      if Current(s, a) then
        var read := s.readers[a];
        Forget(s.(rows := s.rows[read.key := Row(read.row.version + 1, content)], history := s.history + [read]), a)
      else Forget(s, a)
    case Delete(a) =>
      if Current(s, a) then
        var read := s.readers[a];
        Forget(s.(rows := map k | k in s.rows && k != read.key :: s.rows[k], history := s.history + [read]), a)
      else Forget(s, a)
    case Abandon(a) => Forget(s, a)
  }

  function Run<K(==), C>(s: Store<K, C>, run: seq<Step<K, C>>): Store<K, C> {
    if run == [] then s else Next(Run(s, run[..|run| - 1]), run[|run| - 1])
  }

  /** `.filter_by(key, version).first()` on the history table. */
  function FirstInHistory<K(==), C>(history: seq<Snapshot<K, C>>, key: K, version: int): Option<C> {
    if history == [] then None
    else if history[0].key == key && history[0].row.version == version then Some(history[0].row.content)
    else FirstInHistory(history[1..], key, version)
  }

  /** The version loaders: the live row if it has the version, else the history. */
  function Load<K(==), C>(s: Store<K, C>, key: K, version: int): Option<C> {
    if key in s.rows && s.rows[key].version == version then Some(s.rows[key].content)
    else FirstInHistory(s.history, key, version)
  }

  // ----- Invariant

  /** No version of a key is in the history twice. */
  ghost predicate SnapshottedOnce<K, C>(history: seq<Snapshot<K, C>>) {
    forall i, j | 0 <= i < j < |history| && history[i].key == history[j].key ::
      history[i].row.version != history[j].row.version
  }

  /** What was read agrees with the live row as long as the versions do. */
  ghost predicate ReadersOk<K, C>(s: Store<K, C>) {
    forall a | a in s.readers && s.readers[a].key in s.rows ::
      && s.readers[a].row.version <= s.rows[s.readers[a].key].version
      && (s.readers[a].row.version == s.rows[s.readers[a].key].version ==> s.readers[a].row == s.rows[s.readers[a].key])
  }

  /** A key that was read is in use: it is live, or gone for good with its history left. */
  ghost predicate ReadersExist<K, C>(s: Store<K, C>) {
    forall a | a in s.readers :: !Unused(s, s.readers[a].key)
  }

  ghost predicate HistoryIsPast<K, C>(s: Store<K, C>) {
    forall i | 0 <= i < |s.history| && s.history[i].key in s.rows ::
      s.history[i].row.version < s.rows[s.history[i].key].version
  }

  ghost predicate Inv<K, C>(s: Store<K, C>) {
    SnapshottedOnce(s.history) && ReadersOk(s) && ReadersExist(s) && HistoryIsPast(s)
  }

  lemma HistoryStays<K, C>(s: Store<K, C>, step: Step<K, C>, key: K)
    requires !Unused(s, key)
    ensures !Unused(Next(s, step), key)
  {
    var t := Next(s, step);
    if InHistory(s.history, key) {
      var i :| 0 <= i < |s.history| && s.history[i].key == key;
      assert t.history[i] == s.history[i];
    } else if step.Delete? && Current(s, step.admin) && s.readers[step.admin].key == key {
      assert t.history[|s.history|] == s.readers[step.admin];
    }
  }

  lemma NextKeepsReaders<K, C>(s: Store<K, C>, step: Step<K, C>)
    requires Inv(s)
    ensures ReadersOk(Next(s, step)) && ReadersExist(Next(s, step))
  {
    var t := Next(s, step);
    forall a | a in t.readers ensures !Unused(t, t.readers[a].key) {
      if !(step.Read? && step.admin == a) {
        HistoryStays(s, step, s.readers[a].key);
      }
    }
  }

  lemma NextKeepsHistory<K, C>(s: Store<K, C>, step: Step<K, C>)
    requires Inv(s)
    ensures SnapshottedOnce(Next(s, step).history) && HistoryIsPast(Next(s, step))
  {
  }

  lemma NextKeepsInv<K, C>(s: Store<K, C>, step: Step<K, C>)
    requires Inv(s)
    ensures Inv(Next(s, step))
  {
    NextKeepsReaders(s, step);
    NextKeepsHistory(s, step);
  }

  lemma {:induction false} RunKeepsInv<K, C>(s: Store<K, C>, run: seq<Step<K, C>>)
    requires Inv(s)
    ensures Inv(Run(s, run))
  {
    if run != [] {
      RunKeepsInv(s, run[..|run| - 1]);
      NextKeepsInv(Run(s, run[..|run| - 1]), run[|run| - 1]);
    }
  }

  // ----- Recovery

  /** Version `row.version` of `key` had content `row.content`: it is live, or in the history. */
  ghost predicate Recorded<K, C>(s: Store<K, C>, key: K, row: Row<C>) {
    || (key in s.rows && s.rows[key] == row)
    || (exists i :: 0 <= i < |s.history| && s.history[i] == Snapshot(key, row))
  }

  lemma NextKeepsRecords<K, C>(s: Store<K, C>, step: Step<K, C>, key: K, row: Row<C>)
    requires Inv(s) && Recorded(s, key, row)
    ensures Recorded(Next(s, step), key, row)
  {
    var t := Next(s, step);
    if exists i :: 0 <= i < |s.history| && s.history[i] == Snapshot(key, row) {
      var i :| 0 <= i < |s.history| && s.history[i] == Snapshot(key, row);
      assert t.history[i] == s.history[i];
    } else if (step.Update? || step.Delete?) && Current(s, step.admin) && s.readers[step.admin].key == key {
      assert t.history[|s.history|] == Snapshot(key, row);
    }
  }

  lemma {:induction false} RunKeepsRecords<K, C>(s: Store<K, C>, run: seq<Step<K, C>>, key: K, row: Row<C>)
    requires Inv(s) && Recorded(s, key, row)
    ensures Recorded(Run(s, run), key, row)
  {
    if run != [] {
      RunKeepsInv(s, run[..|run| - 1]);
      RunKeepsRecords(s, run[..|run| - 1], key, row);
      NextKeepsRecords(Run(s, run[..|run| - 1]), run[|run| - 1], key, row);
    }
  }

  lemma {:induction false} HistoryFinds<K, C>(history: seq<Snapshot<K, C>>, i: nat)
    requires SnapshottedOnce(history) && i < |history|
    ensures FirstInHistory(history, history[i].key, history[i].row.version) == Some(history[i].row.content)
  {
    if i > 0 {
      HistoryFinds(history[1..], i - 1);
      assert history[1..][i - 1] == history[i];
    }
  }

  lemma RecordsAreLoaded<K, C>(s: Store<K, C>, key: K, row: Row<C>)
    requires Inv(s) && Recorded(s, key, row)
    ensures Load(s, key, row.version) == Some(row.content)
  {
    if !(key in s.rows && s.rows[key] == row) {
      var i :| 0 <= i < |s.history| && s.history[i] == Snapshot(key, row);
      HistoryFinds(s.history, i);
    }
  }

  /**
    Version recovery: whatever concurrent updates and deletes follow, a version that was once live is
    loaded with the content it had.
   */
  lemma LiveVersionsAreRecovered<K, C>(earlier: seq<Step<K, C>>, later: seq<Step<K, C>>, key: K)
    requires key in Run(Empty(), earlier).rows
    ensures
      var row := Run(Empty(), earlier).rows[key];
      Load(Run(Run(Empty(), earlier), later), key, row.version) == Some(row.content)
  {
    var s := Run(Empty(), earlier);
    RunKeepsInv(Empty(), earlier);
    RunKeepsInv(s, later);
    RunKeepsRecords(s, later, key, s.rows[key]);
    RecordsAreLoaded(Run(s, later), key, s.rows[key]);
  }

  /** After the first `n` steps of the run, this version of the key was live with this content. */
  ghost predicate LiveAt<K, C>(run: seq<Step<K, C>>, n: nat, key: K, version: int, content: Option<C>)
    requires n <= |run|
  {
    var s := Run(Empty(), run[..n]);
    key in s.rows && s.rows[key].version == version && content == Some(s.rows[key].content)
  }

  lemma {:induction false} FirstIsThere<K, C>(history: seq<Snapshot<K, C>>, key: K, version: int)
    requires FirstInHistory(history, key, version).Some?
    ensures exists i :: 0 <= i < |history| && history[i].key == key && history[i].row.version == version
  {
    if !(history[0].key == key && history[0].row.version == version) {
      FirstIsThere(history[1..], key, version);
      var i :| 0 <= i < |history[1..]| && history[1..][i].key == key && history[1..][i].row.version == version;
      assert history[i + 1] == history[1..][i];
    }
  }

  lemma LiveOrPast<K, C>(s: Store<K, C>, key: K, version: int)
    requires Inv(s) && FirstInHistory(s.history, key, version).Some?
    ensures Load(s, key, version) == FirstInHistory(s.history, key, version)
  {
    FirstIsThere(s.history, key, version);
  }

  lemma {:induction false} FirstOfLonger<K, C>(history: seq<Snapshot<K, C>>, more: Snapshot<K, C>, key: K, version: int)
    ensures FirstInHistory(history + [more], key, version)
         == if FirstInHistory(history, key, version).Some? then FirstInHistory(history, key, version)
            else if more.key == key && more.row.version == version then Some(more.row.content) else None
  {
    if history != [] {
      assert (history + [more])[1..] == history[1..] + [more];
      FirstOfLonger(history[1..], more, key, version);
    }
  }

  lemma HistoryGrows<K, C>(s: Store<K, C>, step: Step<K, C>, key: K, version: int)
    requires Inv(s) && FirstInHistory(Next(s, step).history, key, version).Some?
    ensures FirstInHistory(s.history, key, version).Some? ==>
      FirstInHistory(Next(s, step).history, key, version) == FirstInHistory(s.history, key, version)
    ensures FirstInHistory(s.history, key, version).None? ==>
      key in s.rows && s.rows[key].version == version
      && FirstInHistory(Next(s, step).history, key, version) == Some(s.rows[key].content)
  {
    if (step.Update? || step.Delete?) && Current(s, step.admin) {
      FirstOfLonger(s.history, s.readers[step.admin], key, version);
    }
  }

  /** Nothing else is ever loaded: a loaded version was live with that content at some point of the run. */
  lemma {:induction false} LoadedVersionsWereLive<K, C>(run: seq<Step<K, C>>, key: K, version: int)
    requires Load(Run(Empty(), run), key, version).Some?
    ensures exists n :: 0 <= n <= |run| && LiveAt(run, n, key, version, Load(Run(Empty(), run), key, version))
  {
    var s := Run(Empty(), run);
    assert run[..|run|] == run;
    if key in s.rows && s.rows[key].version == version {
      assert LiveAt(run, |run|, key, version, Load(s, key, version));
    } else {
      var before := run[..|run| - 1];
      var b := Run(Empty(), before);
      RunKeepsInv(Empty(), before);
      HistoryGrows(b, run[|run| - 1], key, version);
      if FirstInHistory(b.history, key, version).Some? {
        RunKeepsInv(Empty(), run);
        LiveOrPast(b, key, version);
        LoadedVersionsWereLive(before, key, version);
        var n :| 0 <= n <= |before| && LiveAt(before, n, key, version, Load(b, key, version));
        assert before[..n] == run[..n];
        assert LiveAt(run, n, key, version, Load(s, key, version));
      } else {
        assert LiveAt(run, |run| - 1, key, version, Load(s, key, version));
      }
    }
  }
}
