/** Python's `sorted(xs, key=...)` for a key order that is total on the elements. */
module Sorting {

  ghost predicate Total<T(!new)>(leq: (T, T) -> bool) {
    && (forall x, y :: leq(x, y) || leq(y, x))
    && (forall x, y, z :: leq(x, y) && leq(y, z) ==> leq(x, z))
  }

  ghost predicate Sorted<T>(leq: (T, T) -> bool, xs: seq<T>) {
    forall i, j :: 0 <= i < j < |xs| ==> leq(xs[i], xs[j])
  }

  /** Inserts after the elements that are not greater, as a stable sort does. */
  function Insert<T>(leq: (T, T) -> bool, xs: seq<T>, x: T): (r: seq<T>)
    ensures |r| == |xs| + 1
  {
    if xs == [] || leq(xs[|xs| - 1], x) then xs + [x]
    else Insert(leq, xs[..|xs| - 1], x) + [xs[|xs| - 1]]
  }

  function Sort<T>(leq: (T, T) -> bool, xs: seq<T>): (r: seq<T>)
    ensures |r| == |xs|
  {
    if xs == [] then [] else Insert(leq, Sort(leq, xs[..|xs| - 1]), xs[|xs| - 1])
  }

  lemma {:induction false} InsertKeepsElements<T>(leq: (T, T) -> bool, xs: seq<T>, x: T)
    ensures multiset(Insert(leq, xs, x)) == multiset(xs) + multiset{x}
  {
    if xs != [] && !leq(xs[|xs| - 1], x) {
      InsertKeepsElements(leq, xs[..|xs| - 1], x);
      assert xs == xs[..|xs| - 1] + [xs[|xs| - 1]];
    }
  }

  lemma {:induction false} InsertKeepsSorted<T(!new)>(leq: (T, T) -> bool, xs: seq<T>, x: T)
    requires Total(leq) && Sorted(leq, xs)
    ensures Sorted(leq, Insert(leq, xs, x))
  {
    if xs != [] && !leq(xs[|xs| - 1], x) {
      var front, last := xs[..|xs| - 1], xs[|xs| - 1];
      InsertKeepsSorted(leq, front, x);
      var r := Insert(leq, front, x);
      InsertKeepsElements(leq, front, x);
      forall i | 0 <= i < |r| ensures leq(r[i], last) {
        assert r[i] in multiset(r);
        assert r[i] == x || r[i] in front;
      }
    }
  }

  /** The result is sorted and holds the same elements, equally often. */
  lemma {:induction false} SortIsSorting<T(!new)>(leq: (T, T) -> bool, xs: seq<T>)
    requires Total(leq)
    ensures Sorted(leq, Sort(leq, xs)) && multiset(Sort(leq, xs)) == multiset(xs)
  {
    if xs != [] {
      var front := xs[..|xs| - 1];
      SortIsSorting(leq, front);
      InsertKeepsSorted(leq, Sort(leq, front), xs[|xs| - 1]);
      InsertKeepsElements(leq, Sort(leq, front), xs[|xs| - 1]);
      assert xs == front + [xs[|xs| - 1]];
    }
  }

  lemma SameMembers<T>(xs: seq<T>, ys: seq<T>)
    requires multiset(xs) == multiset(ys)
    ensures |xs| == |ys| && forall x :: x in xs <==> x in ys
  {
    assert |multiset(xs)| == |xs| && |multiset(ys)| == |ys|;
    forall x ensures x in xs <==> x in ys {
      assert x in xs <==> x in multiset(xs);
      assert x in ys <==> x in multiset(ys);
    }
  }

  ghost predicate Distinct<T>(xs: seq<T>) {
    forall i, j :: 0 <= i < j < |xs| ==> xs[i] != xs[j]
  }

  lemma {:induction false} DistinctCountsOnce<T>(xs: seq<T>, x: T)
    requires Distinct(xs)
    ensures multiset(xs)[x] <= 1
  {
    if xs != [] {
      var n := |xs| - 1;
      DistinctCountsOnce(xs[..n], x);
      assert xs == xs[..n] + [xs[n]];
      assert x == xs[n] ==> x !in xs[..n];
    }
  }

  lemma DropLast<T>(xs: seq<T>)
    requires |xs| > 0
    ensures multiset(xs[..|xs| - 1]) == multiset(xs) - multiset{xs[|xs| - 1]}
  {
    assert xs == xs[..|xs| - 1] + [xs[|xs| - 1]];
  }

  lemma {:induction false} CountedOnceIsDistinct<T>(xs: seq<T>)
    requires forall x :: multiset(xs)[x] <= 1
    ensures Distinct(xs)
  {
    if xs != [] {
      var n := |xs| - 1;
      DropLast(xs);
      CountedOnceIsDistinct(xs[..n]);
      assert xs[n] !in multiset(xs[..n]);
    }
  }

  lemma SortKeepsDistinct<T(!new)>(leq: (T, T) -> bool, xs: seq<T>)
    requires Total(leq) && Distinct(xs)
    ensures Distinct(Sort(leq, xs))
  {
    SortIsSorting(leq, xs);
    forall x ensures multiset(Sort(leq, xs))[x] <= 1 {
      DistinctCountsOnce(xs, x);
    }
    CountedOnceIsDistinct(Sort(leq, xs));
  }

  /** Elements of a sequence are never tied unless equal. */
  ghost predicate Strict<T>(leq: (T, T) -> bool, xs: seq<T>) {
    forall x, y :: x in xs && y in xs && leq(x, y) && leq(y, x) ==> x == y
  }

  lemma SameLast<T(!new)>(leq: (T, T) -> bool, xs: seq<T>, ys: seq<T>)
    requires Total(leq) && Strict(leq, xs) && |xs| > 0
    requires Sorted(leq, xs) && Sorted(leq, ys) && multiset(xs) == multiset(ys)
    ensures |xs| == |ys| && xs[|xs| - 1] == ys[|xs| - 1]
  {
    SameMembers(xs, ys);
    var a, b := xs[|xs| - 1], ys[|xs| - 1];
    assert a in ys && b in xs;
    var i :| 0 <= i < |xs| && xs[i] == b;
    var j :| 0 <= j < |xs| && ys[j] == a;
    assert leq(b, a) && leq(a, b);
  }

  /** Two sorted arrangements of the same elements are the same sequence. */
  lemma {:induction false} SortedIsUnique<T(!new)>(leq: (T, T) -> bool, xs: seq<T>, ys: seq<T>)
    requires Total(leq) && Strict(leq, xs)
    requires Sorted(leq, xs) && Sorted(leq, ys) && multiset(xs) == multiset(ys)
    ensures xs == ys
  {
    SameMembers(xs, ys);
    if xs != [] {
      var n := |xs| - 1;
      SameLast(leq, xs, ys);
      DropLast(xs);
      DropLast(ys);
      SortedIsUnique(leq, xs[..n], ys[..n]);
      assert xs == xs[..n] + [xs[n]] && ys == ys[..n] + [ys[n]];
    }
  }

  /** Sorting forgets the order in which the elements were supplied. */
  lemma SortForgetsOrder<T(!new)>(leq: (T, T) -> bool, xs: seq<T>, ys: seq<T>)
    requires Total(leq) && Strict(leq, xs) && multiset(xs) == multiset(ys)
    ensures Sort(leq, xs) == Sort(leq, ys)
  {
    SortIsSorting(leq, xs);
    SortIsSorting(leq, ys);
    SameMembers(xs, Sort(leq, xs));
    SortedIsUnique(leq, Sort(leq, xs), Sort(leq, ys));
  }
}
