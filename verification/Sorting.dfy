/** Sorting by key.  `sorted(…, key=…)` is a stable sort; where keys are distinct its result is determined by
    the elements alone, which is what `SortUnique` says. */
module Sorting {

  /** The comparison of two keys: any two are comparable, and comparisons chain. */
  ghost predicate TotalPreorder<T(!new)>(le: (T, T) -> bool) {
    && (forall x, y :: le(x, y) || le(y, x))
    && (forall x, y, z :: le(x, y) && le(y, z) ==> le(x, z))
  }

  predicate Ordered<T>(xs: seq<T>, le: (T, T) -> bool) {
    forall i, j :: 0 <= i < j < |xs| ==> le(xs[i], xs[j])
  }

  /** No two elements with the same key. */
  predicate DistinctKeys<T(==)>(xs: seq<T>, le: (T, T) -> bool) {
    forall x, y :: x in xs && y in xs && le(x, y) && le(y, x) ==> x == y
  }

  function Insert<T>(x: T, xs: seq<T>, le: (T, T) -> bool): seq<T> {
    if xs == [] then [x]
    else if le(x, xs[0]) then [x] + xs
    else [xs[0]] + Insert(x, xs[1..], le)
  }

  function Sort<T>(xs: seq<T>, le: (T, T) -> bool): seq<T> {
    if xs == [] then [] else Insert(xs[0], Sort(xs[1..], le), le)
  }

  function Filter<T>(xs: seq<T>, keep: T -> bool): seq<T> {
    if xs == [] then []
    else (if keep(xs[0]) then [xs[0]] else []) + Filter(xs[1..], keep)
  }

  lemma {:induction false} InsertElements<T>(x: T, xs: seq<T>, le: (T, T) -> bool)
    ensures multiset(Insert(x, xs, le)) == multiset(xs) + multiset{x}
  {
    if xs != [] {
      assert xs == [xs[0]] + xs[1..];
      if !le(x, xs[0]) {
        InsertElements(x, xs[1..], le);
      }
    }
  }

  lemma {:induction false} InsertOrdered<T(!new)>(x: T, xs: seq<T>, le: (T, T) -> bool)
    requires TotalPreorder(le) && Ordered(xs, le)
    ensures Ordered(Insert(x, xs, le), le)
  {
    if xs != [] && !le(x, xs[0]) {
      InsertOrdered(x, xs[1..], le);
      var rest := Insert(x, xs[1..], le);
      InsertElements(x, xs[1..], le);
      forall j | 0 <= j < |rest|
        ensures le(xs[0], rest[j])
      {
        assert rest[j] in multiset(rest);
        assert rest[j] == x || rest[j] in xs[1..];
      }
    }
  }

  lemma {:induction false} SortElements<T>(xs: seq<T>, le: (T, T) -> bool)
    ensures multiset(Sort(xs, le)) == multiset(xs)
  {
    if xs != [] {
      SortElements(xs[1..], le);
      InsertElements(xs[0], Sort(xs[1..], le), le);
      assert xs == [xs[0]] + xs[1..];
    }
  }

  lemma {:induction false} SortOrdered<T(!new)>(xs: seq<T>, le: (T, T) -> bool)
    requires TotalPreorder(le)
    ensures Ordered(Sort(xs, le), le)
  {
    if xs != [] {
      SortOrdered(xs[1..], le);
      InsertOrdered(xs[0], Sort(xs[1..], le), le);
    }
  }

  lemma InMultiset<T>(xs: seq<T>, ys: seq<T>, x: T)
    requires multiset(xs) == multiset(ys)
    ensures x in xs <==> x in ys
  {
    assert x in xs <==> x in multiset(xs);
    assert x in ys <==> x in multiset(ys);
  }

  lemma SameHead<T>(xs: seq<T>, ys: seq<T>, le: (T, T) -> bool)
    requires Ordered(xs, le) && Ordered(ys, le) && multiset(xs) == multiset(ys) && xs != [] && ys != []
    requires DistinctKeys(xs, le)
    ensures xs[0] == ys[0]
  {
    InMultiset(xs, ys, xs[0]);
    InMultiset(xs, ys, ys[0]);
    var i :| 0 <= i < |ys| && ys[i] == xs[0];
    var j :| 0 <= j < |xs| && xs[j] == ys[0];
    if i != 0 && j != 0 {
      assert le(xs[0], xs[j]) && le(ys[0], ys[i]);
    }
  }

  lemma SameTails<T>(x: T, xs: seq<T>, ys: seq<T>)
    requires multiset([x] + xs) == multiset([x] + ys)
    ensures multiset(xs) == multiset(ys)
  {
    assert multiset([x] + xs) - multiset{x} == multiset(xs);
    assert multiset([x] + ys) - multiset{x} == multiset(ys);
  }

  /** Two arrangements of the same elements in key order are the same arrangement. */
  lemma {:induction false} OrderedUnique<T>(xs: seq<T>, ys: seq<T>, le: (T, T) -> bool)
    requires Ordered(xs, le) && Ordered(ys, le) && multiset(xs) == multiset(ys)
    requires DistinctKeys(xs, le)
    ensures xs == ys
  {
    assert |xs| == |multiset(xs)| == |multiset(ys)| == |ys|;
    if xs != [] {
      SameHead(xs, ys, le);
      assert xs == [xs[0]] + xs[1..] && ys == [xs[0]] + ys[1..];
      SameTails(xs[0], xs[1..], ys[1..]);
      OrderedUnique(xs[1..], ys[1..], le);
    }
  }

  /** The order in which elements with distinct keys arrive does not matter. */
  lemma SortUnique<T(!new)>(xs: seq<T>, ys: seq<T>, le: (T, T) -> bool)
    requires TotalPreorder(le) && multiset(xs) == multiset(ys) && DistinctKeys(xs, le)
    ensures Sort(xs, le) == Sort(ys, le)
  {
    SortOrdered(xs, le);
    SortOrdered(ys, le);
    SortElements(xs, le);
    SortElements(ys, le);
    forall x, y | x in Sort(xs, le) && y in Sort(xs, le) && le(x, y) && le(y, x)
      ensures x == y
    {
      InMultiset(Sort(xs, le), xs, x);
      InMultiset(Sort(xs, le), xs, y);
    }
    OrderedUnique(Sort(xs, le), Sort(ys, le), le);
  }

  /** What is in order is left alone. */
  lemma SortIdle<T(!new)>(xs: seq<T>, le: (T, T) -> bool)
    requires TotalPreorder(le) && Ordered(xs, le) && DistinctKeys(xs, le)
    ensures Sort(xs, le) == xs
  {
    SortOrdered(xs, le);
    SortElements(xs, le);
    OrderedUnique(xs, Sort(xs, le), le);
  }

  lemma {:induction false} FilterCount<T>(xs: seq<T>, keep: T -> bool, x: T)
    ensures multiset(Filter(xs, keep))[x] == if keep(x) then multiset(xs)[x] else 0
  {
    if xs != [] {
      FilterCount(xs[1..], keep, x);
      assert xs == [xs[0]] + xs[1..];
    }
  }

  lemma FilterMember<T>(xs: seq<T>, keep: T -> bool, x: T)
    ensures x in Filter(xs, keep) <==> x in xs && keep(x)
  {
    FilterCount(xs, keep, x);
    assert x in Filter(xs, keep) <==> multiset(Filter(xs, keep))[x] > 0;
    assert x in xs <==> multiset(xs)[x] > 0;
  }

  lemma {:induction false} FilterOrdered<T>(xs: seq<T>, keep: T -> bool, le: (T, T) -> bool)
    requires Ordered(xs, le)
    ensures Ordered(Filter(xs, keep), le)
  {
    if xs != [] {
      FilterOrdered(xs[1..], keep, le);
      var rest := Filter(xs[1..], keep);
      forall j | 0 <= j < |rest|
        ensures le(xs[0], rest[j])
      {
        FilterMember(xs[1..], keep, rest[j]);
        assert rest[j] in rest;
        assert rest[j] in xs[1..];
      }
    }
  }

  lemma {:induction false} FilterAppend<T>(xs: seq<T>, ys: seq<T>, keep: T -> bool)
    ensures Filter(xs + ys, keep) == Filter(xs, keep) + Filter(ys, keep)
  {
    if xs == [] {
      assert xs + ys == ys;
    } else {
      FilterAppend(xs[1..], ys, keep);
      assert (xs + ys)[0] == xs[0] && (xs + ys)[1..] == xs[1..] + ys;
    }
  }

  lemma FilterMiddle<T>(before: seq<T>, x: T, after: seq<T>, keep: T -> bool)
    ensures multiset(Filter(before + ([x] + after), keep))
         == multiset(Filter(before + after, keep)) + (if keep(x) then multiset{x} else multiset{})
  {
    FilterAppend(before, [x] + after, keep);
    FilterAppend(before, after, keep);
    assert ([x] + after)[1..] == after;
  }

  lemma {:induction false} FilterElements<T>(xs: seq<T>, ys: seq<T>, keep: T -> bool)
    requires multiset(xs) == multiset(ys)
    ensures multiset(Filter(xs, keep)) == multiset(Filter(ys, keep))
  {
    assert |xs| == |multiset(xs)| == |multiset(ys)| == |ys|;
    if xs != [] {
      var x := xs[0];
      InMultiset(xs, ys, x);
      var i :| 0 <= i < |ys| && ys[i] == x;
      var before, after := ys[..i], ys[i + 1..];
      assert xs == [x] + xs[1..] && ys == before + ([x] + after);
      TakeOut(xs[1..], before, x, after);
      FilterMiddle(before, x, after, keep);
      FilterElements(xs[1..], before + after, keep);
    }
  }

  lemma TakeOut<T>(xs: seq<T>, before: seq<T>, x: T, after: seq<T>)
    requires multiset([x] + xs) == multiset(before + ([x] + after))
    ensures multiset(xs) == multiset(before + after)
  {
    SameTails(x, xs, before + after);
  }

  /** Selecting commutes with sorting. */
  lemma FilterSort<T(!new)>(xs: seq<T>, keep: T -> bool, le: (T, T) -> bool)
    requires TotalPreorder(le) && DistinctKeys(xs, le)
    ensures Filter(Sort(xs, le), keep) == Sort(Filter(xs, keep), le)
  {
    var left, right := Filter(Sort(xs, le), keep), Sort(Filter(xs, keep), le);
    SortOrdered(xs, le);
    FilterOrdered(Sort(xs, le), keep, le);
    SortOrdered(Filter(xs, keep), le);
    SortElements(xs, le);
    SortElements(Filter(xs, keep), le);
    FilterElements(Sort(xs, le), xs, keep);
    forall x, y | x in left && y in left && le(x, y) && le(y, x)
      ensures x == y
    {
      FilterMember(Sort(xs, le), keep, x);
      FilterMember(Sort(xs, le), keep, y);
      InMultiset(Sort(xs, le), xs, x);
      InMultiset(Sort(xs, le), xs, y);
    }
    OrderedUnique(left, right, le);
  }

  function SumBy<T>(xs: seq<T>, f: T -> real): real {
    if xs == [] then 0.0 else SumBy(xs[..|xs| - 1], f) + f(xs[|xs| - 1])
  }

  lemma {:induction false} SumByAppend<T>(xs: seq<T>, ys: seq<T>, f: T -> real)
    ensures SumBy(xs + ys, f) == SumBy(xs, f) + SumBy(ys, f)
  {
    if ys == [] {
      assert xs + ys == xs;
    } else {
      SumByAppend(xs, ys[..|ys| - 1], f);
      assert (xs + ys)[..|xs + ys| - 1] == xs + ys[..|ys| - 1];
    }
  }

  /** Sorting does not change a sum. */
  lemma {:induction false} SumBySort<T>(xs: seq<T>, f: T -> real, le: (T, T) -> bool)
    ensures SumBy(Sort(xs, le), f) == SumBy(xs, f)
  {
    if xs != [] {
      SumBySort(xs[1..], f, le);
      SumByInsert(xs[0], Sort(xs[1..], le), f, le);
      SumByAppend([xs[0]], xs[1..], f);
      assert xs == [xs[0]] + xs[1..];
    }
  }

  lemma {:induction false} SumByInsert<T>(x: T, xs: seq<T>, f: T -> real, le: (T, T) -> bool)
    ensures SumBy(Insert(x, xs, le), f) == f(x) + SumBy(xs, f)
  {
    SumByAppend([x], xs, f);
    if xs != [] {
      assert xs == [xs[0]] + xs[1..];
      if !le(x, xs[0]) {
        SumByInsert(x, xs[1..], f, le);
        SumByAppend([xs[0]], Insert(x, xs[1..], le), f);
        SumByAppend([xs[0]], xs[1..], f);
      }
    }
  }

  lemma {:induction false} FilterAll<T>(xs: seq<T>, keep: T -> bool)
    requires forall x :: x in xs ==> keep(x)
    ensures Filter(xs, keep) == xs
  {
    if xs != [] {
      FilterAll(xs[1..], keep);
    }
  }

  lemma {:induction false} FilterNone<T>(xs: seq<T>, keep: T -> bool)
    requires forall x :: x in xs ==> !keep(x)
    ensures Filter(xs, keep) == []
  {
    if xs != [] {
      FilterNone(xs[1..], keep);
    }
  }

  function Map<T, U>(xs: seq<T>, f: T -> U): (ys: seq<U>)
    ensures |ys| == |xs| && forall i :: 0 <= i < |xs| ==> ys[i] == f(xs[i])
  {
    seq(|xs|, i requires 0 <= i < |xs| => f(xs[i]))
  }

  lemma MapAppend<T, U>(xs: seq<T>, ys: seq<T>, f: T -> U)
    ensures Map(xs + ys, f) == Map(xs, f) + Map(ys, f)
  {
  }

  lemma {:induction false} MapElements<T, U>(xs: seq<T>, ys: seq<T>, f: T -> U)
    requires multiset(xs) == multiset(ys)
    ensures multiset(Map(xs, f)) == multiset(Map(ys, f))
  {
    assert |xs| == |multiset(xs)| == |multiset(ys)| == |ys|;
    if xs != [] {
      var x := xs[0];
      InMultiset(xs, ys, x);
      var i :| 0 <= i < |ys| && ys[i] == x;
      var before, after := ys[..i], ys[i + 1..];
      assert xs == [x] + xs[1..] && ys == before + ([x] + after);
      SameTails(x, xs[1..], before + after) by {
        assert multiset(ys) == multiset([x] + (before + after));
      }
      MapElements(xs[1..], before + after, f);
      MapMiddle(before, x, after, f);
      MapMiddle([], x, xs[1..], f);
      assert [] + ([x] + xs[1..]) == xs && [] + xs[1..] == xs[1..];
    }
  }

  lemma MapMiddle<T, U>(before: seq<T>, x: T, after: seq<T>, f: T -> U)
    ensures multiset(Map(before + ([x] + after), f)) == multiset(Map(before + after, f)) + multiset{f(x)}
  {
    assert Map(before + ([x] + after), f) == Map(before, f) + ([f(x)] + Map(after, f));
    assert Map(before + after, f) == Map(before, f) + Map(after, f);
  }

  predicate Distinct<T(==)>(xs: seq<T>) {
    forall i, j :: 0 <= i < j < |xs| ==> xs[i] != xs[j]
  }

  lemma DistinctOnce<T>(xs: seq<T>, x: T)
    requires Distinct(xs) && x in xs
    ensures multiset(xs)[x] == 1
  {
    var i :| 0 <= i < |xs| && xs[i] == x;
    assert xs == xs[..i] + [x] + xs[i + 1..];
    assert x !in xs[..i] && x !in xs[i + 1..];
    assert x in xs[..i] <==> x in multiset(xs[..i]);
    assert x in xs[i + 1..] <==> x in multiset(xs[i + 1..]);
  }

  lemma OnceDistinct<T>(xs: seq<T>)
    requires forall x :: x in xs ==> multiset(xs)[x] == 1
    ensures Distinct(xs)
  {
    forall i, j | 0 <= i < j < |xs|
      ensures xs[i] != xs[j]
    {
      assert xs == xs[..j] + xs[j..];
      assert xs[i] in xs[..j] && xs[j] in xs[j..];
      assert xs[i] in multiset(xs[..j]) && xs[j] in multiset(xs[j..]);
      assert multiset(xs)[xs[j]] == multiset(xs[..j])[xs[j]] + multiset(xs[j..])[xs[j]];
      assert xs[j] in xs;
    }
  }

  lemma DistinctElements<T>(xs: seq<T>, ys: seq<T>)
    requires multiset(xs) == multiset(ys) && Distinct(xs)
    ensures Distinct(ys)
  {
    forall x | x in ys
      ensures multiset(ys)[x] == 1
    {
      InMultiset(xs, ys, x);
      DistinctOnce(xs, x);
    }
    OnceDistinct(ys);
  }
}
