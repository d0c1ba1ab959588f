/** Facts about finite sequences that every model uses: totals, flattening, filtering, counting and sorting. */
module Sequences {

  datatype Option<+T> = None | Some(value: T)

  ghost predicate Distinct<T>(s: seq<T>) {
    forall i, j :: 0 <= i < j < |s| ==> s[i] != s[j]
  }

  // ----- sums, flattening, filtering; all recursive from the end so that loops can extend them -----

  function Total<T>(f: T -> int, xs: seq<T>): int {
    if xs == [] then 0 else Total(f, xs[..|xs| - 1]) + f(xs[|xs| - 1])
  }

  function FlatMap<T, U>(f: T -> seq<U>, xs: seq<T>): seq<U> {
    if xs == [] then [] else FlatMap(f, xs[..|xs| - 1]) + f(xs[|xs| - 1])
  }

  function Filter<T>(p: T -> bool, xs: seq<T>): seq<T> {
    if xs == [] then []
    else Filter(p, xs[..|xs| - 1]) + (if p(xs[|xs| - 1]) then [xs[|xs| - 1]] else [])
  }

  lemma Singletons<T, U>(f: T -> int, g: T -> seq<U>, x: T)
    ensures Total(f, [x]) == f(x) && FlatMap(g, [x]) == g(x)
  {
    assert [x][..|[x]| - 1] == [];
  }

  lemma {:induction false} TotalConcat<T>(f: T -> int, xs: seq<T>, ys: seq<T>)
    ensures Total(f, xs + ys) == Total(f, xs) + Total(f, ys)
  {
    if ys == [] {
      assert xs + ys == xs;
    } else {
      var n := |ys| - 1;
      assert (xs + ys)[..|xs + ys| - 1] == xs + ys[..n];
      TotalConcat(f, xs, ys[..n]);
    }
  }

  lemma {:induction false} FlatMapConcat<T, U>(f: T -> seq<U>, xs: seq<T>, ys: seq<T>)
    ensures FlatMap(f, xs + ys) == FlatMap(f, xs) + FlatMap(f, ys)
  {
    if ys == [] {
      assert xs + ys == xs;
    } else {
      var n := |ys| - 1;
      assert (xs + ys)[..|xs + ys| - 1] == xs + ys[..n];
      FlatMapConcat(f, xs, ys[..n]);
    }
  }

  lemma {:induction false} FilterConcat<T>(p: T -> bool, xs: seq<T>, ys: seq<T>)
    ensures Filter(p, xs + ys) == Filter(p, xs) + Filter(p, ys)
  {
    if ys == [] {
      assert xs + ys == xs;
    } else {
      var n := |ys| - 1;
      assert (xs + ys)[..|xs + ys| - 1] == xs + ys[..n];
      FilterConcat(p, xs, ys[..n]);
    }
  }

  lemma FilterPrefix<T>(p: T -> bool, xs: seq<T>, ys: seq<T>)
    requires xs <= ys
    ensures Filter(p, xs) <= Filter(p, ys)
  {
    assert ys == xs + ys[|xs|..];
    FilterConcat(p, xs, ys[|xs|..]);
  }

  lemma {:induction false} FilterMembers<T>(p: T -> bool, xs: seq<T>, x: T)
    ensures x in Filter(p, xs) <==> x in xs && p(x)
  {
    if xs != [] {
      var n := |xs| - 1;
      FilterMembers(p, xs[..n], x);
      assert xs == xs[..n] + [xs[n]];
    }
  }

  lemma FilterSnoc<T>(f: T -> bool, xs: seq<T>, x: T)
    ensures Filter(f, xs + [x]) == Filter(f, xs) + (if f(x) then [x] else [])
  {
    assert (xs + [x])[..|xs|] == xs;
  }

  lemma FilterTakes<T>(f: T -> bool, xs: seq<T>, x: T)
    requires f(x)
    ensures Filter(f, xs + [x]) == Filter(f, xs) + [x]
  {
    assert (xs + [x])[..|xs|] == xs;
  }

  lemma FilterSkips<T>(f: T -> bool, xs: seq<T>, x: T)
    requires !f(x)
    ensures Filter(f, xs + [x]) == Filter(f, xs)
  {
    assert (xs + [x])[..|xs|] == xs;
  }

  lemma {:induction false} FilterIsShorter<T>(p: T -> bool, xs: seq<T>)
    ensures |Filter(p, xs)| <= |xs|
  {
    if xs != [] {
      FilterIsShorter(p, xs[..|xs| - 1]);
    }
  }

  /** Filtering by a narrower test keeps fewer elements, strictly fewer if some element shows the difference. */
  lemma {:induction false} NarrowerFilter<T>(p: T -> bool, q: T -> bool, xs: seq<T>)
    requires forall x :: x in xs && q(x) ==> p(x)
    ensures |Filter(q, xs)| <= |Filter(p, xs)|
    ensures (exists x :: x in xs && p(x) && !q(x)) ==> |Filter(q, xs)| < |Filter(p, xs)|
  {
    if xs != [] {
      var n := |xs| - 1;
      assert xs == xs[..n] + [xs[n]];
      NarrowerFilter(p, q, xs[..n]);
    }
  }

  lemma {:induction false} FlatMapMember<T, U>(f: T -> seq<U>, xs: seq<T>, u: U)
    ensures u in FlatMap(f, xs) <==> exists i :: 0 <= i < |xs| && u in f(xs[i])
  {
    if xs != [] {
      var n := |xs| - 1;
      FlatMapMember(f, xs[..n], u);
      if i :| 0 <= i < |xs| && u in f(xs[i]) {
        if i < n { assert xs[..n][i] == xs[i]; }
      }
      if u in FlatMap(f, xs[..n]) {
        var i :| 0 <= i < n && u in f(xs[..n][i]);
        assert u in f(xs[i]);
      }
    }
  }

  lemma {:induction false} FlatMapEmpty<T, U>(f: T -> seq<U>, xs: seq<T>)
    ensures FlatMap(f, xs) == [] <==> forall x :: x in xs ==> f(x) == []
  {
    if xs != [] {
      var n := |xs| - 1;
      FlatMapEmpty(f, xs[..n]);
      assert xs == xs[..n] + [xs[n]];
      if forall x :: x in xs ==> f(x) == [] {
        assert forall x :: x in xs[..n] ==> x in xs;
      }
    }
  }

  /** Removing the last element of one list from any rearrangement of it leaves a rearrangement. */
  lemma RemoveLast<T>(xs: seq<T>, ys: seq<T>) returns (k: nat)
    requires xs != [] && multiset(xs) == multiset(ys)
    ensures k < |ys| && ys[k] == xs[|xs| - 1]
    ensures multiset(xs[..|xs| - 1]) == multiset(ys[..k] + ys[k + 1..])
    ensures ys == ys[..k] + [ys[k]] + ys[k + 1..]
  {
    var n := |xs| - 1;
    assert xs == xs[..n] + [xs[n]];
    assert xs[n] in multiset(ys);
    k :| 0 <= k < |ys| && ys[k] == xs[n];
    assert ys == ys[..k] + [ys[k]] + ys[k + 1..];
    assert multiset(ys) == multiset(ys[..k]) + multiset{ys[k]} + multiset(ys[k + 1..]);
    assert multiset(xs) == multiset(xs[..n]) + multiset{xs[n]};
    assert multiset(ys[..k] + ys[k + 1..]) == multiset(ys) - multiset{ys[k]};
    assert multiset(xs[..n]) == multiset(xs) - multiset{xs[n]};
  }

  lemma {:induction false} TotalPermutation<T>(f: T -> int, xs: seq<T>, ys: seq<T>)
    requires multiset(xs) == multiset(ys)
    ensures Total(f, xs) == Total(f, ys)
    decreases |xs|
  {
    if xs == [] {
      assert |multiset(ys)| == 0;
      assert ys == [];
    } else {
      var k := RemoveLast(xs, ys);
      TotalPermutation(f, xs[..|xs| - 1], ys[..k] + ys[k + 1..]);
      TotalConcat(f, ys[..k] + [ys[k]], ys[k + 1..]);
      TotalConcat(f, ys[..k], [ys[k]]);
      TotalConcat(f, ys[..k], ys[k + 1..]);
      assert Total(f, [ys[k]]) == f(ys[k]);
    }
  }

  /** Some of the elements add up to no more than all of them, if none counts negative. */
  lemma {:induction false} TotalOfSome<T>(f: T -> int, xs: seq<T>, ys: seq<T>)
    requires Distinct(xs) && (forall x :: x in xs ==> x in ys) && forall y :: y in ys ==> f(y) >= 0
    ensures Total(f, xs) <= Total(f, ys)
    decreases |xs|
  {
    if xs == [] {
      TotalIsPositive(f, ys);
    } else {
      var n := |xs| - 1;
      assert xs[n] in xs;
      var k :| 0 <= k < |ys| && ys[k] == xs[n];
      var rest := ys[..k] + ys[k + 1..];
      forall x | x in xs[..n]
        ensures x in rest
      {
        assert x in xs;
        var i :| 0 <= i < |ys| && ys[i] == x;
        assert i != k;
      }
      TotalOfSome(f, xs[..n], rest);
      TotalWithout(f, ys, k);
    }
  }

  lemma {:induction false} TotalIsPositive<T>(f: T -> int, xs: seq<T>)
    requires forall x :: x in xs ==> f(x) >= 0
    ensures Total(f, xs) >= 0
  {
    if xs != [] {
      TotalIsPositive(f, xs[..|xs| - 1]);
    }
  }

  lemma TotalWithout<T>(f: T -> int, xs: seq<T>, k: nat)
    requires k < |xs|
    ensures Total(f, xs) == Total(f, xs[..k] + xs[k + 1..]) + f(xs[k])
  {
    assert xs == xs[..k] + [xs[k]] + xs[k + 1..];
    TotalAround(f, xs[..k], xs[k], xs[k + 1..]);
  }

  lemma TotalAround<T>(f: T -> int, before: seq<T>, x: T, behind: seq<T>)
    ensures Total(f, before + [x] + behind) == Total(f, before + behind) + f(x)
  {
    TotalConcat(f, before + [x], behind);
    TotalSnoc(f, before, x);
    TotalConcat(f, before, behind);
  }

  lemma TotalSnoc<T>(f: T -> int, xs: seq<T>, x: T)
    ensures Total(f, xs + [x]) == Total(f, xs) + f(x)
  {
    assert (xs + [x])[..|xs|] == xs;
  }

  lemma {:induction false} FlatMapPermutation<T, U>(f: T -> seq<U>, xs: seq<T>, ys: seq<T>)
    requires multiset(xs) == multiset(ys)
    ensures multiset(FlatMap(f, xs)) == multiset(FlatMap(f, ys))
    decreases |xs|
  {
    if xs == [] {
      assert |multiset(ys)| == 0;
      assert ys == [];
    } else {
      var k := RemoveLast(xs, ys);
      FlatMapPermutation(f, xs[..|xs| - 1], ys[..k] + ys[k + 1..]);
      FlatMapConcat(f, ys[..k] + [ys[k]], ys[k + 1..]);
      FlatMapConcat(f, ys[..k], [ys[k]]);
      FlatMapConcat(f, ys[..k], ys[k + 1..]);
      assert FlatMap(f, [ys[k]]) == f(ys[k]);
    }
  }

  lemma PermutationMembers<T>(xs: seq<T>, ys: seq<T>)
    requires multiset(xs) == multiset(ys)
    ensures |xs| == |ys|
    ensures forall x :: x in xs <==> x in ys
  {
    assert |multiset(xs)| == |multiset(ys)|;
    forall x
      ensures x in xs <==> x in ys
    {
      assert x in xs <==> x in multiset(xs);
      assert x in ys <==> x in multiset(ys);
    }
  }

  lemma SingleLastIsNew<T>(s: seq<T>)
    requires s != [] && multiset(s)[s[|s| - 1]] == 1
    ensures s[|s| - 1] !in s[..|s| - 1]
  {
    var n := |s| - 1;
    assert s == s[..n] + [s[n]];
    assert multiset(s) == multiset(s[..n]) + multiset{s[n]};
    assert multiset(s[..n])[s[n]] == 0;
  }

  lemma {:induction false} DistinctIffSingles<T>(s: seq<T>)
    ensures Distinct(s) <==> forall x :: x in s ==> multiset(s)[x] == 1
  {
    if s != [] {
      var n := |s| - 1;
      DistinctIffSingles(s[..n]);
      assert s == s[..n] + [s[n]];
      assert multiset(s) == multiset(s[..n]) + multiset{s[n]};
      if Distinct(s) {
        forall x | x in s
          ensures multiset(s)[x] == 1
        {
          if x == s[n] {
            assert x !in s[..n];
            assert multiset(s[..n])[x] == 0;
          } else {
            assert x in s[..n];
          }
        }
      }
      if forall x :: x in s ==> multiset(s)[x] == 1 {
        forall x | x in s[..n]
          ensures multiset(s[..n])[x] == 1
        {
          assert x in s;
          assert multiset(s[..n])[x] >= 1;
        }
        assert s[n] in s;
        SingleLastIsNew(s);
      }
    }
  }

  lemma DistinctPermutation<T>(xs: seq<T>, ys: seq<T>)
    requires multiset(xs) == multiset(ys) && Distinct(xs)
    ensures Distinct(ys)
  {
    DistinctIffSingles(xs);
    DistinctIffSingles(ys);
    PermutationMembers(xs, ys);
  }

  /** Two lists without repeats that have the same members are rearrangements of one another. */
  lemma DistinctSameMembers<T>(xs: seq<T>, ys: seq<T>)
    requires Distinct(xs) && Distinct(ys)
    requires forall x :: x in xs <==> x in ys
    ensures multiset(xs) == multiset(ys)
  {
    DistinctIffSingles(xs);
    DistinctIffSingles(ys);
    forall x
      ensures multiset(xs)[x] == multiset(ys)[x]
    {
      if x !in xs {
        assert multiset(xs)[x] == 0 && multiset(ys)[x] == 0;
      }
    }
  }

  /** Position of the first element that satisfies the test, or the length. */
  function FirstWhere<T>(p: T -> bool, xs: seq<T>): (k: nat)
    ensures k <= |xs|
    ensures k < |xs| ==> p(xs[k])
    ensures forall i :: 0 <= i < k ==> !p(xs[i])
  {
    if xs == [] then 0
    else if p(xs[0]) then 0
    else 1 + FirstWhere(p, xs[1..])
  }

  /** Among the first n admissible positions, `best` is the first of those with the least cost, or None if there is none. */
  ghost predicate FirstLeast(ok: seq<bool>, cost: seq<int>, best: Option<nat>, n: nat) {
    && n <= |ok| == |cost|
    && if best.None? then forall i :: 0 <= i < n ==> !ok[i]
       else
         && best.value < n && ok[best.value]
         && (forall i :: 0 <= i < n && ok[i] ==> cost[best.value] <= cost[i])
         && (forall i :: 0 <= i < best.value && ok[i] ==> cost[best.value] < cost[i])
  }

  lemma FirstLeastStep(ok: seq<bool>, cost: seq<int>, best: Option<nat>, n: nat)
    requires FirstLeast(ok, cost, best, n) && n < |ok|
    ensures FirstLeast(ok, cost, if ok[n] && (best.None? || cost[n] < cost[best.value]) then Some(n) else best, n + 1)
  {
  }

  // ----- counting the positions below a bound that satisfy a test -----

  function Count(p: int -> bool, n: nat): nat {
    if n == 0 then 0 else Count(p, n - 1) + (if p(n - 1) then 1 else 0)
  }

  lemma {:induction false} CountZero(p: int -> bool, n: nat)
    ensures Count(p, n) == 0 <==> forall i :: 0 <= i < n ==> !p(i)
  {
    if n > 0 {
      CountZero(p, n - 1);
    }
  }

  lemma {:induction false} CountAtMostOne(p: int -> bool, n: nat)
    ensures Count(p, n) <= 1 <==> forall i, j :: 0 <= i < j < n ==> !(p(i) && p(j))
  {
    if n > 0 {
      CountAtMostOne(p, n - 1);
      CountZero(p, n - 1);
    }
  }

  // ----- stable sorting -----

  ghost predicate TotalPreorder<T(!new)>(le: (T, T) -> bool) {
    && (forall x, y :: le(x, y) || le(y, x))
    && (forall x, y, z :: le(x, y) && le(y, z) ==> le(x, z))
  }

  ghost predicate Ordered<T>(le: (T, T) -> bool, xs: seq<T>) {
    forall i, j :: 0 <= i < j < |xs| ==> le(xs[i], xs[j])
  }

  function Insert<T>(le: (T, T) -> bool, x: T, xs: seq<T>): seq<T> {
    if xs == [] then [x]
    else if le(x, xs[0]) then [x] + xs
    else [xs[0]] + Insert(le, x, xs[1..])
  }

  /** Stable sort: an element goes in front of the first later one that is not smaller. */
  function Sorted<T>(le: (T, T) -> bool, xs: seq<T>): seq<T> {
    if xs == [] then [] else Insert(le, xs[0], Sorted(le, xs[1..]))
  }

  lemma {:induction false} InsertAdds<T>(le: (T, T) -> bool, x: T, xs: seq<T>)
    ensures multiset(Insert(le, x, xs)) == multiset(xs) + multiset{x}
  {
    if xs != [] && !le(x, xs[0]) {
      InsertAdds(le, x, xs[1..]);
      assert xs == [xs[0]] + xs[1..];
    }
  }

  lemma {:induction false} SortedIsPermutation<T>(le: (T, T) -> bool, xs: seq<T>)
    ensures multiset(Sorted(le, xs)) == multiset(xs)
  {
    if xs != [] {
      SortedIsPermutation(le, xs[1..]);
      InsertAdds(le, xs[0], Sorted(le, xs[1..]));
      assert xs == [xs[0]] + xs[1..];
    }
  }

  lemma {:induction false} InsertOrdered<T(!new)>(le: (T, T) -> bool, x: T, xs: seq<T>)
    requires TotalPreorder(le) && Ordered(le, xs)
    ensures Ordered(le, Insert(le, x, xs))
  {
    if xs != [] && !le(x, xs[0]) {
      var rest := Insert(le, x, xs[1..]);
      InsertOrdered(le, x, xs[1..]);
      InsertAdds(le, x, xs[1..]);
      forall j | 0 <= j < |rest|
        ensures le(xs[0], rest[j])
      {
        assert rest[j] in multiset(rest);
        assert rest[j] == x || rest[j] in xs[1..];
      }
    }
  }

  lemma {:induction false} SortedIsOrdered<T(!new)>(le: (T, T) -> bool, xs: seq<T>)
    requires TotalPreorder(le)
    ensures Ordered(le, Sorted(le, xs))
  {
    if xs != [] {
      SortedIsOrdered(le, xs[1..]);
      InsertOrdered(le, xs[0], Sorted(le, xs[1..]));
    }
  }

  lemma {:induction false} SortedFixesOrdered<T>(le: (T, T) -> bool, xs: seq<T>)
    requires Ordered(le, xs)
    ensures Sorted(le, xs) == xs
  {
    if |xs| > 0 {
      SortedFixesOrdered(le, xs[1..]);
    }
  }

  lemma {:induction false} InsertIsStable<T>(le: (T, T) -> bool, same: T -> bool, x: T, xs: seq<T>)
    requires forall y :: y in xs && same(x) && same(y) ==> le(x, y)
    ensures Filter(same, Insert(le, x, xs)) == Filter(same, [x] + xs)
  {
    if xs != [] && !le(x, xs[0]) {
      var h, t := xs[0], xs[1..];
      InsertIsStable(le, same, x, t);
      PrependFiltered(same, h, Insert(le, x, t), [x] + t);
      FilterSwap(same, h, x, t);
      assert xs == [h] + t;
    }
  }

  /** Of two neighbours at most one passes: their order does not show. */
  lemma FilterSwap<T>(p: T -> bool, x: T, y: T, rest: seq<T>)
    requires !(p(x) && p(y))
    ensures Filter(p, [x] + ([y] + rest)) == Filter(p, [y] + ([x] + rest))
  {
    FilterConcat(p, [x], [y] + rest);
    FilterConcat(p, [y], rest);
    FilterConcat(p, [y], [x] + rest);
    FilterConcat(p, [x], rest);
    FilterOne(p, x);
    FilterOne(p, y);
  }

  lemma FilterOne<T>(p: T -> bool, x: T)
    ensures Filter(p, [x]) == if p(x) then [x] else []
  {
    assert [x][..0] == [];
  }

  /** Elements that may stand in any order keep the order they were listed in. */
  lemma SortedAddsNothing<T>(le: (T, T) -> bool, xs: seq<T>, x: T)
    requires x in Sorted(le, xs)
    ensures x in xs
  {
    SortedIsPermutation(le, xs);
    assert x in multiset(Sorted(le, xs));
  }

  lemma {:induction false} SortedIsStable<T>(le: (T, T) -> bool, same: T -> bool, xs: seq<T>)
    requires forall x, y :: x in xs && y in xs && same(x) && same(y) ==> le(x, y)
    ensures Filter(same, Sorted(le, xs)) == Filter(same, xs)
  {
    if xs != [] {
      var later := Sorted(le, xs[1..]);
      SortedIsStable(le, same, xs[1..]);
      assert xs == [xs[0]] + xs[1..];
      forall y | y in later
        ensures y in xs
      {
        SortedAddsNothing(le, xs[1..], y);
      }
      InsertIsStable(le, same, xs[0], later);
      PrependFiltered(same, xs[0], later, xs[1..]);
    }
  }

  lemma PrependFiltered<T>(p: T -> bool, x: T, xs: seq<T>, ys: seq<T>)
    requires Filter(p, xs) == Filter(p, ys)
    ensures Filter(p, [x] + xs) == Filter(p, [x] + ys)
  {
    FilterConcat(p, [x], xs);
    FilterConcat(p, [x], ys);
  }

  lemma StrictOrderSameHead<T>(le: (T, T) -> bool, xs: seq<T>, ys: seq<T>)
    requires multiset(xs) == multiset(ys) && Ordered(le, ys) && xs != [] && ys != []
    requires forall i, j :: 0 <= i < j < |xs| ==> !le(xs[j], xs[i])
    ensures xs[0] == ys[0]
  {
    PermutationMembers(xs, ys);
    assert ys[0] in xs && xs[0] in ys;
    var k :| 0 <= k < |xs| && xs[k] == ys[0];
    var m :| 0 <= m < |ys| && ys[m] == xs[0];
  }

  lemma DropHead<T>(xs: seq<T>, ys: seq<T>)
    requires xs != [] && ys != [] && xs[0] == ys[0] && multiset(xs) == multiset(ys)
    ensures multiset(xs[1..]) == multiset(ys[1..])
  {
    assert xs == [xs[0]] + xs[1..] && ys == [ys[0]] + ys[1..];
    assert multiset(xs[1..]) == multiset(xs) - multiset{xs[0]};
    assert multiset(ys[1..]) == multiset(ys) - multiset{ys[0]};
  }

  /** A strictly ordered arrangement is the only ordered arrangement of its elements. */
  lemma {:induction false} StrictOrderIsUnique<T>(le: (T, T) -> bool, xs: seq<T>, ys: seq<T>)
    requires multiset(xs) == multiset(ys) && Ordered(le, ys)
    requires forall i, j :: 0 <= i < j < |xs| ==> !le(xs[j], xs[i])
    ensures xs == ys
    decreases |xs|
  {
    PermutationMembers(xs, ys);
    if xs != [] {
      StrictOrderSameHead(le, xs, ys);
      DropHead(xs, ys);
      StrictOrderIsUnique(le, xs[1..], ys[1..]);
      assert xs == [xs[0]] + xs[1..] && ys == [ys[0]] + ys[1..];
    }
  }

  // ----- iterating a step -----

  ghost function Iterate<T>(step: T -> T, x: T, n: nat): T {
    if n == 0 then x else step(Iterate(step, x, n - 1))
  }

  lemma {:induction false} IterateKeeps<T(!new)>(p: T -> bool, step: T -> T, x: T, n: nat)
    requires p(x) && forall y :: p(y) ==> p(step(y))
    ensures p(Iterate(step, x, n))
  {
    if n > 0 {
      IterateKeeps(p, step, x, n - 1);
    }
  }

  /** Once a step changes nothing, none does. */
  lemma {:induction false} FixedForGood<T>(step: T -> T, x: T, i: nat)
    requires step(Iterate(step, x, i)) == Iterate(step, x, i)
    ensures forall j :: j >= i ==> Iterate(step, x, j) == Iterate(step, x, i)
  {
    forall j | j >= i
      ensures Iterate(step, x, j) == Iterate(step, x, i)
    {
      FixedAt(step, x, i, j);
    }
  }

  lemma {:induction false} FixedAt<T>(step: T -> T, x: T, i: nat, j: nat)
    requires i <= j && step(Iterate(step, x, i)) == Iterate(step, x, i)
    ensures Iterate(step, x, j) == Iterate(step, x, i)
  {
    if i < j {
      FixedAt(step, x, i, j - 1);
    }
  }
}
