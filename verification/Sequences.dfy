/** Sums, selections and stable sorts of lists, and what a reordering of the list does to them. */
module Sequences {

  // ----- Sums and selections, from left to right -----

  function Sum<T>(f: T -> int, xs: seq<T>): int {
    if xs == [] then 0 else Sum(f, xs[..|xs| - 1]) + f(xs[|xs| - 1])
  }

  function Collect<T, U>(f: T -> seq<U>, xs: seq<T>): seq<U> {
    if xs == [] then [] else Collect(f, xs[..|xs| - 1]) + f(xs[|xs| - 1])
  }

  lemma {:induction false} CollectedFrom<T, U>(f: T -> seq<U>, xs: seq<T>, y: U)
    ensures y in Collect(f, xs) <==> exists x :: x in xs && y in f(x)
  {
    if xs != [] {
      CollectedFrom(f, xs[..|xs| - 1], y);
      assert xs == xs[..|xs| - 1] + [xs[|xs| - 1]];
      assert xs[|xs| - 1] in xs;
    }
  }

  /** A selection keeps an element as often as it is in the list, or drops it. */
  lemma {:induction false} KeptCounts<T>(keep: T -> seq<T>, xs: seq<T>, x: T)
    requires forall y :: keep(y) == [y] || keep(y) == []
    ensures multiset(Collect(keep, xs))[x] == if keep(x) == [x] then multiset(xs)[x] else 0
  {
    if xs != [] {
      var front, last := xs[..|xs| - 1], xs[|xs| - 1];
      KeptCounts(keep, front, x);
      assert xs == front + [last];
      assert multiset(Collect(keep, xs)) == multiset(Collect(keep, front)) + multiset(keep(last));
    }
  }

  lemma TakeOneMore<T>(xs: seq<T>, i: nat)
    requires i < |xs|
    ensures xs[..i + 1] != [] && xs[..i + 1][..|xs[..i + 1]| - 1] == xs[..i] && xs[..i + 1][|xs[..i + 1]| - 1] == xs[i]
  {
  }

  lemma TakeAll<T>(xs: seq<T>)
    ensures xs[..|xs|] == xs
  {
  }

  lemma SumOneMore<T>(f: T -> int, xs: seq<T>, i: nat)
    requires i < |xs|
    ensures Sum(f, xs[..i + 1]) == Sum(f, xs[..i]) + f(xs[i])
  {
    TakeOneMore(xs, i);
  }

  lemma CollectOneMore<T, U>(f: T -> seq<U>, xs: seq<T>, i: nat)
    requires i < |xs|
    ensures Collect(f, xs[..i + 1]) == Collect(f, xs[..i]) + f(xs[i])
  {
    TakeOneMore(xs, i);
  }

  lemma {:induction false} SumAppend<T>(f: T -> int, xs: seq<T>, ys: seq<T>)
    ensures Sum(f, xs + ys) == Sum(f, xs) + Sum(f, ys)
  {
    if ys == [] {
      assert xs + ys == xs;
    } else {
      assert (xs + ys)[..|xs + ys| - 1] == xs + ys[..|ys| - 1];
      SumAppend(f, xs, ys[..|ys| - 1]);
    }
  }

  lemma {:induction false} SumAgrees<T>(f: T -> int, g: T -> int, xs: seq<T>)
    requires forall x :: x in xs ==> f(x) == g(x)
    ensures Sum(f, xs) == Sum(g, xs)
  {
    if xs != [] { SumAgrees(f, g, xs[..|xs| - 1]); }
  }

  lemma {:induction false} SumsAdd<T>(f: T -> int, g: T -> int, h: T -> int, xs: seq<T>)
    requires forall x :: x in xs ==> h(x) == f(x) + g(x)
    ensures Sum(h, xs) == Sum(f, xs) + Sum(g, xs)
  {
    if xs != [] { SumsAdd(f, g, h, xs[..|xs| - 1]); }
  }

  lemma {:induction false} SumBounds<T>(f: T -> int, xs: seq<T>)
    requires forall x :: x in xs ==> f(x) >= 0
    ensures Sum(f, xs) >= 0
    ensures forall x :: x in xs ==> f(x) <= Sum(f, xs)
  {
    if xs != [] { SumBounds(f, xs[..|xs| - 1]); }
  }

  /** The sum over what was collected, when `h` adds up what each element contributes. */
  lemma {:induction false} SumOfCollected<T, U>(g: U -> int, f: T -> seq<U>, h: T -> int, xs: seq<T>)
    requires forall x :: x in xs ==> h(x) == Sum(g, f(x))
    ensures Sum(g, Collect(f, xs)) == Sum(h, xs)
  {
    if xs != [] {
      SumOfCollected(g, f, h, xs[..|xs| - 1]);
      SumAppend(g, Collect(f, xs[..|xs| - 1]), f(xs[|xs| - 1]));
    }
  }

  lemma {:induction false} CollectAppend<T, U>(f: T -> seq<U>, xs: seq<T>, ys: seq<T>)
    ensures Collect(f, xs + ys) == Collect(f, xs) + Collect(f, ys)
  {
    if ys == [] {
      assert xs + ys == xs;
    } else {
      assert (xs + ys)[..|xs + ys| - 1] == xs + ys[..|ys| - 1];
      CollectAppend(f, xs, ys[..|ys| - 1]);
    }
  }

  /** Collecting twice, when `h` collects what each element contributes. */
  lemma {:induction false} CollectOfCollected<T, U, V>(g: U -> seq<V>, f: T -> seq<U>, h: T -> seq<V>, xs: seq<T>)
    requires forall x :: x in xs ==> h(x) == Collect(g, f(x))
    ensures Collect(g, Collect(f, xs)) == Collect(h, xs)
  {
    if xs != [] {
      CollectOfCollected(g, f, h, xs[..|xs| - 1]);
      CollectAppend(g, Collect(f, xs[..|xs| - 1]), f(xs[|xs| - 1]));
    }
  }

  lemma {:induction false} CollectsAdd<T, U>(f: T -> seq<U>, g: T -> seq<U>, h: T -> seq<U>, xs: seq<T>)
    requires forall x :: x in xs ==> multiset(h(x)) == multiset(f(x)) + multiset(g(x))
    ensures multiset(Collect(h, xs)) == multiset(Collect(f, xs)) + multiset(Collect(g, xs))
  {
    if xs != [] { CollectsAdd(f, g, h, xs[..|xs| - 1]); }
  }

  lemma SumOfOne<T>(f: T -> int, x: T)
    ensures Sum(f, [x]) == f(x) && Sum(f, []) == 0
  {
    assert [x][..0] == [];
  }

  lemma CollectOfOne<T, U>(f: T -> seq<U>, x: T)
    ensures Collect(f, [x]) == f(x) && Collect(f, []) == []
  {
    assert [x][..0] == [];
  }

  // ----- Reordering -----

  lemma Removed<T>(xs: seq<T>, i: nat)
    requires i < |xs|
    ensures multiset(xs[..i] + xs[i + 1..]) == multiset(xs) - multiset{xs[i]}
  {
    assert xs == xs[..i] + [xs[i]] + xs[i + 1..];
  }

  /** A sum does not depend on the order. */
  lemma {:induction false} SumPermutes<T>(f: T -> int, xs: seq<T>, ys: seq<T>)
    requires multiset(xs) == multiset(ys)
    ensures Sum(f, xs) == Sum(f, ys)
    decreases |xs|
  {
    if xs == [] {
      assert |multiset(ys)| == 0;
    } else {
      var n, x := |xs| - 1, xs[|xs| - 1];
      assert x in multiset(ys);
      var i :| 0 <= i < |ys| && ys[i] == x;
      Removed(xs, n);
      Removed(ys, i);
      assert xs[..n] + xs[n + 1..] == xs[..n];
      SumPermutes(f, xs[..n], ys[..i] + ys[i + 1..]);
      assert ys == ys[..i] + [x] + ys[i + 1..];
      SumAppend(f, ys[..i] + [x], ys[i + 1..]);
      SumAppend(f, ys[..i], [x]);
      SumAppend(f, ys[..i], ys[i + 1..]);
      assert [x][..0] == [];
    }
  }

  function Occurrences<T, U(==)>(f: T -> seq<U>, u: U): T -> int {
    x => multiset(f(x))[u]
  }

  lemma {:induction false} CollectedOccurrences<T, U>(f: T -> seq<U>, xs: seq<T>, u: U)
    ensures multiset(Collect(f, xs))[u] == Sum(Occurrences(f, u), xs)
  {
    if xs != [] { CollectedOccurrences(f, xs[..|xs| - 1], u); }
  }

  lemma CollectPermutes<T, U(!new)>(f: T -> seq<U>, xs: seq<T>, ys: seq<T>)
    requires multiset(xs) == multiset(ys)
    ensures multiset(Collect(f, xs)) == multiset(Collect(f, ys))
  {
    forall u: U ensures multiset(Collect(f, xs))[u] == multiset(Collect(f, ys))[u] {
      CollectedOccurrences(f, xs, u);
      CollectedOccurrences(f, ys, u);
      SumPermutes(Occurrences(f, u), xs, ys);
    }
  }

  lemma {:induction false} CollectAgrees<T, U>(f: T -> seq<U>, g: T -> seq<U>, xs: seq<T>)
    requires forall x :: x in xs ==> f(x) == g(x)
    ensures Collect(f, xs) == Collect(g, xs)
  {
    if xs != [] { CollectAgrees(f, g, xs[..|xs| - 1]); }
  }

  ghost predicate Distinct<T>(xs: seq<T>) {
    forall i, j :: 0 <= i < j < |xs| ==> xs[i] != xs[j]
  }

  lemma {:induction false} DistinctCounts<T(!new)>(xs: seq<T>)
    ensures Distinct(xs) <==> forall x :: multiset(xs)[x] <= 1
  {
    if xs != [] {
      var front, last := xs[..|xs| - 1], xs[|xs| - 1];
      DistinctCounts(front);
      assert xs == front + [last];
      assert last in front <==> multiset(front)[last] > 0;
      assert multiset(xs)[last] == multiset(front)[last] + 1;
      assert forall x :: x != last ==> multiset(xs)[x] == multiset(front)[x];
      assert Distinct(xs) <==> Distinct(front) && last !in front;
    }
  }

  lemma DistinctPermutes<T(!new)>(xs: seq<T>, ys: seq<T>)
    requires Distinct(xs) && multiset(xs) == multiset(ys)
    ensures Distinct(ys)
  {
    DistinctCounts(xs);
    DistinctCounts(ys);
  }

  /** The elements that contribute u. */
  ghost function Contributors<T(!new), U>(f: T -> seq<U>, xs: seq<T>, u: U): set<T> {
    set x | x in xs && u in f(x)
  }

  lemma ContributorsOneMore<T(!new), U>(f: T -> seq<U>, front: seq<T>, last: T, u: U)
    requires last !in front
    ensures |Contributors(f, front + [last], u)| == |Contributors(f, front, u)| + if u in f(last) then 1 else 0
  {
    var before := Contributors(f, front, u);
    assert last !in before;
    if u in f(last) {
      assert Contributors(f, front + [last], u) == before + {last};
    } else {
      assert Contributors(f, front + [last], u) == before;
    }
  }

  lemma CountInShort<U>(ys: seq<U>, u: U)
    requires |ys| <= 1
    ensures multiset(ys)[u] == if u in ys then 1 else 0
  {
    if ys != [] { assert ys == [ys[0]]; }
  }

  lemma CountConcatenated<U>(xs: seq<U>, ys: seq<U>, u: U)
    ensures multiset(xs + ys)[u] == multiset(xs)[u] + multiset(ys)[u]
  {
  }

  lemma LastIsNew<T>(xs: seq<T>)
    requires Distinct(xs) && xs != []
    ensures Distinct(xs[..|xs| - 1]) && xs[|xs| - 1] !in xs[..|xs| - 1] && xs == xs[..|xs| - 1] + [xs[|xs| - 1]]
  {
  }

  /** How often a value is collected from distinct elements that each contribute at most one. */
  lemma {:induction false} CountCollected<T(!new), U>(f: T -> seq<U>, xs: seq<T>, u: U)
    requires Distinct(xs) && forall x :: |f(x)| <= 1
    ensures multiset(Collect(f, xs))[u] == |Contributors(f, xs, u)|
  {
    if xs == [] {
      assert Contributors(f, [], u) == {};
    } else {
      LastIsNew(xs);
      hide Distinct, Contributors;
      var front, last := xs[..|xs| - 1], xs[|xs| - 1];
      CountCollected(f, front, u);
      ContributorsOneMore(f, front, last, u);
      CountConcatenated(Collect(f, front), f(last), u);
      CountInShort(f(last), u);
    }
  }

  // ----- Stable sorting -----

  /** `le(a, b)`: the key of `a` is at most the key of `b`. */
  ghost predicate IsOrder<T(!new)>(le: (T, T) -> bool) {
    && (forall a, b :: le(a, b) || le(b, a))
    && (forall a, b, c :: le(a, b) && le(b, c) ==> le(a, c))
  }

  ghost predicate Ordered<T>(le: (T, T) -> bool, xs: seq<T>) {
    forall i, j :: 0 <= i < j < |xs| ==> le(xs[i], xs[j])
  }

  function Insert<T>(le: (T, T) -> bool, xs: seq<T>, x: T): seq<T> {
    if xs == [] || le(xs[|xs| - 1], x) then xs + [x]
    else Insert(le, xs[..|xs| - 1], x) + [xs[|xs| - 1]]
  }

  /** `list.sort` with the given key: elements with equal keys stay in order. */
  function SortBy<T>(le: (T, T) -> bool, xs: seq<T>): seq<T> {
    if xs == [] then [] else Insert(le, SortBy(le, xs[..|xs| - 1]), xs[|xs| - 1])
  }

  lemma {:induction false} InsertPermutes<T>(le: (T, T) -> bool, xs: seq<T>, x: T)
    ensures multiset(Insert(le, xs, x)) == multiset(xs) + multiset{x}
  {
    if xs != [] && !le(xs[|xs| - 1], x) {
      InsertPermutes(le, xs[..|xs| - 1], x);
      assert xs == xs[..|xs| - 1] + [xs[|xs| - 1]];
    }
  }

  lemma {:induction false} SortPermutes<T>(le: (T, T) -> bool, xs: seq<T>)
    ensures multiset(SortBy(le, xs)) == multiset(xs)
  {
    if xs != [] {
      SortPermutes(le, xs[..|xs| - 1]);
      InsertPermutes(le, SortBy(le, xs[..|xs| - 1]), xs[|xs| - 1]);
      assert xs == xs[..|xs| - 1] + [xs[|xs| - 1]];
    }
  }

  lemma SameMembers<T>(xs: seq<T>, ys: seq<T>)
    requires multiset(xs) == multiset(ys)
    ensures |xs| == |ys|
    ensures forall x :: x in xs <==> x in ys
  {
    assert |multiset(xs)| == |xs| && |multiset(ys)| == |ys|;
    forall x ensures x in xs <==> x in ys {
      assert x in xs <==> x in multiset(xs);
      assert x in ys <==> x in multiset(ys);
    }
  }

  lemma {:induction false} InsertOrders<T(!new)>(le: (T, T) -> bool, xs: seq<T>, x: T)
    requires IsOrder(le) && Ordered(le, xs)
    ensures Ordered(le, Insert(le, xs, x))
  {
    var ys := Insert(le, xs, x);
    if xs == [] || le(xs[|xs| - 1], x) {
      forall i | 0 <= i < |xs| ensures le(xs[i], x) {
        assert i < |xs| - 1 ==> le(xs[i], xs[|xs| - 1]);
      }
    } else {
      var last, front := xs[|xs| - 1], xs[..|xs| - 1];
      InsertOrders(le, front, x);
      InsertPermutes(le, front, x);
      forall y | y in Insert(le, front, x) ensures le(y, last) {
        assert y in multiset(front) + multiset{x};
        if y in front { var i :| 0 <= i < |front| && front[i] == y; assert le(xs[i], xs[|xs| - 1]); }
      }
    }
  }

  lemma {:induction false} SortOrders<T(!new)>(le: (T, T) -> bool, xs: seq<T>)
    requires IsOrder(le)
    ensures Ordered(le, SortBy(le, xs))
  {
    if xs != [] {
      SortOrders(le, xs[..|xs| - 1]);
      InsertOrders(le, SortBy(le, xs[..|xs| - 1]), xs[|xs| - 1]);
    }
  }

  /** Elements that all have the same key keep their order. */
  lemma {:induction false} SortIsStable<T(!new)>(le: (T, T) -> bool, keep: T -> seq<T>, xs: seq<T>)
    requires IsOrder(le)
    requires forall a, b :: keep(a) != [] && keep(b) != [] ==> le(a, b)
    ensures Collect(keep, SortBy(le, xs)) == Collect(keep, xs)
  {
    if xs != [] {
      SortIsStable(le, keep, xs[..|xs| - 1]);
      InsertIsStable(le, keep, SortBy(le, xs[..|xs| - 1]), xs[|xs| - 1]);
    }
  }

  lemma CollectSnoc<T, U>(f: T -> seq<U>, front: seq<T>, last: T)
    ensures Collect(f, front + [last]) == Collect(f, front) + f(last)
  {
    assert (front + [last])[..|front|] == front;
  }

  lemma {:induction false} InsertIsStable<T(!new)>(le: (T, T) -> bool, keep: T -> seq<T>, xs: seq<T>, x: T)
    requires forall a, b :: keep(a) != [] && keep(b) != [] ==> le(a, b)
    ensures Collect(keep, Insert(le, xs, x)) == Collect(keep, xs) + keep(x)
  {
    hide Collect;
    if xs == [] || le(xs[|xs| - 1], x) {
      CollectSnoc(keep, xs, x);
    } else {
      var front, last := xs[..|xs| - 1], xs[|xs| - 1];
      InsertIsStable(le, keep, front, x);
      CollectSnoc(keep, Insert(le, front, x), last);
      CollectSnoc(keep, front, last);
      assert front + [last] == xs;
      assert keep(x) == [] || keep(last) == [];
    }
  }

  /** There is only one way to order elements of which no two share a key. */
  lemma {:induction false} OrderIsUnique<T(!new)>(le: (T, T) -> bool, xs: seq<T>, ys: seq<T>)
    requires Ordered(le, xs) && Ordered(le, ys) && multiset(xs) == multiset(ys)
    requires forall a, b :: a in xs && b in xs && le(a, b) && le(b, a) ==> a == b
    ensures xs == ys
  {
    hide Ordered;
    SameMembers(xs, ys);
    if xs != [] {
      SameFirst(le, xs, ys);
      TailIsOrdered(le, xs);
      TailIsOrdered(le, ys);
      TailsAgree(xs, ys);
      FirstAndTail(xs);
      FirstAndTail(ys);
      OrderIsUnique(le, xs[1..], ys[1..]);
    }
  }

  lemma FirstAndTail<T>(xs: seq<T>)
    requires xs != []
    ensures xs == [xs[0]] + xs[1..] && forall a :: a in xs[1..] ==> a in xs
  {
  }

  lemma TailsAgree<T>(xs: seq<T>, ys: seq<T>)
    requires multiset(xs) == multiset(ys) && xs != [] && ys != [] && xs[0] == ys[0]
    ensures multiset(xs[1..]) == multiset(ys[1..])
  {
    RemovedFirst(xs);
    RemovedFirst(ys);
  }

  lemma TailIsOrdered<T>(le: (T, T) -> bool, xs: seq<T>)
    requires Ordered(le, xs) && xs != []
    ensures Ordered(le, xs[1..])
  {
  }

  lemma RemovedFirst<T>(xs: seq<T>)
    requires xs != []
    ensures multiset(xs[1..]) == multiset(xs) - multiset{xs[0]}
  {
    assert xs == [xs[0]] + xs[1..];
  }

  lemma SameFirst<T(!new)>(le: (T, T) -> bool, xs: seq<T>, ys: seq<T>)
    requires Ordered(le, xs) && Ordered(le, ys) && |xs| == |ys| > 0
    requires forall x :: x in xs <==> x in ys
    requires forall a, b :: a in xs && b in xs && le(a, b) && le(b, a) ==> a == b
    ensures xs[0] == ys[0]
  {
    var x, y := xs[0], ys[0];
    assert x in xs && y in ys;
    var i :| 0 <= i < |ys| && ys[i] == x;
    var j :| 0 <= j < |xs| && xs[j] == y;
    assert (i == 0 || le(y, x)) && (j == 0 || le(x, y));
  }

  /** Sorting forgets the order its input came in, if no two elements share a key. */
  lemma SortForgetsOrder<T(!new)>(le: (T, T) -> bool, xs: seq<T>, ys: seq<T>)
    requires IsOrder(le) && multiset(xs) == multiset(ys)
    requires forall a, b :: a in xs && b in xs && le(a, b) && le(b, a) ==> a == b
    ensures SortBy(le, xs) == SortBy(le, ys)
  {
    SortPermutes(le, xs);
    SortPermutes(le, ys);
    SortOrders(le, xs);
    SortOrders(le, ys);
    SameMembers(SortBy(le, xs), xs);
    OrderIsUnique(le, SortBy(le, xs), SortBy(le, ys));
  }

  /** Sorting needs the comparison only on what it sorts. */
  lemma {:induction false} SortAgrees<T>(le: (T, T) -> bool, other: (T, T) -> bool, xs: seq<T>)
    requires forall a, b :: a in xs && b in xs ==> le(a, b) == other(a, b)
    ensures SortBy(le, xs) == SortBy(other, xs)
  {
    if xs != [] {
      var front, last := xs[..|xs| - 1], xs[|xs| - 1];
      SortAgrees(le, other, front);
      SortPermutes(le, front);
      forall a | a in SortBy(le, front) ensures le(a, last) == other(a, last) {
        assert a in multiset(SortBy(le, front));
        assert a in multiset(front);
        assert a in xs && last in xs;
      }
      InsertAgrees(le, other, SortBy(le, front), last);
    }
  }

  lemma {:induction false} InsertAgrees<T>(le: (T, T) -> bool, other: (T, T) -> bool, xs: seq<T>, x: T)
    requires forall a :: a in xs ==> le(a, x) == other(a, x)
    ensures Insert(le, xs, x) == Insert(other, xs, x)
  {
    if xs != [] && !le(xs[|xs| - 1], x) { InsertAgrees(le, other, xs[..|xs| - 1], x); }
  }
}
