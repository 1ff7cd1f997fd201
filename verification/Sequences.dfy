/** Filtering and stable sorting, as the array methods `filter` and `sort` do it. */
module Sequences {
  function Last<T>(xs: seq<T>): T
    requires xs != []
  {
    xs[|xs| - 1]
  }

  function Front<T>(xs: seq<T>): seq<T>
    requires xs != []
  {
    xs[..|xs| - 1]
  }

  ghost predicate Distinct<T>(xs: seq<T>) {
    forall i, j :: 0 <= i < j < |xs| ==> xs[i] != xs[j]
  }

  function Elements<T>(xs: seq<T>): set<T> {
    set x | x in xs
  }

  lemma {:induction false} DistinctSize<T>(xs: seq<T>)
    requires Distinct(xs)
    ensures |Elements(xs)| == |xs|
  {
    if xs != [] {
      DistinctSize(Front(xs));
      assert Elements(xs) == Elements(Front(xs)) + {Last(xs)};
    }
  }

  function Mapped<T, U>(xs: seq<T>, f: T -> U): (r: seq<U>)
    ensures |r| == |xs|
    ensures forall i :: 0 <= i < |xs| ==> r[i] == f(xs[i])
  {
    seq(|xs|, i requires 0 <= i < |xs| => f(xs[i]))
  }

  lemma Associates<T>(a: seq<T>, b: seq<T>, c: seq<T>)
    ensures (a + b) + c == a + (b + c)
  {
  }

  lemma InConcat<T>(a: seq<T>, b: seq<T>, x: T)
    ensures x in a + b <==> x in a || x in b
  {
  }

  lemma InSnoc<T>(xs: seq<T>, x: T)
    requires xs != []
    ensures x in xs <==> x in Front(xs) || x == Last(xs)
  {
    assert xs == Front(xs) + [Last(xs)];
  }

  // ----- filter -----

  function Filter<T>(xs: seq<T>, p: T -> bool): (r: seq<T>)
    ensures |r| <= |xs|
  {
    if xs == [] then []
    else if p(Last(xs)) then Filter(Front(xs), p) + [Last(xs)]
    else Filter(Front(xs), p)
  }

  lemma FilterSnoc<T>(xs: seq<T>, x: T, p: T -> bool)
    ensures Filter(xs + [x], p) == if p(x) then Filter(xs, p) + [x] else Filter(xs, p)
  {
    assert Front(xs + [x]) == xs;
  }

  lemma {:induction false} FilterMembers<T>(xs: seq<T>, p: T -> bool)
    ensures forall x :: x in Filter(xs, p) <==> x in xs && p(x)
  {
    if xs != [] {
      FilterMembers(Front(xs), p);
      assert xs == Front(xs) + [Last(xs)];
    }
  }

  lemma {:induction false} FilterConcat<T>(xs: seq<T>, ys: seq<T>, p: T -> bool)
    ensures Filter(xs + ys, p) == Filter(xs, p) + Filter(ys, p)
  {
    if ys == [] {
      assert xs + ys == xs;
    } else {
      FilterConcat(xs, Front(ys), p);
      assert xs + ys == (xs + Front(ys)) + [Last(ys)];
      FilterSnoc(xs + Front(ys), Last(ys), p);
    }
  }

  lemma {:induction false} FilterDistinct<T>(xs: seq<T>, p: T -> bool)
    requires Distinct(xs)
    ensures Distinct(Filter(xs, p))
  {
    if xs != [] {
      FilterDistinct(Front(xs), p);
      FilterMembers(Front(xs), p);
    }
  }

  lemma {:induction false} FilterAgree<T>(xs: seq<T>, p: T -> bool, q: T -> bool)
    requires forall x :: x in xs ==> p(x) == q(x)
    ensures Filter(xs, p) == Filter(xs, q)
  {
    if xs != [] {
      FilterAgree(Front(xs), p, q);
    }
  }

  lemma {:induction false} FilterAll<T>(xs: seq<T>, p: T -> bool)
    requires forall x :: x in xs ==> p(x)
    ensures Filter(xs, p) == xs
  {
    if xs != [] {
      assert Last(xs) in xs && forall x :: x in Front(xs) ==> x in xs;
      FilterAll(Front(xs), p);
      assert xs == Front(xs) + [Last(xs)];
    }
  }

  lemma {:induction false} FilterNone<T>(xs: seq<T>, p: T -> bool)
    requires forall x :: x in xs ==> !p(x)
    ensures Filter(xs, p) == []
  {
    if xs != [] {
      assert Last(xs) in xs && forall x :: x in Front(xs) ==> x in xs;
      FilterNone(Front(xs), p);
    }
  }

  lemma {:induction false} FilterTwice<T>(xs: seq<T>, p: T -> bool, q: T -> bool, both: T -> bool)
    requires forall x :: both(x) == (p(x) && q(x))
    ensures Filter(Filter(xs, p), q) == Filter(xs, both)
  {
    if xs != [] {
      FilterTwice(Front(xs), p, q, both);
      if p(Last(xs)) {
        FilterSnoc(Filter(Front(xs), p), Last(xs), q);
      }
    }
  }

  /** Three selections that exclude each other hold together what their union selects. */
  lemma {:induction false} FilterParts<T(!new)>(xs: seq<T>, p: T -> bool, q: T -> bool, r: T -> bool, any: T -> bool)
    requires forall x :: any(x) == (p(x) || q(x) || r(x))
    requires forall x :: !(p(x) && q(x)) && !(p(x) && r(x)) && !(q(x) && r(x))
    ensures multiset(Filter(xs, p) + Filter(xs, q) + Filter(xs, r)) == multiset(Filter(xs, any))
  {
    if xs != [] {
      FilterParts(Front(xs), p, q, r, any);
    }
  }

  // ----- stable sort by an integer key -----

  ghost predicate SortedBy<T>(xs: seq<T>, key: T -> int) {
    forall i, j :: 0 <= i < j < |xs| ==> key(xs[i]) <= key(xs[j])
  }

  /** Puts `x` after every element whose key is not larger. */
  function Insert<T>(xs: seq<T>, x: T, key: T -> int): seq<T> {
    if xs == [] || key(Last(xs)) <= key(x) then xs + [x]
    else Insert(Front(xs), x, key) + [Last(xs)]
  }

  function StableSort<T>(xs: seq<T>, key: T -> int): seq<T> {
    if xs == [] then [] else Insert(StableSort(Front(xs), key), Last(xs), key)
  }

  lemma {:induction false} InsertSorted<T>(xs: seq<T>, x: T, key: T -> int)
    requires SortedBy(xs, key)
    ensures SortedBy(Insert(xs, x, key), key)
  {
    if xs == [] {
    } else if key(Last(xs)) <= key(x) {
      SortedBelowLast(xs, key);
    } else {
      SortedBelowLast(xs, key);
      InsertSorted(Front(xs), x, key);
      InsertMultiset(Front(xs), x, key);
      var r := Insert(Front(xs), x, key);
      forall i | 0 <= i < |r| ensures key(r[i]) <= key(Last(xs)) {
        assert r[i] in multiset(r);
        assert r[i] in Front(xs) || r[i] == x;
      }
    }
  }

  lemma {:induction false} InsertMultiset<T>(xs: seq<T>, x: T, key: T -> int)
    ensures multiset(Insert(xs, x, key)) == multiset(xs) + multiset{x}
  {
    if xs != [] && key(Last(xs)) > key(x) {
      InsertMultiset(Front(xs), x, key);
      assert xs == Front(xs) + [Last(xs)];
      assert multiset(xs) == multiset(Front(xs)) + multiset{Last(xs)};
    } else {
      assert multiset(xs + [x]) == multiset(xs) + multiset{x};
    }
  }

  lemma SortedBelowLast<T>(xs: seq<T>, key: T -> int)
    requires SortedBy(xs, key) && xs != []
    ensures forall y :: y in xs ==> key(y) <= key(Last(xs))
    ensures SortedBy(Front(xs), key)
  {
  }

  lemma {:induction false} SortIsSorted<T>(xs: seq<T>, key: T -> int)
    ensures SortedBy(StableSort(xs, key), key)
    ensures multiset(StableSort(xs, key)) == multiset(xs)
  {
    if xs != [] {
      SortIsSorted(Front(xs), key);
      InsertSorted(StableSort(Front(xs), key), Last(xs), key);
      InsertMultiset(StableSort(Front(xs), key), Last(xs), key);
      assert xs == Front(xs) + [Last(xs)];
    }
  }

  lemma {:induction false} InsertFilter<T>(xs: seq<T>, x: T, key: T -> int, p: T -> bool)
    requires SortedBy(xs, key)
    ensures Filter(Insert(xs, x, key), p) == if p(x) then Insert(Filter(xs, p), x, key) else Filter(xs, p)
  {
    if xs == [] || key(Last(xs)) <= key(x) {
      FilterSnoc(xs, x, p);
      FilterMembers(xs, p);
      if xs != [] { SortedBelowLast(xs, key); }
      var r := Filter(xs, p);
      assert r != [] ==> Last(r) in r;
    } else {
      var inserted := Insert(Front(xs), x, key);
      SortedBelowLast(xs, key);
      InsertFilter(Front(xs), x, key, p);
      FilterSnoc(inserted, Last(xs), p);
      if p(Last(xs)) {
        var r := Filter(Front(xs), p);
        assert Front(r + [Last(xs)]) == r;
      }
    }
  }

  /** Sorting commutes with filtering: dropping elements first or last makes no difference. */
  lemma {:induction false} SortFilter<T>(xs: seq<T>, key: T -> int, p: T -> bool)
    ensures Filter(StableSort(xs, key), p) == StableSort(Filter(xs, p), key)
  {
    if xs != [] {
      var sorted := StableSort(Front(xs), key);
      SortFilter(Front(xs), key, p);
      SortIsSorted(Front(xs), key);
      InsertFilter(sorted, Last(xs), key, p);
      if p(Last(xs)) {
        SortSnoc(Filter(Front(xs), p), Last(xs), key);
      }
    }
  }

  lemma SortSnoc<T>(xs: seq<T>, x: T, key: T -> int)
    ensures StableSort(xs + [x], key) == Insert(StableSort(xs, key), x, key)
  {
    assert Front(xs + [x]) == xs;
  }

  function KeyIs<T, K(==)>(key: T -> K, k: K): T -> bool {
    (x: T) => key(x) == k
  }

  lemma {:induction false} SortOfSorted<T>(xs: seq<T>, key: T -> int)
    requires SortedBy(xs, key)
    ensures StableSort(xs, key) == xs
  {
    if xs != [] {
      var front := Front(xs);
      SortOfSorted(front, key);
      assert front != [] ==> key(xs[|xs| - 2]) <= key(xs[|xs| - 1]);
      assert xs == front + [Last(xs)];
    }
  }

  lemma HasKey<T>(xs: seq<T>, key: T -> int, k: int, i: nat)
    requires i < |Filter(xs, KeyIs(key, k))|
    ensures key(Filter(xs, KeyIs(key, k))[i]) == k
  {
    var p := KeyIs(key, k);
    var x := Filter(xs, p)[i];
    FilterMembers(xs, p);
    assert x in Filter(xs, p) && p(x);
  }

  lemma OneKeyIsSorted<T>(xs: seq<T>, key: T -> int, k: int)
    ensures SortedBy(Filter(xs, KeyIs(key, k)), key)
  {
    forall i | 0 <= i < |Filter(xs, KeyIs(key, k))| { HasKey(xs, key, k, i); }
  }

  /** Elements with equal keys keep their order. */
  lemma SortIsStable<T>(xs: seq<T>, key: T -> int, k: int)
    ensures Filter(StableSort(xs, key), KeyIs(key, k)) == Filter(xs, KeyIs(key, k))
  {
    SortFilter(xs, key, KeyIs(key, k));
    OneKeyIsSorted(xs, key, k);
    SortOfSorted(Filter(xs, KeyIs(key, k)), key);
  }

  /** The elements with key `k` are the same, in the same order. */
  ghost predicate SameAt<T>(a: seq<T>, b: seq<T>, key: T -> int, k: int) {
    Filter(a, KeyIs(key, k)) == Filter(b, KeyIs(key, k))
  }

  lemma LastHasPartner<T>(a: seq<T>, b: seq<T>, key: T -> int)
    requires a != [] && SameAt(a, b, key, key(Last(a)))
    ensures b != [] && exists y :: y in b && key(y) == key(Last(a))
  {
    var p := KeyIs(key, key(Last(a)));
    FilterMembers(b, p);
    assert Last(Filter(a, p)) in Filter(b, p);
  }

  /** Sorted sequences alike at every key end in the same element. */
  lemma SameLast<T>(a: seq<T>, b: seq<T>, key: T -> int)
    requires a != [] && SortedBy(a, key) && SortedBy(b, key)
    requires forall k :: SameAt(a, b, key, k)
    ensures b != [] && Last(a) == Last(b)
  {
    assert SameAt(a, b, key, key(Last(a)));
    LastHasPartner(a, b, key);
    assert SameAt(a, b, key, key(Last(b)));
    LastHasPartner(b, a, key);
    SortedBelowLast(a, key);
    SortedBelowLast(b, key);
    var p := KeyIs(key, key(Last(a)));
    assert Last(Filter(a, p)) == Last(a) && Last(Filter(b, p)) == Last(b);
  }

  lemma SameAtFront<T>(a: seq<T>, b: seq<T>, key: T -> int, k: int)
    requires a != [] && b != [] && Last(a) == Last(b) && SameAt(a, b, key, k)
    ensures SameAt(Front(a), Front(b), key, k)
  {
    var p := KeyIs(key, k);
    if p(Last(a)) {
      assert Filter(Front(a), p) == Front(Filter(a, p));
      assert Filter(Front(b), p) == Front(Filter(b, p));
    }
  }

  lemma EmptyTogether<T>(a: seq<T>, b: seq<T>, key: T -> int)
    requires forall k :: SameAt(a, b, key, k)
    ensures a == [] <==> b == []
  {
    if a != [] {
      assert SameAt(a, b, key, key(Last(a)));
      LastHasPartner(a, b, key);
    }
    if b != [] {
      assert SameAt(a, b, key, key(Last(b)));
      LastHasPartner(b, a, key);
    }
  }

  /** There is only one stable sort. */
  lemma {:induction false} StableSortUnique<T>(a: seq<T>, b: seq<T>, key: T -> int)
    requires SortedBy(a, key) && SortedBy(b, key)
    requires forall k :: SameAt(a, b, key, k)
    ensures a == b
  {
    EmptyTogether(a, b, key);
    if a != [] {
      SameLast(a, b, key);
      forall k ensures SameAt(Front(a), Front(b), key, k) { SameAtFront(a, b, key, k); }
      SortedBelowLast(a, key);
      SortedBelowLast(b, key);
      StableSortUnique(Front(a), Front(b), key);
      assert a == Front(a) + [Last(a)] && b == Front(b) + [Last(b)];
    }
  }
}
