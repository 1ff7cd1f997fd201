/** The interpolated percentile of the statistics page, over exact reals. */
module Percentiles {
  import opened Options
  import opened Sequences

  ghost predicate Ascending(s: seq<real>) {
    forall i, j :: 0 <= i < j < |s| ==> s[i] <= s[j]
  }

  function Place(s: seq<real>, x: real): seq<real> {
    if s == [] || Last(s) <= x then s + [x] else Place(Front(s), x) + [Last(s)]
  }

  function Sorted(values: seq<real>): seq<real> {
    if values == [] then [] else Place(Sorted(Front(values)), Last(values))
  }

  function Ceil(x: real): int { -(-x).Floor }

  /** The remainder that the source takes: it has the sign of the dividend. */
  function Fractional(x: real): real {
    if x >= 0.0 then x - x.Floor as real else x - Ceil(x) as real
  }

  /** Reading outside the list gives nothing, and the source then falls back on `otherwise`. */
  function At(s: seq<real>, i: int, otherwise: real): real {
    if 0 <= i < |s| then s[i] else otherwise
  }

  function Interpolate(s: seq<real>, position: real): real {
    var low := At(s, position.Floor, 0.0);
    low + (At(s, Ceil(position), low) - low) * Fractional(position)
  }

  function Position(n: nat, fraction: real): real { (n - 1) as real * fraction }

  function Percentile(values: seq<real>, fraction: real): Option<real> {
    if values == [] then None else Some(Interpolate(Sorted(values), Position(|values|, fraction)))
  }

  // ----- sorting -----

  lemma {:induction false} PlaceAdds(s: seq<real>, x: real)
    ensures multiset(Place(s, x)) == multiset(s) + multiset{x}
  {
    if s != [] && Last(s) > x {
      PlaceAdds(Front(s), x);
      assert s == Front(s) + [Last(s)];
    }
  }

  lemma {:induction false} PlaceAscends(s: seq<real>, x: real)
    requires Ascending(s)
    ensures Ascending(Place(s, x))
  {
    if s != [] && Last(s) > x {
      PlaceAscends(Front(s), x);
      PlaceAdds(Front(s), x);
      var r := Place(Front(s), x);
      forall i | 0 <= i < |r| ensures r[i] <= Last(s) {
        assert r[i] in multiset(r);
        assert r[i] in Front(s) || r[i] == x;
      }
    }
  }

  lemma {:induction false} SortedAscends(values: seq<real>)
    ensures Ascending(Sorted(values)) && multiset(Sorted(values)) == multiset(values)
    ensures |Sorted(values)| == |values|
  {
    if values != [] {
      SortedAscends(Front(values));
      PlaceAscends(Sorted(Front(values)), Last(values));
      PlaceAdds(Sorted(Front(values)), Last(values));
      assert values == Front(values) + [Last(values)];
    }
    assert |multiset(Sorted(values))| == |multiset(values)|;
  }

  lemma LastIsGreatest(a: seq<real>, b: seq<real>)
    requires Ascending(a) && multiset(a) == multiset(b) && a != []
    ensures b != [] && Last(b) <= Last(a)
  {
    assert b != [] by { assert a[0] in multiset(b); }
    assert Last(b) in multiset(a);
    var j :| 0 <= j < |a| && a[j] == Last(b);
  }

  lemma DropLast(a: seq<real>)
    requires a != []
    ensures multiset(Front(a)) == multiset(a) - multiset{Last(a)}
  {
    assert a == Front(a) + [Last(a)];
  }

  lemma {:induction false} AscendingUnique(a: seq<real>, b: seq<real>)
    requires Ascending(a) && Ascending(b) && multiset(a) == multiset(b)
    ensures a == b
  {
    if a == [] {
      assert |multiset(b)| == |multiset(a)| == 0;
    } else {
      LastIsGreatest(a, b);
      LastIsGreatest(b, a);
      DropLast(a);
      DropLast(b);
      AscendingUnique(Front(a), Front(b));
      assert a == Front(a) + [Last(a)] == b;
    }
  }

  /** The percentile depends on the values, not on their order. */
  lemma PercentileIgnoresOrder(a: seq<real>, b: seq<real>, fraction: real)
    requires multiset(a) == multiset(b)
    ensures Percentile(a, fraction) == Percentile(b, fraction)
  {
    SortedAscends(a);
    SortedAscends(b);
    AscendingUnique(Sorted(a), Sorted(b));
    assert |a| == |multiset(a)| == |multiset(b)| == |b|;
  }

  // ----- interpolation -----

  lemma Product(a: real, x: real, y: real)
    requires a >= 0.0 && 0.0 <= x <= y <= 1.0
    ensures 0.0 <= a * x <= a * y <= a
  {
    assert a * (y - x) >= 0.0;
    assert a * (1.0 - y) >= 0.0;
  }

  lemma FloorAndCeil(x: real, n: nat)
    requires 0.0 <= x <= (n - 1) as real
    ensures 0 <= x.Floor <= Ceil(x) < n && Ceil(x) <= x.Floor + 1
    ensures x == x.Floor as real <==> Ceil(x) == x.Floor
    ensures 0.0 <= Fractional(x) < 1.0 && (x == x.Floor as real <==> Fractional(x) == 0.0)
  {
  }

  /** Between two neighbours of the sorted list, and equal to the lower one when the position is whole. */
  lemma InterpolateBetween(s: seq<real>, x: real)
    requires Ascending(s) && 0.0 <= x <= (|s| - 1) as real
    ensures 0 <= x.Floor <= Ceil(x) < |s| && Ceil(x) <= x.Floor + 1
    ensures s[x.Floor] <= Interpolate(s, x) <= s[Ceil(x)]
    ensures x == x.Floor as real ==> Interpolate(s, x) == s[x.Floor]
  {
    FloorAndCeil(x, |s|);
    Product(s[Ceil(x)] - s[x.Floor], Fractional(x), Fractional(x));
  }

  /** Between two whole positions the percentile rises with the position. */
  lemma InterpolateWithin(s: seq<real>, x: real, y: real)
    requires Ascending(s) && 0.0 <= x <= y <= (|s| - 1) as real
    requires x.Floor == y.Floor && x != x.Floor as real
    ensures Interpolate(s, x) <= Interpolate(s, y)
  {
    FloorAndCeil(x, |s|);
    FloorAndCeil(y, |s|);
    assert Ceil(x) == Ceil(y) && Fractional(x) <= Fractional(y);
    var low, gap := s[x.Floor], s[Ceil(x)] - s[x.Floor];
    Product(gap, Fractional(x), Fractional(y));
    calc {
      Interpolate(s, x);
      low + gap * Fractional(x);
    <=
      low + gap * Fractional(y);
      Interpolate(s, y);
    }
  }

  lemma InterpolateMonotone(s: seq<real>, x: real, y: real)
    requires Ascending(s) && 0.0 <= x <= y <= (|s| - 1) as real
    ensures Interpolate(s, x) <= Interpolate(s, y)
  {
    FloorAndCeil(x, |s|);
    FloorAndCeil(y, |s|);
    InterpolateBetween(s, x);
    InterpolateBetween(s, y);
    if x.Floor < y.Floor {
      assert s[Ceil(x)] <= s[y.Floor];
    } else if x != x.Floor as real {
      InterpolateWithin(s, x, y);
    } else {
      assert s[x.Floor] == s[y.Floor];
    }
  }

  lemma Scaled(n: nat, f: real, g: real)
    requires n > 0 && 0.0 <= f <= g <= 1.0
    ensures 0.0 <= Position(n, f) <= Position(n, g) <= (n - 1) as real
  {
    Product((n - 1) as real, f, g);
  }

  /** A larger fraction never gives a smaller percentile. */
  lemma PercentileMonotone(values: seq<real>, f: real, g: real)
    requires values != [] && 0.0 <= f <= g <= 1.0
    ensures Percentile(values, f).value <= Percentile(values, g).value
  {
    SortedAscends(values);
    Scaled(|values|, f, g);
    InterpolateMonotone(Sorted(values), Position(|values|, f), Position(|values|, g));
  }

  /** Every percentile lies between two of the values. */
  lemma PercentileWithinValues(values: seq<real>, f: real)
    requires values != [] && 0.0 <= f <= 1.0
    ensures exists lo, hi :: lo in values && hi in values && lo <= Percentile(values, f).value <= hi
  {
    var s := Sorted(values);
    var x := Position(|values|, f);
    SortedAscends(values);
    Scaled(|values|, f, f);
    InterpolateBetween(s, x);
    var lo, hi := s[x.Floor], s[Ceil(x)];
    assert lo in multiset(values) && hi in multiset(values);
    assert lo in values && hi in values && lo <= Percentile(values, f).value <= hi;
  }

  lemma SortedBounds(values: seq<real>)
    requires values != []
    ensures |Sorted(values)| == |values|
    ensures Sorted(values)[0] in values && Last(Sorted(values)) in values
    ensures forall v :: v in values ==> Sorted(values)[0] <= v <= Last(Sorted(values))
  {
    var s := Sorted(values);
    SortedAscends(values);
    assert s[0] in multiset(values) && Last(s) in multiset(values);
    forall v | v in values ensures s[0] <= v <= Last(s) {
      assert v in multiset(s);
      var i :| 0 <= i < |s| && s[i] == v;
    }
  }

  /** The extreme fractions give the least and the greatest value. */
  lemma PercentileExtremes(values: seq<real>)
    requires values != []
    ensures Percentile(values, 0.0).value in values && Percentile(values, 1.0).value in values
    ensures forall v :: v in values ==> Percentile(values, 0.0).value <= v <= Percentile(values, 1.0).value
  {
    SortedAscends(values);
    SortedBounds(values);
    assert Position(|values|, 0.0) == 0.0 && Position(|values|, 1.0) == (|values| - 1) as real;
    InterpolateBetween(Sorted(values), 0.0);
    InterpolateBetween(Sorted(values), (|values| - 1) as real);
  }

  lemma InterpolateAt(s: seq<real>, x: real, k: nat)
    requires k + 1 < |s| && k as real <= x <= (k + 1) as real
    ensures Interpolate(s, x) == s[k] + (s[k + 1] - s[k]) * (x - k as real)
  {
    if x == (k + 1) as real {
      assert x.Floor == k + 1 && Fractional(x) == 0.0;
    } else {
      assert x.Floor == k && Fractional(x) == x - k as real;
      assert Ceil(x) == if x == k as real then k else k + 1;
    }
  }

  lemma SortedIs(values: seq<real>, s: seq<real>)
    requires Ascending(s) && multiset(s) == multiset(values)
    ensures Sorted(values) == s && |values| == |s|
  {
    SortedAscends(values);
    AscendingUnique(s, Sorted(values));
  }

  /** Between two neighbours of the values in ascending order the percentile moves on the straight line from one to the other. */
  lemma PercentileIsLinear(values: seq<real>, s: seq<real>, f: real, position: real, k: nat)
    requires Ascending(s) && multiset(s) == multiset(values) && k + 1 < |s|
    requires position == (|s| - 1) as real * f && k as real <= position <= (k + 1) as real
    ensures Percentile(values, f) == Some(s[k] + (s[k + 1] - s[k]) * (position - k as real))
  {
    SortedIs(values, s);
    InterpolateAt(s, position, k);
    assert Position(|values|, f) == position;
  }

  lemma OddMedian(values: seq<real>, s: seq<real>, m: nat)
    requires Ascending(s) && multiset(s) == multiset(values) && |s| == 2 * m + 1
    ensures Percentile(values, 0.5) == Some(s[m])
  {
    SortedIs(values, s);
    assert Position(|s|, 0.5) == m as real;
    InterpolateBetween(s, m as real);
  }

  lemma Weighted(low: real, gap: real, t: real)
    requires t == 0.5
    ensures low + gap * t == low + gap / 2.0
  {
  }

  lemma InterpolateMiddle(s: seq<real>, m: nat)
    requires m + 1 < |s|
    ensures Interpolate(s, m as real + 0.5) == (s[m] + s[m + 1]) / 2.0
  {
    var x := m as real + 0.5;
    assert x.Floor == m && Ceil(x) == m + 1 && Fractional(x) == 0.5;
    Weighted(s[m], s[m + 1] - s[m], Fractional(x));
  }

  lemma EvenMedian(values: seq<real>, s: seq<real>, m: nat)
    requires Ascending(s) && multiset(s) == multiset(values) && |s| == 2 * m + 2
    ensures Percentile(values, 0.5) == Some((s[m] + s[m + 1]) / 2.0)
  {
    SortedIs(values, s);
    assert Position(|s|, 0.5) == m as real + 0.5;
    InterpolateMiddle(s, m);
  }

  /** The median of an odd number of values is the middle one, of an even number the mean of the two in the middle. */
  lemma MedianIsInTheMiddle(values: seq<real>, s: seq<real>)
    requires Ascending(s) && multiset(s) == multiset(values) && s != []
    ensures var m := (|s| - 1) / 2;
      Percentile(values, 0.5) == Some(if |s| % 2 == 1 then s[m] else (s[m] + s[m + 1]) / 2.0)
  {
    if |s| % 2 == 1 {
      OddMedian(values, s, (|s| - 1) / 2);
    } else {
      EvenMedian(values, s, (|s| - 1) / 2);
    }
  }

  // ----- how many values lie on each side -----

  function AtMost(limit: real): real -> bool { (v: real) => v <= limit }

  function AtLeast(limit: real): real -> bool { (v: real) => v >= limit }

  lemma {:induction false} FilterMultiset<T(!new)>(a: seq<T>, p: T -> bool)
    ensures forall v :: multiset(Filter(a, p))[v] == if p(v) then multiset(a)[v] else 0
  {
    if a != [] {
      FilterMultiset(Front(a), p);
      assert a == Front(a) + [Last(a)];
    }
  }

  lemma CountIgnoresOrder<T(!new)>(a: seq<T>, b: seq<T>, p: T -> bool)
    requires multiset(a) == multiset(b)
    ensures |Filter(a, p)| == |Filter(b, p)|
  {
    FilterMultiset(a, p);
    FilterMultiset(b, p);
    assert forall v :: multiset(Filter(a, p))[v] == multiset(Filter(b, p))[v];
    assert multiset(Filter(a, p)) == multiset(Filter(b, p));
    assert |multiset(Filter(a, p))| == |multiset(Filter(b, p))|;
  }

  lemma CountOfPart(s: seq<real>, i: nat, j: nat, p: real -> bool)
    requires i <= j <= |s| && forall k :: i <= k < j ==> p(s[k])
    ensures |Filter(s, p)| >= j - i
  {
    assert s == s[..i] + s[i..j] + s[j..];
    FilterConcat(s[..i] + s[i..j], s[j..], p);
    FilterConcat(s[..i], s[i..j], p);
    FilterAll(s[i..j], p);
  }

  lemma InterpolateSplits(s: seq<real>, x: real)
    requires Ascending(s) && 0.0 <= x <= (|s| - 1) as real
    ensures |Filter(s, AtMost(Interpolate(s, x)))| >= x.Floor + 1
    ensures |Filter(s, AtLeast(Interpolate(s, x)))| >= |s| - Ceil(x)
  {
    var p := Interpolate(s, x);
    InterpolateBetween(s, x);
    assert forall k :: 0 <= k <= x.Floor ==> s[k] <= p by {
      assert forall k :: 0 <= k <= x.Floor ==> s[k] <= s[x.Floor];
    }
    assert forall k :: Ceil(x) <= k < |s| ==> s[k] >= p by {
      assert forall k :: Ceil(x) <= k < |s| ==> s[k] >= s[Ceil(x)];
    }
    CountOfPart(s, 0, x.Floor + 1, AtMost(p));
    CountOfPart(s, Ceil(x), |s|, AtLeast(p));
  }

  /**
   * At least `floor(position) + 1` values are at or below the percentile
   * and at least `n - ceil(position)` are at or above it.
   */
  lemma PercentileSplitsValues(values: seq<real>, f: real)
    requires values != [] && 0.0 <= f <= 1.0
    ensures |Filter(values, AtMost(Percentile(values, f).value))| >= Position(|values|, f).Floor + 1
    ensures |Filter(values, AtLeast(Percentile(values, f).value))| >= |values| - Ceil(Position(|values|, f))
  {
    var s := Sorted(values);
    SortedAscends(values);
    Scaled(|values|, f, f);
    InterpolateSplits(s, Position(|values|, f));
    CountIgnoresOrder(s, values, AtMost(Percentile(values, f).value));
    CountIgnoresOrder(s, values, AtLeast(Percentile(values, f).value));
  }

  // ----- the summary line -----

  function Sum(values: seq<real>): real {
    if values == [] then 0.0 else Sum(Front(values)) + Last(values)
  }

  datatype Times = Times(count: nat, total: real, average: Option<real>, median: Option<real>, p90: Option<real>)

  function DescribeTimes(values: seq<real>): Times {
    Times(|values|, Sum(values), if |values| != 0 then Some(Sum(values) / |values| as real) else None,
          Percentile(values, 0.5), Percentile(values, 0.9))
  }

  lemma OneMore(n: nat, bound: real)
    ensures (n + 1) as real * bound == n as real * bound + bound
  {
  }

  lemma {:induction false} SumBetween(values: seq<real>, lo: real, hi: real)
    requires forall v :: v in values ==> lo <= v <= hi
    ensures |values| as real * lo <= Sum(values) <= |values| as real * hi
  {
    if values != [] {
      assert Last(values) in values && forall v :: v in Front(values) ==> v in values;
      SumBetween(Front(values), lo, hi);
      OneMore(|Front(values)|, lo);
      OneMore(|Front(values)|, hi);
      assert |values| == |Front(values)| + 1;
    }
  }

  lemma Divide(n: real, total: real, lo: real, hi: real)
    requires n > 0.0 && n * lo <= total <= n * hi
    ensures lo <= total / n <= hi
  {
    var q := total / n;
    assert n * q == total;
    Cancel(n, lo, q);
    Cancel(n, q, hi);
  }

  lemma Cancel(n: real, x: real, y: real)
    requires n > 0.0 && n * x <= n * y
    ensures x <= y
  {
    assert n * (x - y) <= 0.0;
  }

  lemma AverageWithin(values: seq<real>, lo: real, hi: real)
    requires values != [] && forall v :: v in values ==> lo <= v <= hi
    ensures lo <= Sum(values) / |values| as real <= hi
  {
    SumBetween(values, lo, hi);
    Divide(|values| as real, Sum(values), lo, hi);
  }

  lemma PercentileWithin(values: seq<real>, f: real, lo: real, hi: real)
    requires values != [] && 0.0 <= f <= 1.0 && forall v :: v in values ==> lo <= v <= hi
    ensures lo <= Percentile(values, f).value <= hi
  {
    PercentileWithinValues(values, f);
  }

  /** The summary is present exactly when there are values; then median <= P90 and every bound of the values bounds it. */
  lemma SummaryIsCoherent(values: seq<real>, lo: real, hi: real)
    requires forall v :: v in values ==> lo <= v <= hi
    ensures var t := DescribeTimes(values);
      && (t.average.Some? <==> values != []) && (t.median.Some? <==> values != []) && (t.p90.Some? <==> values != [])
      && (values != [] ==>
            && lo <= t.median.value <= t.p90.value <= hi
            && lo <= t.average.value <= hi)
  {
    if values != [] {
      PercentileMonotone(values, 0.5, 0.9);
      PercentileWithin(values, 0.5, lo, hi);
      PercentileWithin(values, 0.9, lo, hi);
      AverageWithin(values, lo, hi);
    }
  }
}
