/** The exact latency tracker: values appended to a growing array and sorted only when asked
    (C/p99/tracker.c:16-23, 54-92). Quantiles are reals; the growth and the lazy sort stay invisible. */
module Tracker {
  import opened Sorting

  const DEFAULT_VALUES_NUM := 1024

  /** `(int)(quantile * (n - 1) + 0.5)` for n values. */
  function Index(q: real, n: nat): int {
    (q * (n - 1) as real + 0.5).Floor
  }

  lemma MulOrder(a: real, b: real, x: real)
    requires a <= b && x >= 0.0
    ensures a * x <= b * x
  {
    assert (b - a) * x >= 0.0;
  }

  lemma FloorBetween(x: real, n: int)
    requires 0.0 <= x < n as real
    ensures 0 <= x.Floor < n
  {
  }

  lemma IndexInRange(q: real, n: nat)
    requires 0.0 <= q <= 1.0 && n >= 1
    ensures 0 <= Index(q, n) < n
  {
    MulOrder(0.0, q, (n - 1) as real);
    MulOrder(q, 1.0, (n - 1) as real);
    var x := q * (n - 1) as real;
    assert 0.0 <= x <= (n - 1) as real;
    FloorBetween(x + 0.5, n);
  }

  /** The position nearest to q of the way from the first of n values to the last, a half rounded up. */
  ghost predicate Nearest(i: int, q: real, n: nat) {
    q * (n - 1) as real - 0.5 < i as real <= q * (n - 1) as real + 0.5
  }

  lemma IndexNearest(q: real, n: nat)
    ensures Nearest(Index(q, n), q, n)
  {
  }

  /** A larger quantile has no smaller position. */
  lemma NearestMonotone(i: int, q: real, j: int, q': real, n: nat)
    requires Nearest(i, q, n) && Nearest(j, q', n) && q <= q' && n >= 1
    ensures i <= j
  {
    MulOrder(q, q', (n - 1) as real);
  }

  /** `v` is a value at position `i` of the sorted values: one of them, with enough others on each side. */
  ghost predicate IsOrderStatistic(s: seq<int>, i: int, v: int) {
    v in s && AtMost(s, v) >= i + 1 && AtLeast(s, v) >= |s| - i
  }

  /** `v` is the value at the position nearest to the quantile. */
  ghost predicate Answers(s: seq<int>, q: real, v: int) {
    exists i :: Nearest(i, q, |s|) && IsOrderStatistic(s, i, v)
  }

  /** A larger position has a value at least as large. */
  lemma OrderStatisticMonotone(s: seq<int>, i: int, j: int, v: int, w: int)
    requires IsOrderStatistic(s, i, v) && IsOrderStatistic(s, j, w) && i <= j
    ensures v <= w
  {
    if w < v {
      CountsDisjoint(s, w, v);
    }
  }

  /** There is only one such value, and it depends on the multiset of the values alone. */
  lemma OrderStatisticUnique(s: seq<int>, t: seq<int>, i: int, v: int, w: int)
    requires multiset(s) == multiset(t)
    requires IsOrderStatistic(s, i, v) && IsOrderStatistic(t, i, w)
    ensures v == w
  {
    CountPermuted(s, t, w);
    assert w in multiset(s) && |multiset(s)| == |s| && |multiset(t)| == |t|;
    OrderStatisticMonotone(s, i, i, v, w);
    OrderStatisticMonotone(s, i, i, w, v);
  }

  lemma {:induction false} SortedAtMost(s: seq<int>, i: nat)
    requires Sorted(s) && i < |s|
    ensures AtMost(s, s[i]) >= i + 1
  {
    if i > 0 {
      SortedAtMost(s[1..], i - 1);
    }
  }

  lemma {:induction false} SortedAtLeast(s: seq<int>, i: nat)
    requires Sorted(s) && i < |s|
    ensures AtLeast(s, s[i]) >= |s| - i
  {
    if i > 0 {
      SortedAtLeast(s[1..], i - 1);
    } else {
      AllAtLeast(s, s[0]);
    }
  }

  lemma {:induction false} AllAtLeast(s: seq<int>, v: int)
    requires forall i :: 0 <= i < |s| ==> s[i] >= v
    ensures AtLeast(s, v) == |s|
  {
    if s != [] {
      AllAtLeast(s[1..], v);
    }
  }

  /** The element at an index of the sorted values is the order statistic of any arrangement of them. */
  lemma SortedGivesStatistic(s: seq<int>, sorted: seq<int>, i: nat)
    requires Sorted(sorted) && multiset(sorted) == multiset(s) && i < |sorted|
    ensures IsOrderStatistic(s, i, sorted[i])
  {
    SortedAtMost(sorted, i);
    SortedAtLeast(sorted, i);
    CountPermuted(sorted, s, sorted[i]);
    assert sorted[i] in multiset(s) && |multiset(s)| == |s| && |multiset(sorted)| == |sorted|;
  }

  class LatencyTracker {
    var values: array<int>
    var valueCount: nat
    var valueCapacity: nat
    var isSorted: bool
    /** Everything inserted so far, in order. */
    ghost var history: seq<int>

    ghost predicate Valid()
      reads this, values
    {
      && values.Length == valueCapacity >= DEFAULT_VALUES_NUM
      && valueCount <= valueCapacity
      && multiset(values[..valueCount]) == multiset(history)
      && |history| == valueCount
      && (isSorted ==> Sorted(values[..valueCount]))
    }

    /** `tracker_init` */
    constructor ()
      ensures Valid() && history == [] && fresh(values)
    {
      values := new int[DEFAULT_VALUES_NUM];
      valueCount, valueCapacity, isSorted := 0, DEFAULT_VALUES_NUM, true;
      history := [];
    }

    /** `tracker_insert` */
    method Insert(value: int)
      requires Valid()
      modifies this, values
      ensures Valid() && history == old(history) + [value]
      ensures values == old(values) || fresh(values)
    {
      ghost var before := values[..valueCount];
      if valueCount == valueCapacity {
        valueCapacity := valueCapacity + valueCapacity / 2;
        Grow();
      }
      assert values[..valueCount] == before;
      values[valueCount] := value;
      valueCount := valueCount + 1;
      isSorted := false;
      history := history + [value];
      assert values[..valueCount] == before + [value];
    }

    /** `realloc` to the new capacity. */
    method Grow()
      requires values.Length < valueCapacity && valueCount <= values.Length
      modifies this`values
      ensures fresh(values) && values.Length == valueCapacity
      ensures values[..valueCount] == old(values[..valueCount])
    {
      var bigger := new int[valueCapacity];
      var smaller := values;
      var i := 0;
      while i < valueCount
        invariant i <= valueCount
        invariant forall x :: 0 <= x < i ==> bigger[x] == smaller[x]
      {
        bigger[i] := smaller[i];
        i := i + 1;
      }
      values := bigger;
    }

    /** `tracker_query`: the value at the rounded position, whatever was inserted and queried before. */
    method Query(q: real) returns (r: int)
      requires Valid() && 0.0 <= q <= 1.0
      modifies this, values
      ensures Valid() && history == old(history) && values == old(values)
      ensures history == [] ==> r == -1
      ensures history != [] ==> Answers(history, q, r)
    {
      if valueCount == 0 {
        return -1;
      }
      if !isSorted {
        SortSorts(values[..valueCount]);
        QSort(values, valueCount);
        isSorted := true;
      }
      IndexInRange(q, valueCount);
      IndexNearest(q, valueCount);
      var index := Index(q, valueCount);
      ghost var sorted := values[..valueCount];
      SortedGivesStatistic(history, sorted, index);
      r := values[index];
    }
  }

  /** Two trackers that were given the same values in any order and with any queries in between answer
      alike, and a higher quantile never has a lower answer. */
  lemma AnswersAgree(h: seq<int>, h': seq<int>, q: real, q': real, r: int, r': int)
    requires multiset(h) == multiset(h') && h != [] && q <= q'
    requires Answers(h, q, r) && Answers(h', q', r')
    ensures |h| == |h'| && r <= r' && (q == q' ==> r == r')
  {
    assert |multiset(h)| == |h| && |multiset(h')| == |h'|;
    var i :| Nearest(i, q, |h|) && IsOrderStatistic(h, i, r);
    var j :| Nearest(j, q', |h|) && IsOrderStatistic(h', j, r');
    NearestMonotone(i, q, j, q', |h|);
    CountPermuted(h, h', r');
    assert r' in multiset(h);
    OrderStatisticMonotone(h, i, j, r, r');
    if q == q' {
      NearestMonotone(j, q', i, q, |h|);
      OrderStatisticUnique(h, h', i, r, r');
    }
  }
}
