/** The approximate latency tracker: a sorted window of 2m + 1 candidates around each estimate
    (C/p99/tracker3.c:15-38, 91-142). */
module Tracker3 {
  import opened Sorting

  /** `percentile_track_t` */
  datatype Track = Track(
    quantile: real, estimate: int, candidates: seq<int>, count: nat, countLeft: nat, countRight: nat)

  function Width(m: nat): nat {
    2 * m + 1
  }

  function Zeroed(m: nat, quantile: real): Track {
    Track(quantile, 0, seq(Width(m), _ => 0), 0, 0, 0)
  }

  /** Conversion of a double to int: towards zero. */
  function Truncate(x: real): int {
    if x >= 0.0 then x.Floor else -((-x).Floor)
  }

  function TargetRank(quantile: real, total: nat): int {
    Truncate(quantile * total as real)
  }

  /** The window is full for the first time: sort it and start counting. */
  function Started(m: nat, t: Track): Track
    requires |t.candidates| == Width(m)
  {
    t.(countLeft := m, countRight := m, candidates := Sort(t.candidates), estimate := Sort(t.candidates)[m])
  }

  function Counted(t: Track, value: int): Track {
    if value < t.estimate then t.(count := t.count + 1, countLeft := t.countLeft + 1)
    else t.(count := t.count + 1, countRight := t.countRight + 1)
  }

  /** The window with one extreme dropped and the new value in its place. */
  function Shifted(c: seq<int>, value: int, dropLargest: bool): seq<int>
    requires c != []
  {
    if dropLargest then [value] + c[..|c| - 1] else c[1..] + [value]
  }

  /** The track when the window is full, before the window moves. */
  function Ready(m: nat, t: Track, value: int): Track
    requires |t.candidates| == Width(m)
  {
    Counted(if t.count == Width(m) then Started(m, t) else t, value)
  }

  /** What one sample does to one track. */
  function Observed(m: nat, t: Track, value: int, total: nat): Track
    requires |t.candidates| == Width(m)
  {
    if t.count <= 2 * m then t.(candidates := t.candidates[t.count := value], count := t.count + 1)
    else
      var t1 := Ready(m, t, value);
      var c := Sort(Shifted(t1.candidates, value, t1.countLeft > TargetRank(t1.quantile, total)));
      t1.(candidates := c, estimate := c[m])
  }

  /** What holds after `total` samples. */
  ghost predicate TrackOk(m: nat, t: Track, total: nat) {
    && |t.candidates| == Width(m)
    && t.count == total
    && (total > Width(m) ==>
          && Sorted(t.candidates)
          && t.estimate == t.candidates[m]
          && t.countLeft + t.countRight + 1 == total)
  }

  lemma SortOfSorted(s: seq<int>)
    requires Sorted(s)
    ensures Sort(s) == s
  {
    SortSorts(s);
    SortedUnique(Sort(s), s);
  }

  /** Every sample keeps the window sorted, the estimate in its middle and the counters in step. */
  lemma ObservedOk(m: nat, t: Track, value: int, total: nat)
    requires TrackOk(m, t, total)
    ensures TrackOk(m, Observed(m, t, value, total + 1), total + 1)
  {
    if t.count > 2 * m {
      var t1 := Ready(m, t, value);
      SortSorts(Shifted(t1.candidates, value, t1.countLeft > TargetRank(t1.quantile, total + 1)));
    }
  }

  /** A track after a sequence of samples, from zeroed memory. */
  function TrackAfter(m: nat, quantile: real, samples: seq<int>): (t: Track)
    ensures |t.candidates| == Width(m)
  {
    if samples == [] then Zeroed(m, quantile)
    else Observed(m, TrackAfter(m, quantile, samples[..|samples| - 1]), samples[|samples| - 1], |samples|)
  }

  /** In every run the window is sorted and counted from the sample after it first fills. */
  lemma {:induction false} TrackAfterOk(m: nat, quantile: real, samples: seq<int>)
    ensures TrackOk(m, TrackAfter(m, quantile, samples), |samples|)
    decreases |samples|
  {
    if samples != [] {
      var n := |samples| - 1;
      TrackAfterOk(m, quantile, samples[..n]);
      ObservedOk(m, TrackAfter(m, quantile, samples[..n]), samples[n], n);
    }
  }

  /** Until the window is full it holds the samples in order, and nothing is counted. */
  lemma {:induction false} Filling(m: nat, quantile: real, samples: seq<int>)
    requires |samples| <= Width(m)
    ensures var t := TrackAfter(m, quantile, samples);
            && t.candidates[..|samples|] == samples && t.quantile == quantile
            && t.estimate == 0 && t.countLeft == 0 && t.countRight == 0
    decreases |samples|
  {
    if samples != [] {
      var n := |samples| - 1;
      Filling(m, quantile, samples[..n]);
      TrackAfterOk(m, quantile, samples[..n]);
      assert samples == samples[..n] + [samples[n]];
    }
  }

  // ----- the closed form of the update

  function Clamp(v: int, lo: int, hi: int): int {
    if v < lo then lo else if v > hi then hi else v
  }

  /** Position `i` after inserting `v` into a sorted sequence. */
  lemma {:induction false} InsertAt(s: seq<int>, v: int, i: nat)
    requires Sorted(s) && 1 <= i < |s|
    ensures Insert(s, v)[i] == Clamp(v, s[i - 1], s[i])
  {
    if v > s[0] {
      if i > 1 {
        InsertAt(s[1..], v, i - 1);
      } else if s[1..] != [] {
        assert Insert(s[1..], v)[0] == if v <= s[1] then v else s[1];
      }
    }
  }

  lemma SortShifted(s: seq<int>, v: int, x: seq<int>)
    requires Sorted(s) && multiset(x) == multiset(s) + multiset{v}
    ensures Sort(x) == Insert(s, v)
  {
    SortSorts(x);
    InsertSorted(s, v);
    InsertKeeps(s, v);
    SortedUnique(Sort(x), Insert(s, v));
  }

  /** The sorted window a sample meets. */
  function Window(t: Track): seq<int> {
    Sort(t.candidates)
  }

  lemma DropLargest(c: seq<int>, value: int, m: nat)
    requires Sorted(c) && m >= 1 && |c| == Width(m)
    ensures var r := Sort(Shifted(c, value, true));
            multiset(r) == multiset(c[..2 * m]) + multiset{value} && r[m] == Clamp(value, c[m - 1], c[m])
  {
    SortShifted(c[..2 * m], value, Shifted(c, value, true));
    InsertKeeps(c[..2 * m], value);
    InsertAt(c[..2 * m], value, m);
  }

  lemma DropSmallest(c: seq<int>, value: int, m: nat)
    requires Sorted(c) && m >= 1 && |c| == Width(m)
    ensures var r := Sort(Shifted(c, value, false));
            multiset(r) == multiset(c[1..]) + multiset{value} && r[m] == Clamp(value, c[m], c[m + 1])
  {
    SortShifted(c[1..], value, Shifted(c, value, false));
    InsertKeeps(c[1..], value);
    InsertAt(c[1..], value, m);
  }

  lemma ReadyWindow(m: nat, t: Track, value: int, total: nat)
    requires TrackOk(m, t, total) && total >= Width(m)
    ensures Ready(m, t, value).candidates == Window(t) && Sorted(Window(t))
    ensures Ready(m, t, value).quantile == t.quantile
  {
    SortSorts(t.candidates);
    if t.count > Width(m) {
      SortOfSorted(t.candidates);
    }
  }

  /** The samples left of the estimate, with the new one counted: m at the start, and then one more for
      every sample below the middle of the window. */
  function LeftCount(m: nat, t: Track, value: int, total: nat): int
    requires |t.candidates| == Width(m)
  {
    (if total == Width(m) then m else t.countLeft) + (if value < Window(t)[m] then 1 else 0)
  }

  lemma CountersFromInput(m: nat, t: Track, value: int, total: nat)
    requires TrackOk(m, t, total) && total >= Width(m)
    ensures |Window(t)| == Width(m)
    ensures var t' := Observed(m, t, value, total + 1);
            && t'.countLeft == LeftCount(m, t, value, total)
            && t'.countRight == total - LeftCount(m, t, value, total)
            && t'.quantile == t.quantile
  {
    SortSorts(t.candidates);
    ReadyWindow(m, t, value, total);
  }

  /** The target is the whole part of the quantile of the number of samples. */
  lemma TargetRankIs(q: real, n: nat)
    requires q >= 0.0
    ensures TargetRank(q, n) as real <= q * n as real < TargetRank(q, n) as real + 1.0
  {
    assert q * n as real >= 0.0;
  }

  /** Once the window is full, a sample replaces the largest candidate when too many samples lie left of
      the estimate and the smallest otherwise, and the new estimate is the sample clamped between the
      old middle and its neighbour on that side. */
  lemma ObservedClosedForm(m: nat, t: Track, value: int, total: nat, target: int)
    requires m >= 1 && TrackOk(m, t, total) && total >= Width(m)
    requires target == TargetRank(t.quantile, total + 1)
    ensures |Window(t)| == Width(m)
    ensures var c := Window(t);
            var t' := Observed(m, t, value, total + 1);
            if (if total == Width(m) then m else t.countLeft) + (if value < c[m] then 1 else 0) > target then
              multiset(t'.candidates) == multiset(c[..2 * m]) + multiset{value}
              && t'.estimate == Clamp(value, c[m - 1], c[m])
            else
              multiset(t'.candidates) == multiset(c[1..]) + multiset{value}
              && t'.estimate == Clamp(value, c[m], c[m + 1])
  {
    var c := Window(t);
    CountersFromInput(m, t, value, total);
    ReadyWindow(m, t, value, total);
    if Ready(m, t, value).countLeft > target {
      DropLargest(c, value, m);
    } else {
      DropSmallest(c, value, m);
    }
  }

  // ----- the code

  /** The shift towards the end that makes room at the front. */
  method ShiftUp(c: seq<int>, value: int) returns (r: seq<int>)
    requires c != []
    ensures r == Shifted(c, value, true)
  {
    r := c;
    var j := |c| - 1;
    while j > 0
      invariant 0 <= j < |c| && |r| == |c|
      invariant forall x :: 0 <= x <= j ==> r[x] == c[x]
      invariant forall x :: j < x < |c| ==> r[x] == c[x - 1]
    {
      r := r[j := r[j - 1]];
      j := j - 1;
    }
    r := r[0 := value];
  }

  /** The shift towards the front that makes room at the end. */
  method ShiftDown(c: seq<int>, value: int) returns (r: seq<int>)
    requires c != []
    ensures r == Shifted(c, value, false)
  {
    r := c;
    var i := 0;
    while i < |c| - 1
      invariant 0 <= i <= |c| - 1 && |r| == |c|
      invariant forall x :: 0 <= x < i ==> r[x] == c[x + 1]
      invariant forall x :: i <= x < |c| ==> r[x] == c[x]
    {
      r := r[i := r[i + 1]];
      i := i + 1;
    }
    r := r[|c| - 1 := value];
  }

  class LatencyTracker {
    const m: nat
    var tracks: seq<Track>
    var totalCount: nat
    var globalMin: int
    var globalMax: int
    ghost const quantiles: seq<real>
    ghost const longMax: int
    ghost var history: seq<int>

    ghost predicate Valid()
      reads this
    {
      && totalCount == |history|
      && |tracks| == |quantiles|
      && (forall i :: 0 <= i < |tracks| ==> tracks[i] == TrackAfter(m, quantiles[i], history))
      && (forall i :: 0 <= i < |tracks| ==> TrackOk(m, tracks[i], totalCount))
      && (forall x :: x in history ==> globalMin <= x <= globalMax)
      && (globalMin == longMax || globalMin in history) && globalMin <= longMax
      && (globalMax == 0 || globalMax in history) && 0 <= globalMax
    }

    /** `tracker_init` on zeroed memory. The source starts the maximum at 0 and the minimum at LONG_MAX. */
    constructor (m: nat, quantiles: seq<real>, longMax: int)
      ensures Valid() && history == [] && this.m == m && this.quantiles == quantiles && this.longMax == longMax
    {
      this.m, this.quantiles, this.longMax := m, quantiles, longMax;
      tracks := seq(|quantiles|, i requires 0 <= i < |quantiles| => Zeroed(m, quantiles[i]));
      totalCount, globalMin, globalMax, history := 0, longMax, 0, [];
    }

    /** Sorts the window when it has just filled, and counts the sample. */
    method Count(t: Track, value: int) returns (r: Track)
      requires |t.candidates| == Width(m)
      ensures r == Ready(m, t, value)
    {
      r := t;
      if t.count == 2 * m + 1 {
        r := r.(countLeft := m, countRight := m, candidates := Sort(r.candidates));
        r := r.(estimate := r.candidates[m]);
      }
      r := r.(count := r.count + 1);
      if value < r.estimate {
        r := r.(countLeft := r.countLeft + 1);
      } else {
        r := r.(countRight := r.countRight + 1);
      }
    }

    /** The body of the loop of `tracker_insert` for one track. */
    method Observe(t: Track, value: int, total: nat) returns (r: Track)
      requires |t.candidates| == Width(m)
      ensures r == Observed(m, t, value, total)
    {
      if t.count <= 2 * m {
        return t.(candidates := t.candidates[t.count := value], count := t.count + 1);
      }
      r := Count(t, value);
      var c;
      if r.countLeft > TargetRank(r.quantile, total) {
        c := ShiftUp(r.candidates, value);
      } else {
        c := ShiftDown(r.candidates, value);
      }
      c := Sort(c);
      r := r.(candidates := c, estimate := c[m]);
    }

    /** The loop of `tracker_insert` over the tracks. */
    method ObserveAll(value: int)
      requires totalCount > 0 && forall i :: 0 <= i < |tracks| ==> TrackOk(m, tracks[i], totalCount - 1)
      modifies this`tracks
      ensures |tracks| == |old(tracks)|
      ensures forall i :: 0 <= i < |tracks| ==> TrackOk(m, tracks[i], totalCount)
      ensures forall i :: 0 <= i < |tracks| ==>
                && |old(tracks)[i].candidates| == Width(m)
                && tracks[i] == Observed(m, old(tracks)[i], value, totalCount)
    {
      ghost var before := tracks;
      var i := 0;
      while i < |tracks|
        invariant i <= |tracks| == |before|
        invariant forall x :: 0 <= x < i ==> TrackOk(m, tracks[x], totalCount)
        invariant forall x :: 0 <= x < i ==> tracks[x] == Observed(m, before[x], value, totalCount)
        invariant forall x :: i <= x < |tracks| ==> tracks[x] == before[x]
      {
        ObservedOk(m, tracks[i], value, totalCount - 1);
        var t := Observe(tracks[i], value, totalCount);
        tracks := tracks[i := t];
        i := i + 1;
      }
    }

    /** `tracker_insert` */
    method Insert(value: int)
      requires Valid()
      modifies this
      ensures Valid() && history == old(history) + [value]
      ensures totalCount == old(totalCount) + 1 && |tracks| == |old(tracks)|
      ensures forall i :: 0 <= i < |tracks| ==>
                && TrackOk(m, old(tracks)[i], old(totalCount))
                && tracks[i] == Observed(m, old(tracks)[i], value, totalCount)
    {
      totalCount := totalCount + 1;
      history := history + [value];
      if value < globalMin {
        globalMin := value;
      }
      if value > globalMax {
        globalMax := value;
      }
      ObserveAll(value);
      assert history[..|history| - 1] == old(history);
    }
  }
}
