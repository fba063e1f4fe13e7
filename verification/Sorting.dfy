/** The contract of `qsort` on integers, and counting in sequences. */
module Sorting {

  ghost predicate Sorted(s: seq<int>) {
    forall i, j :: 0 <= i < j < |s| ==> s[i] <= s[j]
  }

  /** Inserts into a sorted sequence. */
  function Insert(s: seq<int>, v: int): (r: seq<int>)
    ensures |r| == |s| + 1
  {
    if s == [] || v <= s[0] then [v] + s else [s[0]] + Insert(s[1..], v)
  }

  function Sort(s: seq<int>): (r: seq<int>)
    ensures |r| == |s|
  {
    if s == [] then [] else Insert(Sort(s[1..]), s[0])
  }

  lemma {:induction false} InsertKeeps(s: seq<int>, v: int)
    ensures multiset(Insert(s, v)) == multiset(s) + multiset{v}
  {
    if s != [] && v > s[0] {
      InsertKeeps(s[1..], v);
      assert s == [s[0]] + s[1..];
    }
  }

  lemma {:induction false} InsertSorted(s: seq<int>, v: int)
    requires Sorted(s)
    ensures Sorted(Insert(s, v))
  {
    if s != [] && v > s[0] {
      InsertSorted(s[1..], v);
      InsertKeeps(s[1..], v);
      var r := Insert(s[1..], v);
      forall i | 0 <= i < |r|
        ensures s[0] <= r[i]
      {
        assert r[i] in multiset(r);
      }
    }
  }

  /** Sorting sorts, and keeps every value. */
  lemma {:induction false} SortSorts(s: seq<int>)
    ensures Sorted(Sort(s)) && multiset(Sort(s)) == multiset(s)
  {
    if s != [] {
      SortSorts(s[1..]);
      InsertSorted(Sort(s[1..]), s[0]);
      InsertKeeps(Sort(s[1..]), s[0]);
      assert s == [s[0]] + s[1..];
    }
  }

  /** There is only one sorted arrangement, so any correct sort computes `Sort`. */
  lemma {:induction false} SortedUnique(a: seq<int>, b: seq<int>)
    requires Sorted(a) && Sorted(b) && multiset(a) == multiset(b)
    ensures a == b
  {
    assert |multiset(a)| == |a| && |multiset(b)| == |b|;
    if a != [] {
      assert a[0] in multiset(b);
      assert b[0] in multiset(a);
      assert a[0] == b[0];
      assert a == [a[0]] + a[1..] && b == [b[0]] + b[1..];
      assert multiset(a[1..]) == multiset(a) - multiset{a[0]};
      assert multiset(b[1..]) == multiset(b) - multiset{b[0]};
      SortedUnique(a[1..], b[1..]);
    }
  }

  /** The effect of `qsort` on the first `n` elements. */
  method QSort(a: array<int>, n: nat)
    requires n <= a.Length
    modifies a
    ensures a[..n] == Sort(old(a[..n]))
    ensures a[n..] == old(a[n..])
  {
    var s := Sort(a[..n]);
    var i := 0;
    while i < n
      invariant i <= n
      invariant forall x :: 0 <= x < i ==> a[x] == s[x]
      invariant forall x :: n <= x < a.Length ==> a[x] == old(a[x])
    {
      a[i] := s[i];
      i := i + 1;
    }
  }

  // ----- counting

  function AtMost(s: seq<int>, v: int): nat {
    if s == [] then 0 else (if s[0] <= v then 1 else 0) + AtMost(s[1..], v)
  }

  function AtLeast(s: seq<int>, v: int): nat {
    if s == [] then 0 else (if s[0] >= v then 1 else 0) + AtLeast(s[1..], v)
  }

  /** No value is both at most `w` and at least `v` when `w` is below `v`. */
  lemma {:induction false} CountsDisjoint(s: seq<int>, w: int, v: int)
    requires w < v
    ensures AtMost(s, w) + AtLeast(s, v) <= |s|
  {
    if s != [] {
      CountsDisjoint(s[1..], w, v);
    }
  }

  lemma {:induction false} CountConcat(s: seq<int>, t: seq<int>, v: int)
    ensures AtMost(s + t, v) == AtMost(s, v) + AtMost(t, v)
    ensures AtLeast(s + t, v) == AtLeast(s, v) + AtLeast(t, v)
  {
    if s == [] {
      assert s + t == t;
    } else {
      assert (s + t)[1..] == s[1..] + t;
      CountConcat(s[1..], t, v);
    }
  }

  lemma TakeOut(t: seq<int>, k: nat, v: int)
    requires k < |t|
    ensures var r := t[..k] + t[k + 1..];
            && multiset(r) == multiset(t) - multiset{t[k]}
            && AtMost(t, v) == (if t[k] <= v then 1 else 0) + AtMost(r, v)
            && AtLeast(t, v) == (if t[k] >= v then 1 else 0) + AtLeast(r, v)
  {
    var a, b := t[..k], t[k + 1..];
    assert t == a + ([t[k]] + b);
    CountConcat(a, b, v);
    CountConcat(a, [t[k]] + b, v);
    assert ([t[k]] + b)[1..] == b;
  }

  /** Counting does not depend on the order. */
  lemma {:induction false} CountPermuted(s: seq<int>, t: seq<int>, v: int)
    requires multiset(s) == multiset(t)
    ensures AtMost(s, v) == AtMost(t, v) && AtLeast(s, v) == AtLeast(t, v)
    decreases |s|
  {
    assert |multiset(s)| == |s| && |multiset(t)| == |t|;
    if s != [] {
      assert s[0] in multiset(t);
      var k :| 0 <= k < |t| && t[k] == s[0];
      TakeOut(t, k, v);
      assert multiset(s[1..]) == multiset(s) - multiset{s[0]} by {
        assert s == [s[0]] + s[1..];
      }
      CountPermuted(s[1..], t[..k] + t[k + 1..], v);
    }
  }
}
