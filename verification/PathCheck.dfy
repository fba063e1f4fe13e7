/** The server's test against directory traversal: substring and suffix tests that stand in for a rule
    about path segments (nghttp2_test/server/main.c:347-355, 526-533). */
module PathCheck {

  predicate OccursAt(s: string, i: nat, sub: string) {
    i + |sub| <= |s| && s[i..i + |sub|] == sub
  }

  /** `strstr(s, sub) != NULL` */
  ghost predicate Contains(s: string, sub: string) {
    exists i: nat :: OccursAt(s, i, sub)
  }

  /** `ends_with` */
  predicate EndsWith(s: string, sub: string) {
    |sub| <= |s| && s[|s| - |sub|..] == sub
  }

  /** `check_path` */
  ghost predicate CheckPath(path: string) {
    && path != "" && path[0] == '/'
    && '\\' !in path
    && !Contains(path, "/../") && !Contains(path, "/./")
    && !EndsWith(path, "/..") && !EndsWith(path, "/.")
  }

  // ----- the rule

  /** The position of the first `/`, or the length. */
  function Slash(s: string): (k: nat)
    ensures k <= |s|
    ensures forall i :: 0 <= i < k ==> s[i] != '/'
    ensures k < |s| ==> s[k] == '/'
  {
    if s == "" || s[0] == '/' then 0 else 1 + Slash(s[1..])
  }

  /** The segments between the slashes. */
  function Split(s: string): seq<string>
    decreases |s|
  {
    var k := Slash(s);
    if k == |s| then [s] else [s[..k]] + Split(s[k + 1..])
  }

  /** The segments with a slash between each two. */
  function Join(segs: seq<string>): string
    requires segs != []
  {
    if |segs| == 1 then segs[0] else segs[0] + "/" + Join(segs[1..])
  }

  /** The split cuts at every slash and loses nothing: its segments hold no slash and join to the path. */
  lemma {:induction false} SplitJoins(s: string)
    ensures Split(s) != [] && Join(Split(s)) == s && forall i :: 0 <= i < |Split(s)| ==> '/' !in Split(s)[i]
    decreases |s|
  {
    var k := Slash(s);
    if k < |s| {
      SplitJoins(s[k + 1..]);
      assert Split(s)[1..] == Split(s[k + 1..]);
      assert s == s[..k] + "/" + s[k + 1..];
    }
  }

  predicate DotSegment(seg: string) {
    seg == "." || seg == ".."
  }

  ghost predicate SafePath(path: string) {
    && path != "" && path[0] == '/'
    && '\\' !in path
    && forall seg :: seg in Split(path) ==> !DotSegment(seg)
  }

  // ----- where segments are

  /** The characters from `i` on are the whole segment `seg`. */
  predicate SegmentAt(s: string, i: nat, seg: string) {
    && '/' !in seg
    && OccursAt(s, i, seg)
    && (i == 0 || s[i - 1] == '/')
    && (i + |seg| == |s| || s[i + |seg|] == '/')
  }

  lemma OccursFirst(s: string, i: nat, sub: string)
    requires OccursAt(s, i, sub) && sub != ""
    ensures s[i] == sub[0]
  {
    assert s[i..i + |sub|][0] == s[i];
  }

  lemma OccursShift(s: string, d: nat, i: nat, sub: string)
    requires d <= |s|
    ensures OccursAt(s[d..], i, sub) <==> OccursAt(s, i + d, sub)
  {
    if i + d + |sub| <= |s| {
      assert s[d..][i..i + |sub|] == s[i + d..i + d + |sub|];
    }
  }

  lemma SegmentShift(s: string, d: nat, i: nat, seg: string)
    requires 0 < d <= |s| && s[d - 1] == '/'
    ensures SegmentAt(s[d..], i, seg) <==> SegmentAt(s, i + d, seg)
  {
    OccursShift(s, d, i, seg);
  }

  lemma SegmentBack(s: string, d: nat, i: nat, x: nat, seg: string)
    requires 0 < d <= |s| && s[d - 1] == '/' && SegmentAt(s, i, seg) && i == x + d
    ensures SegmentAt(s[d..], x, seg)
  {
    SegmentShift(s, d, x, seg);
  }

  lemma SplitTail(s: string, k: nat, seg: string)
    requires k == Slash(s)
    ensures seg in Split(s) <==> seg == s[..k] || (k < |s| && seg in Split(s[k + 1..]))
  {
    assert s[..|s|] == s;
  }

  lemma FirstSegment(s: string, k: nat)
    requires k == Slash(s)
    ensures SegmentAt(s, 0, s[..k])
  {
  }

  /** Every segment of the split is somewhere in the path. */
  lemma {:induction false} SegmentFound(s: string, seg: string) returns (i: nat)
    requires seg in Split(s)
    ensures SegmentAt(s, i, seg)
    decreases |s|, 1
  {
    var k := Slash(s);
    SplitTail(s, k, seg);
    if seg == s[..k] {
      FirstSegment(s, k);
      return 0;
    }
    i := SegmentBehind(s, k + 1, seg);
  }

  /** A segment of the rest of the path is a segment of the path. */
  lemma {:induction false} SegmentBehind(s: string, d: nat, seg: string) returns (i: nat)
    requires 0 < d <= |s| && s[d - 1] == '/' && seg in Split(s[d..])
    ensures SegmentAt(s, i, seg)
    decreases |s|, 0
  {
    var j := SegmentFound(s[d..], seg);
    SegmentShift(s, d, j, seg);
    i := j + d;
  }

  /** A first segment ends at the first slash, any other one lies behind it. */
  lemma SegmentPlace(s: string, i: nat, seg: string, k: nat)
    requires SegmentAt(s, i, seg) && k == Slash(s)
    ensures if i == 0 then seg == s[..k] else k < i
  {
    assert forall x :: 0 <= x < |seg| ==> seg[x] == s[i..i + |seg|][x] && seg[x] in seg;
  }

  /** Every segment in the path is one of the split. */
  lemma {:induction false} SegmentListed(s: string, i: nat, seg: string)
    requires SegmentAt(s, i, seg)
    ensures seg in Split(s)
    decreases |s|, 1
  {
    var k := Slash(s);
    SegmentPlace(s, i, seg, k);
    SplitTail(s, k, seg);
    if i > 0 {
      ListedBehind(s, k + 1, i, seg);
    }
  }

  /** A segment behind a slash is a segment of the rest. */
  lemma {:induction false} ListedBehind(s: string, d: nat, i: nat, seg: string)
    requires 0 < d <= i && d <= |s| && s[d - 1] == '/' && SegmentAt(s, i, seg)
    ensures seg in Split(s[d..])
    decreases |s|, 0
  {
    SegmentBack(s, d, i, i - d, seg);
    SegmentListed(s[d..], i - d, seg);
  }

  // ----- the tests find exactly the dot segments

  /** A segment `seg` behind a slash shows up as `/seg/` or at the end as `/seg`. */
  lemma SegmentIsTested(s: string, seg: string, i: nat)
    requires SegmentAt(s, i, seg) && i > 0
    ensures Contains(s, "/" + seg + "/") || EndsWith(s, "/" + seg)
  {
    if i + |seg| == |s| {
      assert s[i - 1..] == ['/'] + s[i..];
    } else {
      assert s[i - 1..i + |seg| + 1] == ['/'] + s[i..i + |seg|] + ['/'];
      assert OccursAt(s, i - 1, "/" + seg + "/");
    }
  }

  lemma SliceOfSlice(s: string, i: nat, n: nat, a: nat, b: nat)
    requires i + n <= |s| && a <= b <= n
    ensures s[i..i + n][a..b] == s[i + a..i + b]
  {
    var w := s[i..i + n];
    assert forall x :: 0 <= x < n ==> w[x] == s[i + x];
  }

  lemma Inner(s: string, i: nat, seg: string, b: string)
    requires OccursAt(s, i, "/" + seg + b)
    ensures s[i] == '/' && OccursAt(s, i + 1, seg)
    ensures b != "" ==> s[i + 1 + |seg|] == b[0]
  {
    var sub := "/" + seg + b;
    var w := s[i..i + |sub|];
    assert w[0] == s[i] && sub[0] == '/';
    SliceOfSlice(s, i, |sub|, 1, 1 + |seg|);
    assert sub[1..1 + |seg|] == seg;
    assert b != "" ==> w[1 + |seg|] == s[i + 1 + |seg|] && sub[1 + |seg|] == b[0];
  }

  lemma TestIsSegment(s: string, seg: string)
    requires '/' !in seg && (Contains(s, "/" + seg + "/") || EndsWith(s, "/" + seg))
    ensures seg in Split(s)
  {
    if Contains(s, "/" + seg + "/") {
      var i: nat :| OccursAt(s, i, "/" + seg + "/");
      Inner(s, i, seg, "/");
      SegmentListed(s, i + 1, seg);
    } else {
      var i := |s| - |"/" + seg|;
      assert "/" + seg + "" == "/" + seg;
      assert s[i..] == s[i..i + |"/" + seg|];
      Inner(s, i, seg, "");
      SegmentListed(s, i + 1, seg);
    }
  }

  lemma TestsFindSegment(s: string, seg: string)
    requires s != "" && s[0] == '/' && '/' !in seg && seg != ""
    ensures seg in Split(s) <==> Contains(s, "/" + seg + "/") || EndsWith(s, "/" + seg)
  {
    if seg in Split(s) {
      var i := SegmentFound(s, seg);
      OccursFirst(s, i, seg);
      SegmentIsTested(s, seg, i);
    }
    if Contains(s, "/" + seg + "/") || EndsWith(s, "/" + seg) {
      TestIsSegment(s, seg);
    }
  }

  /** The substring and suffix tests agree with the rule about segments, for paths of any length. */
  lemma CheckPathExact(path: string)
    ensures CheckPath(path) <==> SafePath(path)
  {
    if path != "" && path[0] == '/' {
      TestsFindSegment(path, ".");
      TestsFindSegment(path, "..");
      assert "/" + "." + "/" == "/./" && "/" + ".." + "/" == "/../" && "/" + "." == "/." && "/" + ".." == "/..";
    }
  }
}
