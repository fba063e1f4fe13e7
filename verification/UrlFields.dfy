/** What the reported runs mean: each one is the text of its component, they lie in order without
    overlap, and whatever is between them is a delimiter. */
module UrlFields {
  import opened Options
  import opened UrlChars
  import opened UrlGrammar

  function Slice(b: string, r: Run): string
    requires r.off + r.len <= |b|
  {
    b[r.off..r.off + r.len]
  }

  lemma SliceMiddle(a: string, b: string, c: string)
    ensures (a + b + c)[|a|..|a| + |b|] == b
  {
  }

  function SchemeText(t: Target): string {
    if t.Absolute? then t.scheme else ""
  }

  function ComponentText(t: Target, f: UrlField): string {
    match f
    case SchemaField => SchemeText(t)
    case UserinfoField => if t.Relative? then "" else GetOr(t.authority.userinfo)
    case HostField => if t.Relative? then "" else HostName(t.authority.host)
    case PortField => if t.Relative? then "" else GetOr(t.authority.port)
    case PathField => t.tail.path
    case QueryField => GetOr(t.tail.query)
    case FragmentField => FragmentText(t.tail.fragment)
  }

  /** What is printed before the text of field `f`. */
  function Before(t: Target, f: UrlField): string {
    var head := Head(t);
    var server := ServerText(t);
    match f
    case SchemaField => ""
    case UserinfoField => head
    case HostField =>
      if t.Relative? then ""
      else head + PrintUserinfo(t.authority.userinfo) + (if t.authority.host.Bracketed? then "[" else "")
    case PortField =>
      if t.Relative? then ""
      else head + PrintUserinfo(t.authority.userinfo) + PrintHost(t.authority.host) + ":"
    case PathField => head + server
    case QueryField => head + server + t.tail.path + "?"
    case FragmentField =>
      head + server + t.tail.path + Prefixed("?", t.tail.query) + Hashes(HashCount(t.tail.fragment))
  }

  lemma SchemeRunPrinted(t: Target)
    ensures LayoutOf(t).schema == Field(|Before(t, SchemaField)|, ComponentText(t, SchemaField))
  {
  }

  lemma UserinfoRunPrinted(t: Target)
    ensures LayoutOf(t).userinfo == Field(|Before(t, UserinfoField)|, ComponentText(t, UserinfoField))
  {
  }

  lemma HostRunPrinted(t: Target)
    ensures LayoutOf(t).host == Field(|Before(t, HostField)|, ComponentText(t, HostField))
  {
  }

  lemma PortRunPrinted(t: Target)
    ensures LayoutOf(t).port == Field(|Before(t, PortField)|, ComponentText(t, PortField))
  {
  }

  lemma PathRunPrinted(t: Target)
    ensures LayoutOf(t).path == Field(|Before(t, PathField)|, ComponentText(t, PathField))
  {
  }

  lemma QueryRunPrinted(t: Target)
    ensures LayoutOf(t).query == Field(|Before(t, QueryField)|, ComponentText(t, QueryField))
  {
  }

  lemma FragmentRunPrinted(t: Target)
    ensures LayoutOf(t).fragment == Field(|Before(t, FragmentField)|, ComponentText(t, FragmentField))
  {
  }

  /** A recorded run starts where the printer has printed `Before` and is as long as its component. */
  lemma RunIsPrinted(t: Target, f: UrlField)
    ensures LayoutOf(t).Get(f) == Field(|Before(t, f)|, ComponentText(t, f))
  {
    match f
    case SchemaField => SchemeRunPrinted(t);
    case UserinfoField => UserinfoRunPrinted(t);
    case HostField => HostRunPrinted(t);
    case PortField => PortRunPrinted(t);
    case PathField => PathRunPrinted(t);
    case QueryField => QueryRunPrinted(t);
    case FragmentField => FragmentRunPrinted(t);
  }

  function Head(t: Target): string {
    match t
    case Relative(_) => ""
    case Absolute(scheme, _, _) => scheme + "://"
    case Connect(_, _) => ""
  }

  function ServerText(t: Target): string {
    if t.Relative? then "" else PrintAuthority(t.authority)
  }

  lemma EmptyFront(a: string, b: string)
    ensures "" + a + b == a + b && "" + "" + b == b
  {
  }

  lemma PrintSplit(t: Target)
    ensures Print(t) == Head(t) + ServerText(t) + PrintTail(t.tail)
  {
    EmptyFront(ServerText(t), PrintTail(t.tail));
  }

  lemma UserinfoPrinted(head: string, a: Authority)
    requires a.userinfo.Some?
    ensures head + a.userinfo.value <= head + PrintAuthority(a)
  {
  }

  lemma HostPrinted(head: string, a: Authority)
    ensures head + PrintUserinfo(a.userinfo) + (if a.host.Bracketed? then "[" else "") + HostName(a.host)
            <= head + PrintAuthority(a)
  {
    var h := PrintHost(a.host);
    assert (if a.host.Bracketed? then "[" else "") + HostName(a.host) <= h;
  }

  lemma PortPrinted(head: string, a: Authority)
    requires a.port.Some?
    ensures head + PrintUserinfo(a.userinfo) + PrintHost(a.host) + ":" + a.port.value == head + PrintAuthority(a)
  {
  }

  lemma AuthorityFieldPrinted(t: Target, f: UrlField)
    requires !t.Relative? && f in {UserinfoField, HostField, PortField} && ComponentText(t, f) != ""
    ensures Before(t, f) + ComponentText(t, f) <= Head(t) + ServerText(t)
  {
    match f
    case UserinfoField => UserinfoPrinted(Head(t), t.authority);
    case HostField => HostPrinted(Head(t), t.authority);
    case PortField => PortPrinted(Head(t), t.authority);
  }

  lemma PathPrinted(front: string, t: Tail)
    ensures front + t.path <= front + PrintTail(t)
  {
  }

  lemma QueryPrinted(front: string, t: Tail)
    requires t.query.Some?
    ensures front + t.path + "?" + t.query.value <= front + PrintTail(t)
  {
  }

  lemma FragmentPrinted(front: string, t: Tail)
    requires t.fragment.Some?
    ensures front + t.path + Prefixed("?", t.query) + Hashes(HashCount(t.fragment)) + t.fragment.value.text
            == front + PrintTail(t)
  {
  }

  lemma TailFieldPrinted(t: Target, f: UrlField)
    requires f in {PathField, QueryField, FragmentField} && ComponentText(t, f) != ""
    ensures Before(t, f) + ComponentText(t, f) <= Head(t) + ServerText(t) + PrintTail(t.tail)
  {
    match f
    case PathField => PathPrinted(Head(t) + ServerText(t), t.tail);
    case QueryField => QueryPrinted(Head(t) + ServerText(t), t.tail);
    case FragmentField => FragmentPrinted(Head(t) + ServerText(t), t.tail);
  }

  /** A field and what is printed before it are a prefix of the text. */
  lemma FieldPrinted(t: Target, f: UrlField)
    requires ComponentText(t, f) != ""
    ensures Before(t, f) + ComponentText(t, f) <= Print(t)
  {
    PrintSplit(t);
    if f in {UserinfoField, HostField, PortField} {
      AuthorityFieldPrinted(t, f);
    } else if f != SchemaField {
      TailFieldPrinted(t, f);
    }
  }

  lemma PrefixSlice(p: string, x: string, y: string)
    requires x + y <= p
    ensures |x| + |y| <= |p| && p[|x|..|x| + |y|] == y
  {
    var z := p[|x + y|..];
    assert p == x + y + z;
    SliceMiddle(x, y, z);
  }

  /** Each recorded run is nonempty, inside the buffer, and holds exactly its component. */
  lemma FieldText(t: Target, f: UrlField)
    requires LayoutOf(t).Get(f).Some?
    ensures var r := LayoutOf(t).Get(f).value;
            0 < r.len && r.off + r.len <= |Print(t)| && Slice(Print(t), r) == ComponentText(t, f)
  {
    RunIsPrinted(t, f);
    FieldPrinted(t, f);
    PrefixSlice(Print(t), Before(t, f), ComponentText(t, f));
  }

  function Rank(f: UrlField): nat {
    match f
    case SchemaField => 0
    case UserinfoField => 1
    case HostField => 2
    case PortField => 3
    case PathField => 4
    case QueryField => 5
    case FragmentField => 6
  }

  lemma BeforeLengths(t: Target)
    ensures !t.Relative? ==> |Before(t, SchemaField)| + |SchemeText(t)| <= |Before(t, UserinfoField)|
    ensures !t.Relative? ==> |Before(t, UserinfoField)| + |ComponentText(t, UserinfoField)| <= |Before(t, HostField)|
    ensures !t.Relative? ==> |Before(t, HostField)| + |ComponentText(t, HostField)| < |Before(t, PortField)|
    ensures !t.Relative? ==>
              |Before(t, HostField)| + |ComponentText(t, HostField)| <= |Before(t, PathField)|
    ensures !t.Relative? && t.authority.port.Some? ==>
              |Before(t, PortField)| + |ComponentText(t, PortField)| == |Before(t, PathField)|
    ensures |Before(t, PathField)| + |t.tail.path| < |Before(t, QueryField)|
    ensures t.tail.query.Some? ==>
              |Before(t, QueryField)| + |ComponentText(t, QueryField)| <= |Before(t, FragmentField)|
    ensures |Before(t, PathField)| + |t.tail.path| <= |Before(t, FragmentField)|
  {
  }

  /** The fields appear in the order scheme, userinfo, host, port, path, query, fragment and do not overlap. */
  lemma FieldsOrdered(t: Target, f: UrlField, g: UrlField)
    requires LayoutOf(t).Get(f).Some? && LayoutOf(t).Get(g).Some? && Rank(f) < Rank(g)
    ensures LayoutOf(t).Get(f).value.off + LayoutOf(t).Get(f).value.len <= LayoutOf(t).Get(g).value.off
  {
    RunIsPrinted(t, f);
    RunIsPrinted(t, g);
    BeforeLengths(t);
  }

  predicate Delimiter(c: char) {
    c == ':' || c == '/' || c == '@' || c == '[' || c == ']' || c == '?' || c == '#'
  }

  predicate Covers(r: Option<Run>, k: nat) {
    r.Some? && r.value.off <= k < r.value.off + r.value.len
  }

  predicate Covered(l: Layout, k: nat) {
    Covers(l.schema, k) || Covers(l.userinfo, k) || Covers(l.host, k) || Covers(l.port, k)
    || Covers(l.path, k) || Covers(l.query, k) || Covers(l.fragment, k)
  }

  lemma AuthorityGaps(l: Layout, scheme: string, base: nat, a: Authority, tail: nat, t: Tail, at: nat)
    requires l == LayoutAt(scheme, base, Some(a), tail, t)
    requires base <= at < base + |PrintAuthority(a)|
    ensures Covered(l, at) || Delimiter(PrintAuthority(a)[at - base])
  {
    var k := at - base;
    var u := PrintUserinfo(a.userinfo);
    var h := PrintHost(a.host);
    IndexOf3(u, h, Prefixed(":", a.port), k);
    if |u| <= k < |u| + |h| {
      assert Covers(l.host, at) || Delimiter(h[k - |u|]);
    }
  }

  lemma TailGaps(l: Layout, scheme: string, base: nat, a: Option<Authority>, tail: nat, t: Tail, at: nat)
    requires l == LayoutAt(scheme, base, a, tail, t)
    requires tail <= at < tail + |PrintTail(t)|
    ensures Covered(l, at) || Delimiter(PrintTail(t)[at - tail])
  {
    var k := at - tail;
    var q := Prefixed("?", t.query);
    IndexOf3(t.path, q, PrintFragment(t.fragment), k);
    if k < |t.path| {
      assert Covers(l.path, at);
    } else if k < |t.path| + |q| {
      assert Covers(l.query, at) || k == |t.path|;
    } else {
      assert Covers(l.fragment, at) || k - |t.path| - |q| < HashCount(t.fragment);
    }
  }

  lemma LayoutParts(t: Target)
    ensures LayoutOf(t) == LayoutAt(SchemeText(t), |Head(t)|, if t.Relative? then None else Some(t.authority),
                                    |Head(t)| + |ServerText(t)|, t.tail)
  {
  }

  lemma IndexOf3(a: string, b: string, c: string, k: nat)
    requires k < |a + b + c|
    ensures (a + b + c)[k] == if k < |a| then a[k] else if k < |a| + |b| then b[k - |a|] else c[k - (|a| + |b|)]
  {
  }

  lemma HeadGaps(t: Target, k: nat)
    requires k < |Head(t)|
    ensures Covered(LayoutOf(t), k) || Delimiter(Head(t)[k])
  {
    assert k < |SchemeText(t)| ==> Covers(LayoutOf(t).schema, k);
  }

  lemma ServerGaps(t: Target, k: nat)
    requires |Head(t)| <= k < |Head(t)| + |ServerText(t)|
    ensures Covered(LayoutOf(t), k) || Delimiter(ServerText(t)[k - |Head(t)|])
  {
    LayoutParts(t);
    AuthorityGaps(LayoutOf(t), SchemeText(t), |Head(t)|, t.authority, |Head(t)| + |ServerText(t)|, t.tail, k);
  }

  lemma RestGaps(t: Target, front: nat, k: nat)
    requires front == |Head(t)| + |ServerText(t)| && front <= k < front + |PrintTail(t.tail)|
    ensures Covered(LayoutOf(t), k) || Delimiter(PrintTail(t.tail)[k - front])
  {
    LayoutParts(t);
    TailGaps(LayoutOf(t), SchemeText(t), |Head(t)|, if t.Relative? then None else Some(t.authority), front, t.tail, k);
  }

  /** A byte of the text is a byte of its head, authority or tail. */
  lemma PrintAt(t: Target, k: nat, front: nat)
    requires k < |Print(t)| && front == |Head(t)| + |ServerText(t)|
    ensures |Print(t)| == front + |PrintTail(t.tail)|
    ensures Print(t)[k] == if k < |Head(t)| then Head(t)[k]
                           else if k < front then ServerText(t)[k - |Head(t)|] else PrintTail(t.tail)[k - front]
  {
    PrintSplit(t);
    IndexOf3(Head(t), ServerText(t), PrintTail(t.tail), k);
  }

  /** Every byte outside the fields is one of the seven delimiters. */
  lemma OutsideIsDelimiter(t: Target, k: nat)
    requires k < |Print(t)| && !Covered(LayoutOf(t), k)
    ensures Delimiter(Print(t)[k])
  {
    var front := |Head(t)| + |ServerText(t)|;
    PrintAt(t, k, front);
    if k < |Head(t)| {
      HeadGaps(t, k);
    } else if k < front {
      ServerGaps(t, k);
    } else {
      RestGaps(t, front, k);
    }
  }
}
