/** What the two loops record: the layout after each pass, and how one character changes it. */
module UrlRuns {
  import opened Options
  import opened UrlChars
  import opened UrlGrammar
  import opened UrlParse
  import Scan = UrlScan
  import Host = UrlHost

  // ----- the first pass

  function PathOffset(p: Scan.Pieces): nat {
    |Scan.HeadText(p)|
  }

  function QueryOffset(p: Scan.Pieces): nat {
    PathOffset(p) + |p.path| + 1
  }

  function FragmentOffset(p: Scan.Pieces): nat {
    PathOffset(p) + |p.path| + |Scan.QueryText(p.marked, p.query)| + p.hashes
  }

  /** The runs recorded by the first pass; HOST is still the whole authority. */
  function FirstLayout(p: Scan.Pieces): Layout {
    Layout(
      Field(0, p.scheme), None, Field(|p.scheme| + p.slashes, p.server), None,
      Field(PathOffset(p), p.path), Field(QueryOffset(p), p.query), Field(FragmentOffset(p), p.fragment))
  }

  /** The field of the last character that was not a delimiter (`lastUf`). */
  function LastField(p: Scan.Pieces): Option<UrlField> {
    if p.fragment != "" then Some(FragmentField)
    else if p.query != "" then Some(QueryField)
    else if p.path != "" then Some(PathField)
    else if p.server != "" then Some(HostField)
    else if p.scheme != "" then Some(SchemaField)
    else None
  }

  /** The field a state belongs to; none for the delimiter states. */
  function FieldOf(s: Scan.UrlState): Option<UrlField> {
    match s
    case Schema => Some(SchemaField)
    case Server => Some(HostField)
    case ServerWithAt => Some(HostField)
    case Path => Some(PathField)
    case QueryString => Some(QueryField)
    case FragmentText => Some(FragmentField)
    case _ => None
  }

  lemma DelimiterKeepsRuns(p: Scan.Pieces, s: Scan.UrlState, ch: char, connect: bool)
    requires Scan.Wf(p, connect) && Scan.Appends(p, s, ch) && FieldOf(s).None?
    ensures FirstLayout(Scan.Extend(p, s, ch)) == FirstLayout(p)
    ensures LastField(Scan.Extend(p, s, ch)) == LastField(p)
  {
  }

  lemma PieceExtendsRun(p: Scan.Pieces, s: Scan.UrlState, ch: char, connect: bool)
    requires Scan.Wf(p, connect) && Scan.Appends(p, s, ch) && FieldOf(s).Some?
    ensures var f := FieldOf(s).value;
            var l := FirstLayout(p);
            && LastField(Scan.Extend(p, s, ch)) == Some(f)
            && (LastField(p) == Some(f) ==> l.Get(f).Some?)
            && FirstLayout(Scan.Extend(p, s, ch)) ==
               l.Set(f, if LastField(p) == Some(f) then Run(l.Get(f).value.off, l.Get(f).value.len + 1)
                        else Run(|Scan.Text(p)|, 1))
  {
  }

  // ----- the second pass

  /** The runs recorded while the second pass goes over an authority at offset `base`. */
  function PartsLayout(l: Layout, base: nat, h: Host.Parts): Layout {
    l.(userinfo := Field(base, h.user),
       host := Some(Run(if h.name == "" then base else base + |Host.UserText(h)|, |Host.HostText(h)|)),
       port := Field(base + |Host.UserText(h)| + |Host.HostText(h)| + |Host.If(h.closed, "]")| + 1, h.port))
  }

  /** One character of the second pass, as its `switch` on the new state records it. */
  function RecordHostChar(l: Layout, s: Host.HostState, next: Host.HostState, at: nat): Layout {
    match next
    case HostName => if s != next then l.(host := Restart(l.host, at)) else l.(host := Longer(l.host))
    case HostV6 => if s != next then l.(host := Restart(l.host, at)) else l.(host := Longer(l.host))
    case HostV6ZoneStart => l.(host := Longer(l.host))
    case HostV6Zone => l.(host := Longer(l.host))
    case Port => if s != next then l.(port := Some(Run(at, 1))) else l.(port := Longer(l.port))
    case Userinfo => if s != next then l.(userinfo := Some(Run(at, 1))) else l.(userinfo := Longer(l.userinfo))
    case _ => l
  }

  function Longer(r: Option<Run>): Option<Run> {
    if r.Some? then Some(Run(r.value.off, r.value.len + 1)) else None
  }

  function Restart(r: Option<Run>, at: nat): Option<Run> {
    if r.Some? then Some(Run(at, r.value.len + 1)) else None
  }

  lemma HostCharRecorded(l: Layout, base: nat, h: Host.Parts, ch: char, foundAt: bool)
    requires Host.PartsWf(h, foundAt)
    requires Host.ParseHostChar(Host.HostStateOf(h, foundAt), ch) != Host.HostDead
    ensures var s := Host.HostStateOf(h, foundAt);
            var next := Host.ParseHostChar(s, ch);
            PartsLayout(l, base, Host.ExtendHost(h, next, ch))
            == RecordHostChar(PartsLayout(l, base, h), s, next, base + |Host.AuthorityText(h)|)
  {
    Host.ExtendHostAppends(h, ch, foundAt);
  }

  /** The runs of the parts, as the printer of authorities places them. */
  lemma AuthorityRuns(l: Layout, base: nat, a: Authority)
    requires ValidAuthority(a)
    ensures var r := PartsLayout(l, base, PartsOf(a));
            var host := base + |PrintUserinfo(a.userinfo)|;
            && r.userinfo == Field(base, GetOr(a.userinfo))
            && r.host == Field(host + (if a.host.Bracketed? then 1 else 0), HostName(a.host))
            && r.port == Field(host + |PrintHost(a.host)| + 1, GetOr(a.port))
  {
    PartTexts(a);
    assert HostName(a.host) != "";
  }

  /** The runs of the pieces, as the printer of tails places them. */
  lemma TailRuns(scheme: string, slashes: nat, server: string, t: Tail)
    requires slashes <= 3
    ensures var l := FirstLayout(PiecesOf(scheme, slashes, server, t));
            var base := |scheme| + slashes + |server|;
            && l.path == Field(base, t.path)
            && l.query == Field(base + |t.path| + 1, GetOr(t.query))
            && l.fragment == Field(base + |t.path| + |Prefixed("?", t.query)| + HashCount(t.fragment),
                                   FragmentText(t.fragment))
  {
  }

  lemma FinalRelative(t: Tail)
    ensures FirstLayout(PiecesOf("", 0, "", t)) == LayoutAt("", 0, None, 0, t)
  {
    TailRuns("", 0, "", t);
  }

  lemma FinalAuthority(scheme: string, slashes: nat, a: Authority, t: Tail)
    requires ValidAuthority(a) && slashes <= 3
    ensures var server := |scheme| + slashes;
            PartsLayout(FirstLayout(PiecesOf(scheme, slashes, PrintAuthority(a), t)), server, PartsOf(a))
            == LayoutAt(scheme, server, Some(a), server + |PrintAuthority(a)|, t)
  {
    TailRuns(scheme, slashes, PrintAuthority(a), t);
    AuthorityRuns(FirstLayout(PiecesOf(scheme, slashes, PrintAuthority(a), t)), |scheme| + slashes, a);
  }

  /** The layout when both passes are done is the printer's layout of the tree. */
  lemma FinalLayout(t: Target)
    requires !t.Relative? ==> ValidAuthority(t.authority)
    ensures var l := FirstLayout(TargetPieces(t));
            match t
            case Relative(_) => l == LayoutOf(t)
            case Absolute(scheme, a, _) => PartsLayout(l, |scheme| + 3, PartsOf(a)) == LayoutOf(t)
            case Connect(a, _) => PartsLayout(l, 0, PartsOf(a)) == LayoutOf(t)
  {
    match t
    case Relative(tail) => FinalRelative(tail);
    case Absolute(scheme, a, tail) => FinalAuthority(scheme, 3, a, tail);
    case Connect(a, tail) => FinalAuthority("", 0, a, tail);
  }
}
