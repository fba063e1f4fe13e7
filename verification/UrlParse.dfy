/** The two passes together read exactly the grammar. */
module UrlParse {
  import opened Options
  import opened UrlChars
  import opened UrlGrammar
  import Scan = UrlScan
  import Host = UrlHost

  // ----- trees and what the passes cut

  function AuthorityOf(h: Host.Parts): Authority {
    Authority(
      if h.at then Some(h.user) else None,
      if h.open then Bracketed(h.name, if h.zoned then Some(h.zone) else None) else Plain(h.name),
      if h.colon then Some(h.port) else None)
  }

  function PartsOf(a: Authority): Host.Parts {
    match a.host
    case Plain(name) =>
      Host.Parts(GetOr(a.userinfo), a.userinfo.Some?, false, name, false, "", false, a.port.Some?, GetOr(a.port))
    case Bracketed(address, zone) =>
      Host.Parts(GetOr(a.userinfo), a.userinfo.Some?, true, address, zone.Some?, GetOr(zone), true,
                 a.port.Some?, GetOr(a.port))
  }

  function TailOf(p: Scan.Pieces): Tail {
    Tail(p.path, if p.marked then Some(p.query) else None,
         if p.hashes > 0 then Some(Hashed(p.hashes - 1, p.fragment)) else None)
  }

  /** The pieces of a text with the given head and tail. */
  function PiecesOf(scheme: string, slashes: nat, server: string, t: Tail): Scan.Pieces {
    Scan.Pieces(scheme, slashes, server, t.path, t.query.Some?, GetOr(t.query), HashCount(t.fragment),
                FragmentText(t.fragment))
  }

  function TargetPieces(t: Target): Scan.Pieces {
    match t
    case Relative(tail) => PiecesOf("", 0, "", tail)
    case Absolute(scheme, authority, tail) => PiecesOf(scheme, 3, PrintAuthority(authority), tail)
    case Connect(authority, tail) => PiecesOf("", 0, PrintAuthority(authority), tail)
  }

  // ----- the specification of the parser

  function ParseAuthority(server: string): Option<Authority> {
    match Host.ScanHost(server, '@' in server)
    case None => None
    case Some(h) => if Host.Complete(h) then Some(AuthorityOf(h)) else None
  }

  /** The CONNECT test: HOST and PORT are set and nothing else is. */
  predicate HostPortOnly(l: Layout) {
    l.host.Some? && l.port.Some? && l.schema.None? && l.userinfo.None? && l.path.None? && l.query.None?
    && l.fragment.None?
  }

  /** What follows the first pass: the second pass, the port range and the CONNECT test. */
  function Finish(p: Scan.Pieces, connect: bool): Option<Target> {
    if p.server == "" then
      if p.scheme != "" || connect then None else Some(Relative(TailOf(p)))
    else
      match ParseAuthority(p.server)
      case None => None
      case Some(a) =>
        var t := if connect then Connect(a, TailOf(p)) else Absolute(p.scheme, a, TailOf(p));
        if ValidPort(a) && (connect ==> HostPortOnly(LayoutOf(t))) then Some(t) else None
  }

  /** The tree that the two passes read from the buffer, if they accept it. */
  function Parse(b: string, connect: bool): Option<Target> {
    match Scan.Scan(b, connect)
    case None => None
    case Some(p) => if b == "" then None else Finish(p, connect)
  }

  // ----- the second pass reads exactly the authorities

  lemma Regroup(u: string, n: string, p: string)
    ensures u + "[" + n + ("]" + p) == u + ("[" + n + "]") + p
  {
  }

  lemma PartTexts(a: Authority)
    ensures var h := PartsOf(a);
            && Host.UserText(h) == PrintUserinfo(a.userinfo) + (if a.host.Bracketed? then "[" else "")
            && Host.HostText(h) == HostName(a.host)
            && Host.PortText(h) == (if a.host.Bracketed? then "]" else "") + Prefixed(":", a.port)
  {
  }

  lemma AuthorityTextIsPrint(a: Authority)
    ensures Host.AuthorityText(PartsOf(a)) == PrintAuthority(a)
  {
    PartTexts(a);
    Regroup(PrintUserinfo(a.userinfo), HostName(a.host), Prefixed(":", a.port));
    var u := PrintUserinfo(a.userinfo);
    var p := Prefixed(":", a.port);
    assert u + "" == u && "" + p == p;
  }

  lemma ValidAuthorityIsComplete(a: Authority)
    ensures ValidAuthority(a) <==> Host.PartsWf(PartsOf(a), a.userinfo.Some?) && Host.Complete(PartsOf(a))
  {
  }

  lemma PartsRoundTrip(h: Host.Parts, foundAt: bool)
    requires Host.PartsWf(h, foundAt) && Host.Complete(h)
    ensures PartsOf(AuthorityOf(h)) == h
    ensures AuthorityOf(h).userinfo.Some? == h.at == foundAt
  {
  }

  lemma ParseAuthoritySound(server: string, a: Authority)
    requires ParseAuthority(server) == Some(a)
    ensures ValidAuthority(a) && PrintAuthority(a) == server
  {
    var h := Host.ScanHost(server, '@' in server).value;
    Host.ScanHostExact(server, h, '@' in server);
    PartsRoundTrip(h, '@' in server);
    ValidAuthorityIsComplete(a);
    AuthorityTextIsPrint(a);
  }

  /** The authority printed from a valid tree passes the first automaton, which notices its `@`. */
  lemma AuthorityIsServer(a: Authority)
    requires ValidAuthority(a)
    ensures '@' in PrintAuthority(a) <==> a.userinfo.Some?
    ensures All(ServerChars, PrintAuthority(a)) && NoDoubleAt(PrintAuthority(a))
  {
    AuthorityTextIsPrint(a);
    ValidAuthorityIsComplete(a);
    Host.HostWithinServer(PartsOf(a), a.userinfo.Some?);
  }

  lemma AuthorityRoundTrip(a: Authority)
    ensures AuthorityOf(PartsOf(a)) == a
  {
  }

  lemma ParseAuthorityFrom(server: string, h: Host.Parts, foundAt: bool)
    requires foundAt == ('@' in server)
    requires Host.PartsWf(h, foundAt) && Host.Complete(h) && Host.AuthorityText(h) == server
    ensures ParseAuthority(server) == Some(AuthorityOf(h))
  {
    Host.ScanHostExact(server, h, foundAt);
  }

  lemma ParseAuthorityComplete(server: string, a: Authority)
    requires ValidAuthority(a) && PrintAuthority(a) == server
    ensures ParseAuthority(server) == Some(a)
  {
    AuthorityIsServer(a);
    AuthorityTextIsPrint(a);
    ValidAuthorityIsComplete(a);
    AuthorityRoundTrip(a);
    ParseAuthorityFrom(server, PartsOf(a), a.userinfo.Some?);
  }

  /** An authority is read from a text exactly when it is valid and prints as that text. */
  lemma ParseAuthorityExact(server: string, a: Authority)
    ensures ParseAuthority(server) == Some(a) <==> ValidAuthority(a) && PrintAuthority(a) == server
  {
    if ParseAuthority(server) == Some(a) {
      ParseAuthoritySound(server, a);
    }
    if ValidAuthority(a) && PrintAuthority(a) == server {
      ParseAuthorityComplete(server, a);
    }
  }

  // ----- both passes read exactly the targets

  lemma TailTextIsPrint(scheme: string, slashes: nat, server: string, t: Tail)
    ensures Scan.TailText(PiecesOf(scheme, slashes, server, t)) == PrintTail(t)
  {
  }

  lemma TargetTextIsPrint(t: Target)
    ensures Scan.Text(TargetPieces(t)) == Print(t)
  {
    var p := TargetPieces(t);
    TailTextIsPrint(p.scheme, p.slashes, p.server, t.tail);
    assert Scan.COLON_SLASH_SLASH[..3] == "://" && Scan.COLON_SLASH_SLASH[..0] == "";
    var rest := PrintTail(t.tail);
    match t
    case Relative(_) =>
      assert Scan.HeadText(p) == "" && "" + rest == rest;
    case Absolute(scheme, a, _) =>
      assert Scan.HeadText(p) == scheme + "://" + PrintAuthority(a);
    case Connect(a, _) =>
      assert Scan.HeadText(p) == PrintAuthority(a);
  }

  lemma PrintAuthorityNonempty(a: Authority)
    requires ValidAuthority(a)
    ensures PrintAuthority(a) != ""
  {
  }

  lemma TailPiecesWf(scheme: string, slashes: nat, server: string, t: Tail)
    requires ValidTail(t) && All(Letters, scheme) && All(ServerChars, server) && NoDoubleAt(server)
    ensures Scan.WfChars(PiecesOf(scheme, slashes, server, t))
  {
  }

  lemma TargetPiecesWf(t: Target, connect: bool)
    requires Valid(t, connect)
    ensures Scan.Wf(TargetPieces(t), connect)
  {
    if !t.Relative? {
      AuthorityIsServer(t.authority);
      PrintAuthorityNonempty(t.authority);
    }
    var p := TargetPieces(t);
    TailPiecesWf(p.scheme, p.slashes, p.server, t.tail);
  }

  lemma TailOfValid(p: Scan.Pieces, connect: bool)
    requires Scan.Wf(p, connect)
    ensures ValidTail(TailOf(p))
    ensures PiecesOf(p.scheme, p.slashes, p.server, TailOf(p)) == p
  {
  }

  /** Without an authority nothing but a path can have been read. */
  lemma BarePath(p: Scan.Pieces)
    requires Scan.Wf(p, false) && p.server == "" && p.scheme == ""
    ensures p.slashes == 0
    ensures p.path == "" ==> Scan.Text(p) == ""
  {
  }

  /** The CONNECT test on the set of fields, in terms of the tree. */
  lemma ConnectFields(a: Authority, t: Tail)
    requires ValidAuthority(a)
    ensures HostPortOnly(LayoutOf(Connect(a, t))) <==>
            a.port.Some? && GetOr(a.userinfo) == "" && BlankTail(t)
  {
  }

  lemma FinishSound(p: Scan.Pieces, t: Target, connect: bool)
    requires Scan.Wf(p, connect) && Scan.Text(p) != "" && Finish(p, connect) == Some(t)
    ensures Valid(t, connect) && TargetPieces(t) == p
  {
    TailOfValid(p, connect);
    if p.server == "" {
      BarePath(p);
    } else {
      ParseAuthorityExact(p.server, t.authority);
      if connect {
        ConnectFields(t.authority, t.tail);
      }
    }
  }

  lemma FinishComplete(t: Target, connect: bool)
    requires Valid(t, connect)
    ensures Finish(TargetPieces(t), connect) == Some(t)
  {
    assert TailOf(TargetPieces(t)) == t.tail;
    if !t.Relative? {
      PrintAuthorityNonempty(t.authority);
      ParseAuthorityExact(PrintAuthority(t.authority), t.authority);
      if connect {
        ConnectFields(t.authority, t.tail);
      }
    }
  }

  lemma ParseSound(b: string, t: Target, connect: bool)
    requires Parse(b, connect) == Some(t)
    ensures Valid(t, connect) && Print(t) == b
  {
    var p := Scan.Scan(b, connect).value;
    Scan.ScanExact(b, p, connect);
    FinishSound(p, t, connect);
    TargetTextIsPrint(t);
  }

  lemma PrintNonempty(t: Target, connect: bool)
    requires Valid(t, connect)
    ensures Print(t) != ""
  {
    if !t.Relative? {
      PrintAuthorityNonempty(t.authority);
    }
  }

  lemma ParseComplete(b: string, t: Target, connect: bool)
    requires Valid(t, connect) && Print(t) == b
    ensures Parse(b, connect) == Some(t)
  {
    PrintNonempty(t, connect);
    TargetTextIsPrint(t);
    TargetPiecesWf(t, connect);
    Scan.ScanExact(b, TargetPieces(t), connect);
    FinishComplete(t, connect);
  }

  /** The two-pass parser accepts exactly the texts of the valid trees, and each accepted text is
      read as the one tree that prints it. */
  lemma ParseExact(b: string, t: Target, connect: bool)
    ensures Parse(b, connect) == Some(t) <==> Valid(t, connect) && Print(t) == b
  {
    if Parse(b, connect) == Some(t) {
      ParseSound(b, t, connect);
    }
    if Valid(t, connect) && Print(t) == b {
      ParseComplete(b, t, connect);
    }
  }
}
