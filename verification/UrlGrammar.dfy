/** The language of the URL parser, stated without automata: a syntax tree, its printer, which
    trees are valid, and where the printer puts each field. The grammar is the one of
    nghttp2_test/client/url-parser/url_parser.c:214-652, which differs from section 3 of RFC 3986. */
module UrlGrammar {
  import opened Options
  import opened UrlChars

  /** `Bracketed` is an IPv6 literal with an optional zone (section 2 of RFC 6874). */
  datatype Host = Plain(name: string) | Bracketed(address: string, zone: Option<string>)

  datatype Authority = Authority(userinfo: Option<string>, host: Host, port: Option<string>)

  /** A fragment is introduced by one `#` and any number of `extra` ones. */
  datatype Hashed = Hashed(extra: nat, text: string)

  datatype Tail = Tail(path: string, query: Option<string>, fragment: Option<Hashed>)

  datatype Target =
    | Relative(tail: Tail)
    | Absolute(scheme: string, authority: Authority, tail: Tail)
    | Connect(authority: Authority, tail: Tail)

  // ----- the printer

  function Prefixed(c: string, s: Option<string>): string {
    match s
    case None => ""
    case Some(text) => c + text
  }

  function HostName(h: Host): string {
    match h
    case Plain(name) => name
    case Bracketed(address, zone) => address + Prefixed("%", zone)
  }

  function PrintHost(h: Host): string {
    match h
    case Plain(name) => name
    case Bracketed(_, _) => "[" + HostName(h) + "]"
  }

  function PrintUserinfo(u: Option<string>): string {
    match u
    case None => ""
    case Some(text) => text + "@"
  }

  function PrintAuthority(a: Authority): string {
    PrintUserinfo(a.userinfo) + PrintHost(a.host) + Prefixed(":", a.port)
  }

  function PrintFragment(f: Option<Hashed>): string {
    match f
    case None => ""
    case Some(Hashed(extra, text)) => Hashes(1 + extra) + text
  }

  function PrintTail(t: Tail): string {
    t.path + Prefixed("?", t.query) + PrintFragment(t.fragment)
  }

  function Print(t: Target): string {
    match t
    case Relative(tail) => PrintTail(tail)
    case Absolute(scheme, authority, tail) => scheme + "://" + PrintAuthority(authority) + PrintTail(tail)
    case Connect(authority, tail) => PrintAuthority(authority) + PrintTail(tail)
  }

  // ----- validity

  function Digit(c: char): nat
    requires IsNum(c)
  {
    c as int - '0' as int
  }

  /** The decimal value of a digit string of any length. */
  function Decimal(s: string): nat
    requires All(Digits, s)
    decreases |s|
  {
    if s == "" then 0 else 10 * Decimal(Init(s)) + Digit(Last(s))
  }

  predicate ValidHost(h: Host) {
    match h
    case Plain(name) => name != "" && All(HostChars, name)
    case Bracketed(address, zone) =>
      && address != "" && All(V6Chars, address)
      && (zone.Some? ==> zone.value != "" && All(ZoneChars, zone.value))
  }

  predicate ValidAuthority(a: Authority) {
    && (a.userinfo.Some? ==> All(UserinfoChars, a.userinfo.value))
    && ValidHost(a.host)
    && (a.port.Some? ==> a.port.value != "" && All(Digits, a.port.value))
  }

  /** The number a port string stands for; 0 when there is none. */
  function PortValue(port: Option<string>): nat {
    if port.Some? && All(Digits, port.value) then Decimal(port.value) else 0
  }

  predicate ValidPort(a: Authority) {
    PortValue(a.port) <= 0xFFFF
  }

  predicate ValidTail(t: Tail) {
    && All(PathChars, t.path)
    && (t.query.Some? ==> All(QueryChars, t.query.value))
    && (t.fragment.Some? ==>
          && (t.path != "" || t.query.Some?)
          && All(FragmentChars, t.fragment.value.text)
          && (t.fragment.value.text != "" ==> t.fragment.value.text[0] != '#'))
  }

  /** Nothing a field would be made of: no path, and nothing behind a `?` or the `#`s. */
  predicate BlankTail(t: Tail) {
    && t.path == ""
    && (t.query.Some? ==> t.query.value == "")
    && (t.fragment.Some? ==> t.fragment.value.text == "")
  }

  predicate Valid(t: Target, connect: bool) {
    match t
    case Relative(tail) =>
      && !connect
      && ValidTail(tail)
      && tail.path != "" && (tail.path[0] == '/' || tail.path[0] == '*')
    case Absolute(scheme, authority, tail) =>
      && !connect
      && scheme != "" && All(Letters, scheme)
      && ValidAuthority(authority) && ValidPort(authority)
      && ValidTail(tail)
      && (tail.path != "" ==> tail.path[0] == '/')
    case Connect(authority, tail) =>
      && connect
      && ValidAuthority(authority) && ValidPort(authority)
      && ValidTail(tail)
      && BlankTail(tail)
      && authority.port.Some?
      && (authority.userinfo.Some? ==> authority.userinfo.value == "")
  }

  // ----- where the printer puts the fields

  datatype UrlField = SchemaField | HostField | PortField | PathField | QueryField | FragmentField | UserinfoField

  datatype Run = Run(off: nat, len: nat)

  /** One optional run a field. */
  datatype Layout = Layout(
    schema: Option<Run>, userinfo: Option<Run>, host: Option<Run>, port: Option<Run>,
    path: Option<Run>, query: Option<Run>, fragment: Option<Run>)
  {
    function Get(f: UrlField): Option<Run> {
      match f
      case SchemaField => schema
      case UserinfoField => userinfo
      case HostField => host
      case PortField => port
      case PathField => path
      case QueryField => query
      case FragmentField => fragment
    }

    function Set(f: UrlField, r: Run): Layout {
      match f
      case SchemaField => this.(schema := Some(r))
      case UserinfoField => this.(userinfo := Some(r))
      case HostField => this.(host := Some(r))
      case PortField => this.(port := Some(r))
      case PathField => this.(path := Some(r))
      case QueryField => this.(query := Some(r))
      case FragmentField => this.(fragment := Some(r))
    }
  }

  /** A field is recorded only when it is not empty. */
  function Field(off: nat, text: string): Option<Run> {
    if text == "" then None else Some(Run(off, |text|))
  }

  function GetOr(s: Option<string>): string {
    if s.Some? then s.value else ""
  }

  function FragmentText(f: Option<Hashed>): string {
    if f.Some? then f.value.text else ""
  }

  function HashCount(f: Option<Hashed>): nat {
    if f.Some? then 1 + f.value.extra else 0
  }

  /** The fields of a text that starts with `scheme`, has an authority at `server` and a tail at
      `tail`. */
  function LayoutAt(scheme: string, server: nat, a: Option<Authority>, tail: nat, t: Tail): Layout {
    var host := if a.Some? then server + |PrintUserinfo(a.value.userinfo)| else 0;
    var query := tail + |t.path|;
    Layout(
      Field(0, scheme),
      if a.Some? then Field(server, GetOr(a.value.userinfo)) else None,
      if a.Some? then Field(host + (if a.value.host.Bracketed? then 1 else 0), HostName(a.value.host)) else None,
      if a.Some? then Field(host + |PrintHost(a.value.host)| + 1, GetOr(a.value.port)) else None,
      Field(tail, t.path),
      Field(query + 1, GetOr(t.query)),
      Field(query + |Prefixed("?", t.query)| + HashCount(t.fragment), FragmentText(t.fragment)))
  }

  function LayoutOf(t: Target): Layout {
    match t
    case Relative(tail) => LayoutAt("", 0, None, 0, tail)
    case Absolute(scheme, a, tail) => LayoutAt(scheme, |scheme| + 3, Some(a), |scheme| + 3 + |PrintAuthority(a)|, tail)
    case Connect(a, tail) => LayoutAt("", 0, Some(a), |PrintAuthority(a)|, tail)
  }

  /** The port number of a target; 0 when it names none. */
  function PortNumber(t: Target): nat {
    if t.Relative? then 0 else PortValue(t.authority.port)
  }
}
