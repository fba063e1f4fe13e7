/** The request builder that consumes the parser's record
    (nghttp2_test/client/main.c:97-143; section 8.1.2.3 of RFC 7540). */
module UrlRequest {
  import opened Options
  import opened UrlChars
  import opened UrlGrammar
  import opened UrlParse
  import opened UrlFields
  import opened UrlParser

  // ----- what `%u` prints

  function DigitChar(n: nat): (c: char)
    requires n < 10
    ensures IsNum(c) && Digit(c) == n
  {
    ('0' as int + n) as char
  }

  function DecimalText(n: nat): (s: string)
    ensures s != "" && All(Digits, s)
  {
    if n < 10 then [DigitChar(n)]
    else
      AllSnoc(Digits, DecimalText(n / 10), DigitChar(n % 10));
      DecimalText(n / 10) + [DigitChar(n % 10)]
  }

  lemma {:induction false} DecimalTextValue(n: nat)
    ensures Decimal(DecimalText(n)) == n
  {
    var s := DecimalText(n);
    if n < 10 {
      assert Init(s) == "";
    } else {
      assert Init(s) == DecimalText(n / 10);
      DecimalTextValue(n / 10);
    }
  }

  /** `%u` never prints more digits than the port had in the URL. */
  lemma {:induction false} DecimalTextShortest(s: string)
    requires s != "" && All(Digits, s)
    ensures |DecimalText(Decimal(s))| <= |s|
    decreases |s|
  {
    var n := Decimal(s);
    if |s| == 1 {
      assert Init(s) == "";
    } else {
      DecimalTextShortest(Init(s));
      TextOfTens(n, Decimal(Init(s)), Digit(Last(s)));
    }
  }

  lemma TextOfTens(n: nat, a: nat, d: nat)
    requires n == a * 10 + d && d < 10
    ensures |DecimalText(n)| <= |DecimalText(a)| + 1
  {
    assert n / 10 == a;
  }

  function Pow10(k: nat): nat {
    if k == 0 then 1 else 10 * Pow10(k - 1)
  }

  lemma {:induction false} DecimalTextLength(n: nat, k: nat)
    requires 1 <= k && n < Pow10(k)
    ensures |DecimalText(n)| <= k
  {
    if n >= 10 {
      DecimalTextLength(n / 10, k - 1);
    }
  }

  /** A port number has at most 5 digits. */
  lemma PortTextFits(n: nat)
    requires n <= 0xFFFF
    ensures |DecimalText(n)| <= 5
  {
    assert Pow10(5) == 10 * Pow10(4) && Pow10(4) == 10 * Pow10(3) && Pow10(3) == 1000;
    DecimalTextLength(n, 5);
  }

  // ----- the header values

  function PortSuffix(port: Option<string>): string {
    if port.Some? then ":" + DecimalText(PortValue(port)) else ""
  }

  /** `:authority`: the host and the port number, without userinfo. */
  function AuthorityValue(a: Authority): string {
    HostName(a.host) + PortSuffix(a.port)
  }

  function PathOrRoot(t: Tail): string {
    if t.path == "" then "/" else t.path
  }

  function QuerySuffix(t: Tail): string {
    if GetOr(t.query) == "" then "" else "?" + GetOr(t.query)
  }

  /** `:path`: the path, or `/`, and the query. */
  function PathValue(t: Tail): string {
    PathOrRoot(t) + QuerySuffix(t)
  }

  class StreamData {
    var authority: array<char>
    var authorityLen: nat
    var path: array<char>
    var pathLen: nat

    constructor (authorityCapacity: nat, pathCapacity: nat)
      ensures fresh(authority) && fresh(path) && authority != path
      ensures authority.Length == authorityCapacity && path.Length == pathCapacity
    {
      authority := new char[authorityCapacity];
      path := new char[pathCapacity];
      authorityLen, pathLen := 0, 0;
    }
  }

  /** `memcpy(dst + at, src, |src|)`. */
  method CopyInto(dst: array<char>, at: nat, src: string)
    requires at + |src| <= dst.Length
    modifies dst
    ensures dst[at..at + |src|] == src
    ensures dst[..at] == old(dst[..at])
  {
    var i := 0;
    while i < |src|
      invariant i <= |src|
      invariant dst[at..at + i] == src[..i]
      invariant dst[..at] == old(dst[..at])
    {
      dst[at + i] := src[i];
      i := i + 1;
      assert dst[at..at + i] == dst[at..at + i - 1] + [src[i - 1]];
    }
    assert src[..|src|] == src;
  }

  /** The texts that the runs of the record select. */
  ghost predicate Selects(u: UrlRecord, uri: string, f: UrlField, text: string)
    reads u
  {
    && (f in u.fieldSet <==> text != "")
    && (f in u.fieldSet ==>
          && f in u.fieldData
          && u.fieldData[f].off + u.fieldData[f].len <= |uri|
          && u.fieldData[f].len == |text|
          && Slice(uri, u.fieldData[f]) == text)
  }

  lemma RecordSelects(u: UrlRecord, t: Target, f: UrlField)
    requires u.Holds(LayoutOf(t))
    ensures Selects(u, Print(t), f, ComponentText(t, f))
  {
    assert f in u.fieldSet <==> LayoutOf(t).Get(f).Some?;
    if f in u.fieldSet {
      FieldText(t, f);
    } else {
      NoRunNoText(t, f);
    }
  }

  lemma NoRunNoText(t: Target, f: UrlField)
    requires LayoutOf(t).Get(f).None?
    ensures ComponentText(t, f) == ""
  {
  }

  /** `snprintf(buf + at, 7, ":%u", port)`: the text and its terminating NUL. Returns the text's length. */
  method PrintPort(buf: array<char>, at: nat, port: nat) returns (n: nat)
    requires port <= 0xFFFF && at + 7 <= buf.Length
    modifies buf
    ensures n == 1 + |DecimalText(port)| <= 6
    ensures buf[..at + n] == old(buf[..at]) + (":" + DecimalText(port))
    ensures buf[at + n] == '\0'
  {
    var text := ":" + DecimalText(port);
    n := |text|;
    PortTextFits(port);
    CopyInto(buf, at, text);
    assert buf[..at + n] == buf[..at] + buf[at..at + n];
    buf[at + n] := '\0';
    assert buf[..at + n] == old(buf[..at]) + text;
  }

  /** Fills `:authority`: the host, then `:%u` of the port. */
  method FillAuthority(uri: string, u: UrlRecord, s: StreamData, ghost host: string, ghost port: Option<string>)
    requires Selects(u, uri, HostField, host) && host != ""
    requires PortField in u.fieldSet <==> port.Some?
    requires port.Some? ==> u.port == PortValue(port)
    requires s.authority.Length == |host| + 7
    modifies s`authorityLen, s.authority
    ensures s.authorityLen < s.authority.Length
    ensures s.authority[..s.authorityLen] == host + PortSuffix(port)
    ensures port.Some? ==> s.authority[s.authorityLen] == '\0'
  {
    var r := u.fieldData[HostField];
    s.authorityLen := r.len;
    CopyInto(s.authority, 0, uri[r.off..r.off + r.len]);
    assert s.authority[..r.len] == host;
    if PortField in u.fieldSet {
      var n := PrintPort(s.authority, r.len, u.port);
      s.authorityLen := s.authorityLen + n;
    }
  }

  /** Writes the last part of `:path`, counted from its end. */
  method FillQuery(path: array<char>, query: string, ghost front: string)
    requires path.Length == |front| + 1 + |query| && path[..|front|] == front
    modifies path
    ensures path[..] == front + ("?" + query)
  {
    path[path.Length - |query| - 1] := '?';
    assert path[..|front| + 1] == front + "?";
    CopyInto(path, path.Length - |query|, query);
    assert path[..] == path[..|front| + 1] + path[|front| + 1..];
  }

  /** Fills `:path` exactly. */
  method FillPath(uri: string, u: UrlRecord, s: StreamData, pathLen: nat, ghost t: Tail)
    requires Selects(u, uri, PathField, t.path) && Selects(u, uri, QueryField, GetOr(t.query))
    requires s.path.Length == pathLen == |PathValue(t)|
    modifies s`pathLen, s.path
    ensures s.pathLen == s.path.Length
    ensures s.path[..] == PathValue(t)
  {
    s.pathLen := pathLen;
    ghost var front := PathOrRoot(t);
    if PathField in u.fieldSet {
      var r := u.fieldData[PathField];
      CopyInto(s.path, 0, uri[r.off..r.off + r.len]);
    } else {
      s.path[0] := '/';
    }
    assert s.path[..|front|] == front;
    if QueryField in u.fieldSet {
      var q := u.fieldData[QueryField];
      FillQuery(s.path, uri[q.off..q.off + q.len], front);
    } else {
      assert s.path[..] == s.path[..|front|];
    }
  }

  /** Builds the stream data of an accepted absolute URL. */
  method CreateStreamData(uri: string, u: UrlRecord, ghost t: Target) returns (s: StreamData)
    requires Valid(t, false) && t.Absolute? && Print(t) == uri
    requires u.Holds(LayoutOf(t)) && u.port == PortNumber(t)
    ensures fresh(s) && fresh(s.authority) && fresh(s.path)
    ensures s.authority.Length == |HostName(t.authority.host)| + 7
    ensures s.authorityLen < s.authority.Length
    ensures s.authority[..s.authorityLen] == AuthorityValue(t.authority)
    ensures t.authority.port.Some? ==> s.authority[s.authorityLen] == '\0'
    ensures s.pathLen == s.path.Length
    ensures s.path[..] == PathValue(t.tail)
    ensures s.authority[..s.authorityLen]
            == HostName(t.authority.host)
               + (if t.authority.port.None? then "" else ":" + DecimalText(Decimal(t.authority.port.value)))
    ensures s.path[..]
            == (if t.tail.path == "" then "/" else t.tail.path)
               + (if t.tail.query.None? || t.tail.query.value == "" then "" else "?" + t.tail.query.value)
    ensures t.tail.path <= s.path[..] && s.path[..] != "" && s.path[0] == '/'
  {
    RecordSelects(u, t, HostField);
    RecordSelects(u, t, PortField);
    RecordSelects(u, t, PathField);
    RecordSelects(u, t, QueryField);
    var extra := 7;
    var pathLen := 1;
    if PathField in u.fieldSet {
      pathLen := u.fieldData[PathField].len;
    }
    if QueryField in u.fieldSet {
      pathLen := pathLen + u.fieldData[QueryField].len + 1;
    }
    s := new StreamData(u.fieldData[HostField].len + extra, pathLen);
    FillAuthority(uri, u, s, HostName(t.authority.host), t.authority.port);
    FillPath(uri, u, s, pathLen, t.tail);
  }
}
