/** What survives when the request's header values are put together and parsed again. */
module UrlReparse {
  import opened Options
  import opened UrlChars
  import opened UrlGrammar
  import opened UrlParse
  import opened UrlRequest
  import Scan = UrlScan

  /** The URL that the header values of the request spell. */
  function RequestText(t: Target): string
    requires t.Absolute?
  {
    t.scheme + "://" + AuthorityValue(t.authority) + PathValue(t.tail)
  }

  function RebuiltAuthority(a: Authority): Authority {
    Authority(None, Plain(HostName(a.host)), if a.port.Some? then Some(DecimalText(PortValue(a.port))) else None)
  }

  function RebuiltTail(t: Tail): Tail {
    Tail(PathOrRoot(t), if GetOr(t.query) == "" then None else t.query, None)
  }

  /** The tree that is read from the request: same scheme, host name, port number and query; the path
      is `/` if there was none; userinfo and fragment are gone. */
  function Rebuilt(t: Target): Target
    requires t.Absolute?
  {
    Absolute(t.scheme, RebuiltAuthority(t.authority), RebuiltTail(t.tail))
  }

  lemma RebuiltPrints(t: Target)
    requires t.Absolute?
    ensures Print(Rebuilt(t)) == RequestText(t)
  {
    var a := RebuiltAuthority(t.authority);
    assert PrintAuthority(a) == "" + AuthorityValue(t.authority);
    assert PrintTail(RebuiltTail(t.tail)) == PathValue(t.tail) + "";
  }

  lemma RebuiltPort(a: Authority)
    requires ValidAuthority(a)
    ensures PortValue(RebuiltAuthority(a).port) == PortValue(a.port)
  {
    if a.port.Some? {
      DecimalTextValue(PortValue(a.port));
    }
  }

  lemma RebuiltValid(t: Target)
    requires Valid(t, false) && t.Absolute?
    requires All(HostChars, HostName(t.authority.host))
    ensures Valid(Rebuilt(t), false)
  {
    RebuiltPort(t.authority);
    assert ValidAuthority(RebuiltAuthority(t.authority));
    assert ValidTail(RebuiltTail(t.tail));
  }

  lemma RequestLength(t: Target)
    requires Valid(t, false) && t.Absolute?
    ensures |RequestText(t)| <= |Print(t)| + 1
  {
    var a := t.authority;
    if a.port.Some? {
      DecimalTextShortest(a.port.value);
    }
    assert |PortSuffix(a.port)| <= |Prefixed(":", a.port)|;
    assert |PathValue(t.tail)| <= |PrintTail(t.tail)| + 1;
  }

  /** Reparsing the request succeeds, within the length limit, and reads the same components. */
  lemma ReparseSame(t: Target)
    requires Valid(t, false) && t.Absolute? && |Print(t)| < 0xFFFF
    requires All(HostChars, HostName(t.authority.host))
    ensures |RequestText(t)| <= 0xFFFF
    ensures Parse(RequestText(t), false) == Some(Rebuilt(t))
    ensures PortNumber(Rebuilt(t)) == PortNumber(t)
    ensures t.authority.port.Some? == Rebuilt(t).authority.port.Some?
    ensures HostName(Rebuilt(t).authority.host) == HostName(t.authority.host)
    ensures Rebuilt(t).scheme == t.scheme
    ensures Rebuilt(t).tail.path == if t.tail.path == "" then "/" else t.tail.path
    ensures GetOr(Rebuilt(t).tail.query) == GetOr(t.tail.query)
  {
    RequestLength(t);
    RebuiltPrints(t);
    RebuiltValid(t);
    RebuiltPort(t.authority);
    ParseExact(RequestText(t), Rebuilt(t), false);
  }

  // ----- bracketed hosts

  lemma HostNameChars(h: UrlGrammar.Host)
    requires ValidHost(h)
    ensures All(ServerChars, HostName(h)) && '@' !in HostName(h) && '[' !in HostName(h) && HostName(h) != ""
  {
  }

  lemma PortSuffixChars(port: Option<string>)
    ensures All(ServerChars, PortSuffix(port)) && '@' !in PortSuffix(port) && '[' !in PortSuffix(port)
  {
    if port.Some? {
      assert All(Digits, DecimalText(PortValue(port)));
    }
  }

  lemma AuthorityValueChars(a: Authority)
    requires ValidAuthority(a)
    ensures All(ServerChars, AuthorityValue(a)) && NoDoubleAt(AuthorityValue(a))
    ensures '[' !in AuthorityValue(a) && AuthorityValue(a) != ""
  {
    HostNameChars(a.host);
    PortSuffixChars(a.port);
    AllConcat(ServerChars, HostName(a.host), PortSuffix(a.port));
  }

  /** What the first pass should cut the request into. */
  function RequestPieces(t: Target): Scan.Pieces
    requires t.Absolute?
  {
    PiecesOf(t.scheme, 3, AuthorityValue(t.authority), RebuiltTail(t.tail))
  }

  lemma RequestPiecesText(t: Target)
    requires t.Absolute?
    ensures Scan.Text(RequestPieces(t)) == RequestText(t)
  {
    TailTextIsPrint(t.scheme, 3, AuthorityValue(t.authority), RebuiltTail(t.tail));
    assert Scan.COLON_SLASH_SLASH[..3] == "://";
    assert PrintTail(RebuiltTail(t.tail)) == PathValue(t.tail) + "";
  }

  lemma RebuiltTailValid(t: Tail)
    requires ValidTail(t) && (t.path != "" ==> t.path[0] == '/')
    ensures ValidTail(RebuiltTail(t)) && RebuiltTail(t).path != "" && RebuiltTail(t).path[0] == '/'
  {
  }

  lemma RequestPiecesWf(t: Target)
    requires Valid(t, false) && t.Absolute?
    ensures Scan.Wf(RequestPieces(t), false)
  {
    AuthorityValueChars(t.authority);
    RebuiltTailValid(t.tail);
    TailPiecesWf(t.scheme, 3, AuthorityValue(t.authority), RebuiltTail(t.tail));
  }

  /** The first pass finds `:authority` where the request put it, bracketed host or not. */
  lemma RequestScans(t: Target)
    requires Valid(t, false) && t.Absolute?
    ensures Scan.Scan(RequestText(t), false) == Some(RequestPieces(t))
  {
    RequestPiecesText(t);
    RequestPiecesWf(t);
    Scan.ScanExact(RequestText(t), RequestPieces(t), false);
  }

  lemma BracketIsPrinted(a: Authority)
    requires a.host.Bracketed?
    ensures '[' in PrintAuthority(a)
  {
    assert PrintAuthority(a)[|PrintUserinfo(a.userinfo)|] == '[';
  }

  /** Whatever is read from the request has the text of `:authority` as its authority. */
  lemma RequestAuthority(t: Target, t': Target)
    requires Valid(t, false) && t.Absolute? && Parse(RequestText(t), false) == Some(t')
    ensures t'.Absolute? && Valid(t', false) && PrintAuthority(t'.authority) == AuthorityValue(t.authority)
  {
    RequestScans(t);
    AuthorityValueChars(t.authority);
    ParseExact(RequestText(t), t', false);
    ParseAuthorityExact(AuthorityValue(t.authority), t'.authority);
  }

  /** The exact condition. Brackets are not part of the HOST field, so a bracketed host comes back only
      if it also reads as a plain name: the request parses again with the same host name if and only
      if every character of that name may stand in a plain host. */
  lemma ReparseExactly(t: Target)
    requires Valid(t, false) && t.Absolute? && |Print(t)| < 0xFFFF
    ensures (exists t' :: Parse(RequestText(t), false) == Some(t') && t'.Absolute?
                          && HostName(t'.authority.host) == HostName(t.authority.host))
            <==> All(HostChars, HostName(t.authority.host))
  {
    if All(HostChars, HostName(t.authority.host)) {
      ReparseSame(t);
    }
    forall t' | Parse(RequestText(t), false) == Some(t') && t'.Absolute?
                && HostName(t'.authority.host) == HostName(t.authority.host)
      ensures All(HostChars, HostName(t.authority.host))
    {
      RequestAuthority(t, t');
      AuthorityValueChars(t.authority);
      if t'.authority.host.Bracketed? {
        BracketIsPrinted(t'.authority);
      }
    }
  }

  /** The tree of `http://[::1]/`. */
  function LoopbackTarget(): Target {
    Absolute("http", Authority(None, Bracketed("::1", None), None), Tail("/", None, None))
  }

  lemma LoopbackText()
    ensures Print(LoopbackTarget()) == "http://[::1]/"
  {
    assert PrintAuthority(LoopbackTarget().authority) == "[::1]";
  }

  /** The parser accepts `http://[::1]/` with the host name `::1`, and no reading of the request made
      from it has that host name. */
  lemma BracketedHostLost()
    ensures Print(LoopbackTarget()) == "http://[::1]/"
    ensures var t := LoopbackTarget();
            && Parse(Print(t), false) == Some(t) && HostName(t.authority.host) == "::1"
            && forall t' :: Parse(RequestText(t), false) == Some(t') && t'.Absolute? ==>
                 HostName(t'.authority.host) != "::1"
  {
    LoopbackText();
    var t := LoopbackTarget();
    assert Valid(t, false) && |Print(t)| < 0xFFFF;
    ParseExact(Print(t), t, false);
    assert !In(HostChars, "::1"[0]);
    ReparseExactly(t);
  }
}
