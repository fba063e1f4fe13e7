/** The second pass: the automaton `http_parse_host_char` over the authority found by the first.
    (nghttp2_test/client/url-parser/url_parser.c:362-524) */
module UrlHost {
  import opened Options
  import opened UrlChars

  datatype HostState =
    | HostDead
    | UserinfoStart
    | Userinfo
    | HostStart
    | HostV6Start
    | HostName
    | HostV6
    | HostV6End
    | HostV6ZoneStart
    | HostV6Zone
    | PortStart
    | Port

  /** One transition of the second automaton. */
  function ParseHostChar(s: HostState, ch: char): HostState {
    match s
    case Userinfo => UserinfoNext(ch)
    case UserinfoStart => UserinfoNext(ch)
    case HostStart =>
      if ch == '[' then HostV6Start else if IsHostChar(ch) then HostName else HostDead
    case HostName =>
      if IsHostChar(ch) then HostName else if ch == ':' then PortStart else HostDead
    case HostV6End =>
      if ch == ':' then PortStart else HostDead
    case HostV6 =>
      if ch == ']' then HostV6End
      else if IsHex(ch) || ch == ':' || ch == '.' then HostV6
      else if ch == '%' then HostV6ZoneStart
      else HostDead
    case HostV6Start =>
      if IsHex(ch) || ch == ':' || ch == '.' then HostV6 else HostDead
    case HostV6Zone =>
      if ch == ']' then HostV6End else if IsZoneChar(ch) then HostV6Zone else HostDead
    case HostV6ZoneStart =>
      if IsZoneChar(ch) then HostV6Zone else HostDead
    case Port =>
      if IsNum(ch) then Port else HostDead
    case PortStart =>
      if IsNum(ch) then Port else HostDead
    case HostDead => HostDead
  }

  function UserinfoNext(ch: char): HostState {
    if ch == '@' then HostStart else if IsUserinfoChar(ch) then Userinfo else HostDead
  }

  /** The states in which the authority may end. */
  predicate MayEnd(s: HostState) {
    s !in {HostStart, HostV6Start, HostV6, HostV6ZoneStart, HostV6Zone, PortStart, Userinfo, UserinfoStart}
  }

  /** What has been read of the authority, cut at the delimiters `@`, `[`, `%`, `]`, `:`. */
  datatype Parts = Parts(
    user: string, at: bool, open: bool, name: string,
    zoned: bool, zone: string, closed: bool, colon: bool, port: string)

  const NO_PARTS := Parts("", false, false, "", false, "", false, false, "")

  function If(b: bool, s: string): string {
    if b then s else ""
  }

  function UserText(h: Parts): string {
    h.user + If(h.at, "@") + If(h.open, "[")
  }

  /** The text of the HOST field: a name, or the address and zone between the brackets. */
  function HostText(h: Parts): string {
    h.name + If(h.zoned, "%" + h.zone)
  }

  function PortText(h: Parts): string {
    If(h.closed, "]") + If(h.colon, ":" + h.port)
  }

  function AuthorityText(h: Parts): string {
    UserText(h) + HostText(h) + PortText(h)
  }

  predicate HostMayStart(h: Parts, foundAt: bool) {
    h.at || !foundAt
  }

  predicate PartsOrder(h: Parts, foundAt: bool) {
    && (h.at || h.user != "" ==> foundAt)
    && (h.open || h.name != "" ==> HostMayStart(h, foundAt))
    && (h.zoned ==> h.open && h.name != "")
    && (h.zone != "" ==> h.zoned)
    && (h.closed ==> h.open && h.name != "" && (h.zoned ==> h.zone != ""))
    && (h.colon ==> if h.open then h.closed else h.name != "")
    && (h.port != "" ==> h.colon)
  }

  predicate PartsChars(h: Parts) {
    && All(UserinfoChars, h.user)
    && All(if h.open then V6Chars else HostChars, h.name)
    && All(ZoneChars, h.zone)
    && All(Digits, h.port)
  }

  predicate PartsWf(h: Parts, foundAt: bool) {
    PartsOrder(h, foundAt) && PartsChars(h)
  }

  function HostStateOf(h: Parts, foundAt: bool): HostState {
    if h.port != "" then Port
    else if h.colon then PortStart
    else if h.closed then HostV6End
    else if h.zone != "" then HostV6Zone
    else if h.zoned then HostV6ZoneStart
    else if h.name != "" then if h.open then HostV6 else HostName
    else if h.open then HostV6Start
    else if HostMayStart(h, foundAt) then HostStart
    else if h.user != "" then Userinfo
    else UserinfoStart
  }

  function ExtendHost(h: Parts, s: HostState, ch: char): Parts {
    match s
    case Userinfo => h.(user := h.user + [ch])
    case HostStart => h.(at := true)
    case HostV6Start => h.(open := true)
    case HostName => h.(name := h.name + [ch])
    case HostV6 => h.(name := h.name + [ch])
    case HostV6ZoneStart => h.(zoned := true)
    case HostV6Zone => h.(zone := h.zone + [ch])
    case HostV6End => h.(closed := true)
    case PortStart => h.(colon := true)
    case Port => h.(port := h.port + [ch])
    case UserinfoStart => h
    case HostDead => h
  }

  function ChopHost(h: Parts): Parts {
    if h.port != "" then h.(port := Init(h.port))
    else if h.colon then h.(colon := false)
    else if h.closed then h.(closed := false)
    else if h.zone != "" then h.(zone := Init(h.zone))
    else if h.zoned then h.(zoned := false)
    else if h.name != "" then h.(name := Init(h.name))
    else if h.open then h.(open := false)
    else if h.at then h.(at := false)
    else if h.user != "" then h.(user := Init(h.user))
    else h
  }

  function LastPart(h: Parts): char
    requires h != NO_PARTS
  {
    if h.port != "" then Last(h.port)
    else if h.colon then ':'
    else if h.closed then ']'
    else if h.zone != "" then Last(h.zone)
    else if h.zoned then '%'
    else if h.name != "" then Last(h.name)
    else if h.open then '['
    else if h.at then '@'
    else Last(h.user)
  }

  predicate NoPort(h: Parts) {
    !h.colon && h.port == ""
  }

  predicate NoZone(h: Parts) {
    !h.zoned && h.zone == "" && !h.closed && NoPort(h)
  }

  predicate NoHost(h: Parts) {
    !h.open && h.name == "" && NoZone(h)
  }

  /** `ExtendHost(h, s, ch)` writes behind everything already read. */
  predicate AppendsHost(h: Parts, s: HostState, ch: char) {
    match s
    case Userinfo => !h.at && NoHost(h)
    case HostStart => !h.at && ch == '@' && NoHost(h)
    case HostV6Start => ch == '[' && NoHost(h)
    case HostName => !h.open && NoZone(h)
    case HostV6 => h.open && NoZone(h)
    case HostV6ZoneStart => ch == '%' && NoZone(h)
    case HostV6Zone => h.zoned && !h.closed && NoPort(h)
    case HostV6End => ch == ']' && !h.closed && NoPort(h)
    case PortStart => ch == ':' && NoPort(h)
    case Port => h.colon
    case UserinfoStart => false
    case HostDead => false
  }

  lemma PortTextExtend(h: Parts, s: HostState, ch: char)
    requires AppendsHost(h, s, ch) && s in {HostV6End, PortStart, Port}
    ensures PortText(ExtendHost(h, s, ch)) == PortText(h) + [ch]
  {
  }

  lemma NameTextExtend(h: Parts, s: HostState, ch: char)
    requires AppendsHost(h, s, ch) && s in {HostName, HostV6, HostV6ZoneStart, HostV6Zone}
    ensures HostText(ExtendHost(h, s, ch)) == HostText(h) + [ch]
    ensures PortText(ExtendHost(h, s, ch)) == PortText(h) == ""
  {
  }

  lemma UserTextExtend(h: Parts, s: HostState, ch: char)
    requires AppendsHost(h, s, ch) && s in {Userinfo, HostStart, HostV6Start}
    ensures UserText(ExtendHost(h, s, ch)) == UserText(h) + [ch]
    ensures HostText(ExtendHost(h, s, ch)) == HostText(h) == ""
    ensures PortText(ExtendHost(h, s, ch)) == PortText(h) == ""
  {
  }

  lemma Snoc3(a: string, b: string, c: string, ch: char)
    ensures a + b + (c + [ch]) == a + b + c + [ch]
    ensures a + (b + [ch]) + "" == a + b + "" + [ch]
    ensures (a + [ch]) + "" + "" == a + "" + "" + [ch]
  {
  }

  lemma HostTextExtend(h: Parts, s: HostState, ch: char)
    requires AppendsHost(h, s, ch)
    ensures AuthorityText(ExtendHost(h, s, ch)) == AuthorityText(h) + [ch]
  {
    Snoc3(UserText(h), HostText(h), PortText(h), ch);
    if s in {HostV6End, PortStart, Port} {
      PortTextExtend(h, s, ch);
    } else if s in {HostName, HostV6, HostV6ZoneStart, HostV6Zone} {
      NameTextExtend(h, s, ch);
    } else {
      UserTextExtend(h, s, ch);
    }
  }

  lemma ExtendHostAppends(h: Parts, ch: char, foundAt: bool)
    requires PartsOrder(h, foundAt)
    requires ParseHostChar(HostStateOf(h, foundAt), ch) != HostDead
    ensures AppendsHost(h, ParseHostChar(HostStateOf(h, foundAt), ch), ch)
  {
  }

  lemma ExtendHostOrder(h: Parts, ch: char, foundAt: bool)
    requires PartsOrder(h, foundAt)
    requires ParseHostChar(HostStateOf(h, foundAt), ch) != HostDead
    ensures PartsOrder(ExtendHost(h, ParseHostChar(HostStateOf(h, foundAt), ch), ch), foundAt)
  {
  }

  lemma ExtendHostState(h: Parts, ch: char, foundAt: bool)
    requires PartsOrder(h, foundAt)
    requires ParseHostChar(HostStateOf(h, foundAt), ch) != HostDead
    ensures var s := ParseHostChar(HostStateOf(h, foundAt), ch);
            HostStateOf(ExtendHost(h, s, ch), foundAt) == s
  {
  }

  lemma ExtendNameChars(h: Parts, ch: char, foundAt: bool)
    requires PartsWf(h, foundAt)
    requires ParseHostChar(HostStateOf(h, foundAt), ch) in {HostName, HostV6, HostV6Start}
    ensures PartsChars(ExtendHost(h, ParseHostChar(HostStateOf(h, foundAt), ch), ch))
  {
    if ParseHostChar(HostStateOf(h, foundAt), ch) != HostV6Start {
      AllSnoc(if h.open then V6Chars else HostChars, h.name, ch);
    }
  }

  /** The characters that lead to userinfo, zone and port. */
  lemma HostLiveChar(s: HostState, ch: char)
    ensures ParseHostChar(s, ch) == Userinfo ==> In(UserinfoChars, ch)
    ensures ParseHostChar(s, ch) == HostV6Zone ==> In(ZoneChars, ch)
    ensures ParseHostChar(s, ch) == Port ==> In(Digits, ch)
  {
  }

  lemma ExtendPartsChars(h: Parts, s: HostState, ch: char)
    requires PartsChars(h) && s !in {HostDead, HostName, HostV6, HostV6Start}
    requires s == Userinfo ==> In(UserinfoChars, ch)
    requires s == HostV6Zone ==> In(ZoneChars, ch)
    requires s == Port ==> In(Digits, ch)
    ensures PartsChars(ExtendHost(h, s, ch))
  {
  }

  lemma ExtendHostChars(h: Parts, ch: char, foundAt: bool)
    requires PartsWf(h, foundAt)
    requires ParseHostChar(HostStateOf(h, foundAt), ch) !in {HostDead, HostName, HostV6, HostV6Start}
    ensures PartsChars(ExtendHost(h, ParseHostChar(HostStateOf(h, foundAt), ch), ch))
  {
    HostLiveChar(HostStateOf(h, foundAt), ch);
    ExtendPartsChars(h, ParseHostChar(HostStateOf(h, foundAt), ch), ch);
  }

  /** A live transition keeps the parts well-formed and the state determined by them. */
  lemma HostStepForward(h: Parts, ch: char, foundAt: bool)
    requires PartsWf(h, foundAt)
    requires ParseHostChar(HostStateOf(h, foundAt), ch) != HostDead
    ensures var s := ParseHostChar(HostStateOf(h, foundAt), ch);
            var h' := ExtendHost(h, s, ch);
            && PartsWf(h', foundAt)
            && HostStateOf(h', foundAt) == s
            && AuthorityText(h') == AuthorityText(h) + [ch]
  {
    ExtendHostAppends(h, ch, foundAt);
    ExtendHostOrder(h, ch, foundAt);
    ExtendHostState(h, ch, foundAt);
    if ParseHostChar(HostStateOf(h, foundAt), ch) in {HostName, HostV6, HostV6Start} {
      ExtendNameChars(h, ch, foundAt);
    } else {
      ExtendHostChars(h, ch, foundAt);
    }
    HostTextExtend(h, ParseHostChar(HostStateOf(h, foundAt), ch), ch);
  }

  lemma ChopHostWf(h: Parts, foundAt: bool)
    requires PartsWf(h, foundAt)
    ensures PartsWf(ChopHost(h), foundAt)
  {
  }

  /** The last character of each part is in the class of that part. */
  predicate LastChars(h: Parts) {
    && (h.user != "" ==> IsUserinfoChar(Last(h.user)))
    && (h.name != "" ==> In(if h.open then V6Chars else HostChars, Last(h.name)))
    && (h.zone != "" ==> IsZoneChar(Last(h.zone)))
    && (h.port != "" ==> IsNum(Last(h.port)))
  }

  lemma ChopPort(h: Parts, foundAt: bool)
    requires PartsOrder(h, foundAt) && LastChars(h) && h.port != ""
    ensures ParseHostChar(HostStateOf(ChopHost(h), foundAt), LastPart(h)) == HostStateOf(h, foundAt)
  {
  }

  lemma ChopColon(h: Parts, foundAt: bool)
    requires PartsOrder(h, foundAt) && LastChars(h) && h.port == "" && h.colon
    ensures ParseHostChar(HostStateOf(ChopHost(h), foundAt), LastPart(h)) == HostStateOf(h, foundAt)
  {
  }

  lemma ChopClosed(h: Parts, foundAt: bool)
    requires PartsOrder(h, foundAt) && LastChars(h) && NoPort(h) && h.closed
    ensures ParseHostChar(HostStateOf(ChopHost(h), foundAt), LastPart(h)) == HostStateOf(h, foundAt)
  {
  }

  lemma ZoneStep(s: HostState, ch: char)
    requires (s == HostV6Zone || s == HostV6ZoneStart) && IsZoneChar(ch)
    ensures ParseHostChar(s, ch) == HostV6Zone
  {
  }

  lemma ChopZone(h: Parts, foundAt: bool)
    requires PartsOrder(h, foundAt) && NoPort(h) && !h.closed && h.zone != "" && IsZoneChar(Last(h.zone))
    ensures ParseHostChar(HostStateOf(ChopHost(h), foundAt), LastPart(h)) == HostStateOf(h, foundAt)
  {
    ZoneStep(HostStateOf(ChopHost(h), foundAt), Last(h.zone));
  }

  lemma ChopZoned(h: Parts, foundAt: bool)
    requires PartsOrder(h, foundAt) && LastChars(h) && NoPort(h) && !h.closed && h.zone == "" && h.zoned
    ensures ParseHostChar(HostStateOf(ChopHost(h), foundAt), LastPart(h)) == HostStateOf(h, foundAt)
  {
  }

  lemma ChopName(h: Parts, foundAt: bool)
    requires PartsOrder(h, foundAt) && NoZone(h) && h.name != "" && !h.open && IsHostChar(Last(h.name))
    ensures ParseHostChar(HostStateOf(ChopHost(h), foundAt), LastPart(h)) == HostStateOf(h, foundAt)
  {
  }

  lemma ChopAddress(h: Parts, foundAt: bool)
    requires PartsOrder(h, foundAt) && NoZone(h) && h.name != "" && h.open && In(V6Chars, Last(h.name))
    ensures ParseHostChar(HostStateOf(ChopHost(h), foundAt), LastPart(h)) == HostStateOf(h, foundAt)
  {
  }

  lemma ChopOpen(h: Parts, foundAt: bool)
    requires PartsOrder(h, foundAt) && LastChars(h) && NoZone(h) && h.name == "" && h.open
    ensures ParseHostChar(HostStateOf(ChopHost(h), foundAt), LastPart(h)) == HostStateOf(h, foundAt)
  {
  }

  lemma ChopAt(h: Parts, foundAt: bool)
    requires PartsOrder(h, foundAt) && LastChars(h) && NoHost(h) && h.at
    ensures ParseHostChar(HostStateOf(ChopHost(h), foundAt), LastPart(h)) == HostStateOf(h, foundAt)
  {
  }

  lemma ChopUser(h: Parts, foundAt: bool)
    requires PartsOrder(h, foundAt) && LastChars(h) && NoHost(h) && !h.at && h.user != ""
    ensures ParseHostChar(HostStateOf(ChopHost(h), foundAt), LastPart(h)) == HostStateOf(h, foundAt)
  {
  }

  lemma ChopHostState(h: Parts, foundAt: bool)
    requires PartsOrder(h, foundAt) && LastChars(h) && h != NO_PARTS
    ensures ParseHostChar(HostStateOf(ChopHost(h), foundAt), LastPart(h)) == HostStateOf(h, foundAt)
  {
    if h.port != "" {
      ChopPort(h, foundAt);
    } else if h.colon {
      ChopColon(h, foundAt);
    } else if h.closed {
      ChopClosed(h, foundAt);
    } else if h.zone != "" {
      ChopZone(h, foundAt);
    } else if h.zoned {
      ChopZoned(h, foundAt);
    } else if h.name != "" {
      if h.open {
        ChopAddress(h, foundAt);
      } else {
        ChopName(h, foundAt);
      }
    } else if h.open {
      ChopOpen(h, foundAt);
    } else if h.at {
      ChopAt(h, foundAt);
    } else {
      ChopUser(h, foundAt);
    }
  }

  lemma ChopExtendHost(h: Parts, foundAt: bool)
    requires PartsOrder(h, foundAt) && h != NO_PARTS
    ensures ExtendHost(ChopHost(h), HostStateOf(h, foundAt), LastPart(h)) == h
  {
  }

  /** Every well-formed nonempty reading was reached by one live transition. */
  lemma HostStepBack(h: Parts, foundAt: bool)
    requires PartsWf(h, foundAt) && h != NO_PARTS
    ensures var h0 := ChopHost(h);
            var ch := LastPart(h);
            && PartsWf(h0, foundAt)
            && ParseHostChar(HostStateOf(h0, foundAt), ch) == HostStateOf(h, foundAt) != HostDead
            && ExtendHost(h0, HostStateOf(h, foundAt), ch) == h
            && AuthorityText(h0) + [ch] == AuthorityText(h)
  {
    ChopHostWf(h, foundAt);
    ChopHostState(h, foundAt);
    ChopExtendHost(h, foundAt);
    HostStepForward(ChopHost(h), LastPart(h), foundAt);
  }

  function HostStep(h: Parts, ch: char, foundAt: bool): Option<Parts> {
    var s := ParseHostChar(HostStateOf(h, foundAt), ch);
    if s == HostDead then None else Some(ExtendHost(h, s, ch))
  }

  /** The second pass as a fold over the authority. */
  function ScanHost(b: string, foundAt: bool): Option<Parts>
    decreases |b|
  {
    if b == "" then Some(NO_PARTS)
    else
      match ScanHost(Init(b), foundAt)
      case None => None
      case Some(h) => HostStep(h, Last(b), foundAt)
  }

  lemma HostStepSound(h: Parts, h': Parts, ch: char, foundAt: bool)
    requires PartsWf(h, foundAt) && HostStep(h, ch, foundAt) == Some(h')
    ensures PartsWf(h', foundAt) && AuthorityText(h') == AuthorityText(h) + [ch]
  {
    HostStepForward(h, ch, foundAt);
  }

  lemma {:induction false} ScanHostSound(b: string, h: Parts, foundAt: bool)
    requires ScanHost(b, foundAt) == Some(h)
    ensures PartsWf(h, foundAt) && AuthorityText(h) == b
    decreases |b|
  {
    if b == "" {
      assert AuthorityText(NO_PARTS) == "";
    } else {
      var h0 := ScanHost(Init(b), foundAt).value;
      ScanHostSound(Init(b), h0, foundAt);
      HostStepSound(h0, h, Last(b), foundAt);
    }
  }

  lemma {:induction false} ScanHostComplete(b: string, h: Parts, foundAt: bool)
    requires PartsWf(h, foundAt) && AuthorityText(h) == b
    ensures ScanHost(b, foundAt) == Some(h)
    decreases |b|
  {
    if h == NO_PARTS {
      assert AuthorityText(h) == "";
    } else {
      HostStepBack(h, foundAt);
      ScanHostComplete(Init(b), ChopHost(h), foundAt);
    }
  }

  /** The second pass survives exactly on the texts of well-formed parts, each cut in one way. */
  lemma ScanHostExact(b: string, h: Parts, foundAt: bool)
    ensures ScanHost(b, foundAt) == Some(h) <==> PartsWf(h, foundAt) && AuthorityText(h) == b
  {
    if ScanHost(b, foundAt) == Some(h) {
      ScanHostSound(b, h, foundAt);
    }
    if PartsWf(h, foundAt) && AuthorityText(h) == b {
      ScanHostComplete(b, h, foundAt);
    }
  }

  /** The parts of an authority at whose end the second pass may stop. */
  predicate Complete(h: Parts) {
    && h.name != ""
    && (h.open ==> h.closed)
    && (h.colon ==> h.port != "")
  }

  lemma MayEndExact(h: Parts, foundAt: bool)
    requires PartsWf(h, foundAt)
    ensures MayEnd(HostStateOf(h, foundAt)) <==> Complete(h)
  {
  }

  /** Characters that the second automaton accepts are characters of the first, and only the
      `at` part is an `@`. */
  lemma HostTextChars(h: Parts, foundAt: bool)
    requires PartsWf(h, foundAt)
    ensures All(ServerChars, HostText(h)) && '@' !in HostText(h)
  {
  }

  lemma PortTextChars(h: Parts, foundAt: bool)
    requires PartsWf(h, foundAt)
    ensures All(ServerChars, PortText(h)) && '@' !in PortText(h)
  {
  }

  lemma UserTextChars(h: Parts, foundAt: bool)
    requires PartsWf(h, foundAt)
    ensures All(ServerChars, UserText(h)) && '@' !in h.user
  {
  }

  /** Every authority the second automaton accepts is also accepted by the first one: its
      characters are authority characters and it has at most one `@`. */
  lemma HostWithinServer(h: Parts, foundAt: bool)
    requires PartsWf(h, foundAt)
    ensures All(ServerChars, AuthorityText(h))
    ensures NoDoubleAt(AuthorityText(h))
    ensures '@' in AuthorityText(h) <==> h.at
    ensures forall i, j :: 0 <= i < j < |AuthorityText(h)| ==> !(AuthorityText(h)[i] == '@' && AuthorityText(h)[j] == '@')
  {
    HostTextChars(h, foundAt);
    PortTextChars(h, foundAt);
    UserTextChars(h, foundAt);
    AllConcat(ServerChars, UserText(h), HostText(h));
    AllConcat(ServerChars, UserText(h) + HostText(h), PortText(h));
    var t := AuthorityText(h);
    assert forall i :: 0 <= i < |t| && t[i] == '@' ==> i == |h.user| && h.at;
    assert h.at ==> t[|h.user|] == '@';
  }
}
