/** The parser as it runs: two loops over the buffer that update the caller's record in place.
    (nghttp2_test/client/url-parser/url_parser.c:444-652) */
module UrlParser {
  import opened Options
  import opened UrlChars
  import opened UrlGrammar
  import opened UrlParse
  import opened UrlRuns
  import opened UrlFields
  import Scan = UrlScan
  import Host = UrlHost

  /** Offsets and lengths are 16 bits wide. */
  const MAX_LENGTH := 0xFFFF

  type uint16 = x: int | 0 <= x <= 0xFFFF

  /** `struct http_parser_url`. The runs of fields outside `fieldSet` are left over from earlier use. */
  class UrlRecord {
    var fieldSet: set<UrlField>
    var port: uint16
    var fieldData: map<UrlField, Run>

    /** The record holds exactly the runs of `l`. */
    ghost predicate Holds(l: Layout)
      reads this
    {
      forall f: UrlField ::
        && (f in fieldSet <==> l.Get(f).Some?)
        && (f in fieldSet ==> f in fieldData && fieldData[f] == l.Get(f).value)
    }

    constructor ()
      ensures fieldSet == {} && port == 0
    {
      fieldSet, port, fieldData := {}, 0, map[];
    }

    method SetRun(f: UrlField, off: uint16, len: uint16, ghost l: Layout)
      requires Holds(l)
      modifies this`fieldSet, this`fieldData
      ensures Holds(l.Set(f, Run(off, len)))
    {
      fieldData := fieldData[f := Run(off, len)];
      fieldSet := fieldSet + {f};
    }

    method Lengthen(f: UrlField, ghost l: Layout)
      requires Holds(l) && f in fieldSet && fieldData[f].len < MAX_LENGTH
      modifies this`fieldData
      ensures Holds(l.Set(f, Run(l.Get(f).value.off, l.Get(f).value.len + 1)))
    {
      fieldData := fieldData[f := Run(fieldData[f].off, fieldData[f].len + 1)];
    }
  }

  // ----- port digits

  lemma DecimalPrefix(s: string, k: nat)
    requires All(Digits, s) && k <= |s|
    ensures Decimal(s[..k]) <= Decimal(s)
    decreases |s|
  {
    if k < |s| {
      assert s[..k] == Init(s)[..k];
      DecimalPrefix(Init(s), k);
    } else {
      assert s[..k] == s;
    }
  }

  /** The early exit at the first prefix above 65535 agrees with the value of the whole string. */
  method ReadPort(buf: string, off: nat, len: nat) returns (status: int, v: nat)
    requires off + len <= |buf| && All(Digits, buf[off..off + len])
    ensures status == 0 || status == 1
    ensures status == 0 <==> Decimal(buf[off..off + len]) <= 0xFFFF
    ensures status == 0 ==> v == Decimal(buf[off..off + len])
  {
    ghost var digits := buf[off..off + len];
    v := 0;
    var i := off;
    while i < off + len
      invariant off <= i <= off + len
      invariant All(Digits, digits[..i - off]) && v == Decimal(digits[..i - off])
      invariant v <= 0xFFFF
    {
      ghost var k := i - off;
      assert buf[i] == digits[k];
      assert Init(digits[..k + 1]) == digits[..k];
      v := v * 10 + Digit(buf[i]);
      if v > 0xFFFF {
        DecimalPrefix(digits, k + 1);
        return 1, v;
      }
      i := i + 1;
    }
    assert digits[..len] == digits;
    return 0, v;
  }

  // ----- second pass

  predicate Room(r: Option<Run>) {
    r.Some? ==> r.value.len < MAX_LENGTH
  }

  /** Adds one character to the HOST run, which restarts at its first character. */
  method RecordHostName(u: UrlRecord, first: bool, at: uint16, ghost l: Layout)
    requires u.Holds(l) && l.host.Some? && Room(l.host)
    modifies u`fieldSet, u`fieldData
    ensures u.Holds(l.(host := if first then Restart(l.host, at) else Longer(l.host)))
  {
    assert HostField in u.fieldSet && u.fieldData[HostField] == l.Get(HostField).value;
    if first {
      u.SetRun(HostField, at, u.fieldData[HostField].len + 1, l);
    } else {
      u.Lengthen(HostField, l);
    }
  }

  /** Adds one character to the run of PORT or USERINFO, which starts at its first character. */
  method RecordField(u: UrlRecord, f: UrlField, first: bool, at: uint16, ghost l: Layout)
    requires u.Holds(l) && (first || (l.Get(f).Some? && Room(l.Get(f))))
    modifies u`fieldSet, u`fieldData
    ensures u.Holds(l.Set(f, if first then Run(at, 1) else Run(l.Get(f).value.off, l.Get(f).value.len + 1)))
  {
    if first {
      u.SetRun(f, at, 1, l);
    } else {
      u.Lengthen(f, l);
    }
  }

  /** Records one character of the authority. */
  method RecordHost(u: UrlRecord, s: Host.HostState, next: Host.HostState, at: uint16, ghost l: Layout, ghost l': Layout)
    requires u.Holds(l) && l.host.Some? && l' == RecordHostChar(l, s, next, at)
    requires s == next == Host.Port ==> l.port.Some?
    requires s == next == Host.Userinfo ==> l.userinfo.Some?
    requires Room(l.host) && Room(l.port) && Room(l.userinfo)
    modifies u`fieldSet, u`fieldData
    ensures u.Holds(l')
  {
    match next
    case HostName => RecordHostName(u, s != Host.HostName, at, l);
    case HostV6 => RecordHostName(u, s != Host.HostV6, at, l);
    case HostV6ZoneStart => RecordHostName(u, false, at, l);
    case HostV6Zone => RecordHostName(u, false, at, l);
    case Port => RecordField(u, PortField, s != Host.Port, at, l);
    case Userinfo => RecordField(u, UserinfoField, s != Host.Userinfo, at, l);
    case _ =>
  }

  lemma PartsRoom(l: Layout, base: nat, h: Host.Parts, foundAt: bool)
    requires Host.PartsOrder(h, foundAt) && |Host.AuthorityText(h)| < MAX_LENGTH
    ensures var r := PartsLayout(l, base, h);
            && r.host.Some? && Room(r.host) && Room(r.port) && Room(r.userinfo)
            && (Host.HostStateOf(h, foundAt) == Host.Port ==> r.port.Some?)
            && (Host.HostStateOf(h, foundAt) == Host.Userinfo ==> r.userinfo.Some?)
  {
  }

  lemma ScanHostNext(server: string, k: nat, foundAt: bool)
    requires k < |server|
    ensures var r := Host.ScanHost(server[..k], foundAt);
            Host.ScanHost(server[..k + 1], foundAt)
            == if r.None? then None else Host.HostStep(r.value, server[k], foundAt)
  {
    assert Init(server[..k + 1]) == server[..k];
  }

  /** A dead prefix stays dead. */
  lemma {:induction false} ScanHostStuck(server: string, k: nat, foundAt: bool)
    requires k <= |server| && Host.ScanHost(server[..k], foundAt).None?
    ensures Host.ScanHost(server, foundAt).None?
    decreases |server| - k
  {
    if k < |server| {
      ScanHostNext(server, k, foundAt);
      ScanHostStuck(server, k + 1, foundAt);
    } else {
      assert server[..k] == server;
    }
  }

  /** The second pass has cut the first `k` characters of `server` into `h`, recorded the runs `cur`
      and is in state `s`. */
  ghost predicate HostRead(cur: Layout, l: Layout, base: nat, server: string, k: nat, foundAt: bool, h: Host.Parts,
                           s: Host.HostState)
  {
    && k <= |server|
    && s == Host.HostStateOf(h, foundAt)
    && Host.ScanHost(server[..k], foundAt) == Some(h)
    && cur == PartsLayout(l, base, h)
  }

  lemma HostScanWf(server: string, k: nat, foundAt: bool, h: Host.Parts)
    requires k <= |server| && Host.ScanHost(server[..k], foundAt) == Some(h)
    ensures Host.PartsWf(h, foundAt) && |Host.AuthorityText(h)| == k
  {
    Host.ScanHostExact(server[..k], h, foundAt);
  }

  lemma HostScanDies(server: string, k: nat, foundAt: bool, h: Host.Parts)
    requires k < |server| && Host.ScanHost(server[..k], foundAt) == Some(h)
    requires Host.HostStep(h, server[k], foundAt).None?
    ensures Host.ScanHost(server, foundAt).None?
  {
    ScanHostNext(server, k, foundAt);
    ScanHostStuck(server, k + 1, foundAt);
  }

  lemma HostScanLives(server: string, k: nat, foundAt: bool, h: Host.Parts, h': Host.Parts)
    requires k < |server| && Host.ScanHost(server[..k], foundAt) == Some(h)
    requires Host.HostStep(h, server[k], foundAt) == Some(h')
    ensures Host.ScanHost(server[..k + 1], foundAt) == Some(h')
  {
    ScanHostNext(server, k, foundAt);
  }

  /** What one live character does to the runs and to the state. */
  lemma HostRunsNext(l: Layout, base: nat, h: Host.Parts, h': Host.Parts, s: Host.HostState, next: Host.HostState,
                     ch: char, at: nat, foundAt: bool)
    requires Host.PartsWf(h, foundAt) && at == base + |Host.AuthorityText(h)|
    requires s == Host.HostStateOf(h, foundAt) && next == Host.ParseHostChar(s, ch) != Host.HostDead
    requires h' == Host.ExtendHost(h, next, ch)
    ensures RecordHostChar(PartsLayout(l, base, h), s, next, at) == PartsLayout(l, base, h')
    ensures next == Host.HostStateOf(h', foundAt)
  {
    HostCharRecorded(l, base, h, ch, foundAt);
    Host.ExtendHostState(h, ch, foundAt);
  }

  /** What the second pass works on: the runs of the first pass, where HOST starts, its text and whether
      it holds an `@`. */
  datatype HostPass = HostPass(first: Layout, base: nat, server: string, foundAt: bool)

  lemma HostReadRoom(c: HostPass, cur: Layout, k: nat, h: Host.Parts, s: Host.HostState)
    requires k < |c.server| <= MAX_LENGTH && HostRead(cur, c.first, c.base, c.server, k, c.foundAt, h, s)
    ensures cur.host.Some? && Room(cur.host) && Room(cur.port) && Room(cur.userinfo)
    ensures s == Host.Port ==> cur.port.Some?
    ensures s == Host.Userinfo ==> cur.userinfo.Some?
  {
    HostScanWf(c.server, k, c.foundAt, h);
    PartsRoom(c.first, c.base, h, c.foundAt);
  }

  /** Where the run of HOST found by the first pass is. */
  ghost predicate HostRun(l: Layout, buf: string, base: nat, server: string) {
    && l.host == Some(Run(base, |server|))
    && base + |server| <= |buf|
    && buf[base..base + |server|] == server
    && l.userinfo.None? && l.port.None?
  }

  lemma HostReadStart(l: Layout, base: nat, server: string, foundAt: bool, cur: Layout)
    requires l.host.Some? && l.userinfo.None? && l.port.None? && cur == l.Set(HostField, Run(base, 0))
    ensures HostRead(cur, l, base, server, 0, foundAt, Host.NO_PARTS,
                     if foundAt then Host.UserinfoStart else Host.HostStart)
  {
    assert server[..0] == "";
  }

  lemma HostEnd(server: string, foundAt: bool, h: Host.Parts)
    requires Host.ScanHost(server[..|server|], foundAt) == Some(h)
    ensures Host.ScanHost(server, foundAt) == Some(h)
    ensures Host.MayEnd(Host.HostStateOf(h, foundAt)) <==> Host.Complete(h)
  {
    assert server[..|server|] == server;
    Host.ScanHostExact(server, h, foundAt);
    Host.MayEndExact(h, foundAt);
  }

  /** The ghost side of one live round of the loop. */
  lemma HostRound(c: HostPass, cur: Layout, k: nat, h: Host.Parts, s: Host.HostState, next: Host.HostState, at: nat)
    returns (cur': Layout, h': Host.Parts)
    requires at == c.base + k
    requires k < |c.server| <= MAX_LENGTH && HostRead(cur, c.first, c.base, c.server, k, c.foundAt, h, s)
    requires next == Host.ParseHostChar(s, c.server[k]) != Host.HostDead
    ensures HostRead(cur', c.first, c.base, c.server, k + 1, c.foundAt, h', next)
    ensures cur' == RecordHostChar(cur, s, next, at)
  {
    cur' := RecordHostChar(cur, s, next, at);
    h' := Host.ExtendHost(h, next, c.server[k]);
    HostScanWf(c.server, k, c.foundAt, h);
    HostScanLives(c.server, k, c.foundAt, h, h');
    HostRunsNext(c.first, c.base, h, h', s, next, c.server[k], at, c.foundAt);
  }

  /** One round of the loop of the second pass. */
  method HostAdvance(u: UrlRecord, s: Host.HostState, ch: char, at: uint16,
                     ghost c: HostPass, ghost cur: Layout, ghost k: nat, ghost h: Host.Parts)
    returns (next: Host.HostState, ghost cur': Layout, ghost h': Host.Parts)
    requires k < |c.server| <= MAX_LENGTH && at == c.base + k && ch == c.server[k]
    requires HostRead(cur, c.first, c.base, c.server, k, c.foundAt, h, s) && u.Holds(cur)
    modifies u`fieldSet, u`fieldData
    ensures next == Host.HostDead ==> Host.ScanHost(c.server, c.foundAt).None?
    ensures next != Host.HostDead ==> HostRead(cur', c.first, c.base, c.server, k + 1, c.foundAt, h', next) && u.Holds(cur')
  {
    next := Host.ParseHostChar(s, ch);
    cur', h' := cur, h;
    if next == Host.HostDead {
      HostScanDies(c.server, k, c.foundAt, h);
    } else {
      HostReadRoom(c, cur, k, h, s);
      cur', h' := HostRound(c, cur, k, h, s, next, at);
      RecordHost(u, s, next, at, cur, cur');
    }
  }

  /** A character of a text that lies in the buffer. */
  lemma CharAt(buf: string, start: nat, end: nat, server: string, i: nat, k: nat)
    requires end == start + |server| <= |buf| && buf[start..end] == server && i == start + k < end
    ensures buf[i] == server[k]
  {
  }

  /** The loop of the second pass. */
  method HostLoop(buf: string, u: UrlRecord, start: nat, end: nat, foundAt: bool, first: Host.HostState,
                  ghost l: Layout, ghost server: string, ghost cur0: Layout)
    returns (s: Host.HostState, ghost cur: Layout, ghost h: Host.Parts, ghost k: nat)
    requires end == start + |server| <= |buf| <= MAX_LENGTH && buf[start..end] == server
    requires HostRead(cur0, l, start, server, 0, foundAt, Host.NO_PARTS, first) && u.Holds(cur0)
    modifies u`fieldSet, u`fieldData
    ensures s == Host.HostDead ==> Host.ScanHost(server, foundAt).None?
    ensures s != Host.HostDead ==> k == |server| && HostRead(cur, l, start, server, k, foundAt, h, s) && u.Holds(cur)
  {
    var i := start;
    s, cur, h, k := first, cur0, Host.NO_PARTS, 0;
    while i < end
      invariant i == start + k <= end
      invariant HostRead(cur, l, start, server, k, foundAt, h, s)
      invariant u.Holds(cur)
    {
      CharAt(buf, start, end, server, i, k);
      s, cur, h := HostAdvance(u, s, buf[i], i, HostPass(l, start, server, foundAt), cur, k, h);
      if s == Host.HostDead {
        return;
      }
      i, k := i + 1, k + 1;
    }
  }

  /** The second pass: it accepts exactly the complete authorities, shrinks the HOST run and carves
      USERINFO and PORT out of it. */
  method ParseHost(buf: string, u: UrlRecord, foundAt: bool, ghost l: Layout, ghost base: nat, ghost server: string)
    returns (status: int, ghost cur: Layout)
    requires |buf| <= MAX_LENGTH
    requires u.Holds(l) && HostRun(l, buf, base, server)
    modifies u`fieldSet, u`fieldData
    ensures status == 0 || status == 1
    ensures var r := Host.ScanHost(server, foundAt);
            && (status == 0 <==> r.Some? && Host.Complete(r.value))
            && (status == 0 ==> u.Holds(cur) && cur == PartsLayout(l, base, r.value))
  {
    assert HostField in u.fieldSet && u.fieldData[HostField] == l.host.value;
    var i := u.fieldData[HostField].off;
    var end := i + u.fieldData[HostField].len;
    u.SetRun(HostField, i, 0, l);
    cur := l.Set(HostField, Run(i, 0));
    HostReadStart(l, base, server, foundAt, cur);
    var s;
    ghost var h, k;
    s, cur, h, k := HostLoop(buf, u, i, end, foundAt, if foundAt then Host.UserinfoStart else Host.HostStart, l, server, cur);
    if s == Host.HostDead {
      return 1, cur;
    }
    HostEnd(server, foundAt, h);
    status := if Host.MayEnd(s) then 0 else 1;
  }

  // ----- first pass

  lemma ScanNext(b: string, k: nat, connect: bool)
    requires k < |b|
    ensures var r := Scan.Scan(b[..k], connect);
            Scan.Scan(b[..k + 1], connect)
            == if r.None? then None else Scan.Step(r.value, b[k], connect)
  {
    assert Init(b[..k + 1]) == b[..k];
  }

  lemma DeadNext(b: string, k: nat, connect: bool, longer: string)
    requires k < |b| && Scan.Scan(b[..k], connect).None? && longer == b[..k + 1]
    ensures Scan.Scan(longer, connect).None?
  {
    ScanNext(b, k, connect);
  }

  lemma {:induction false} ScanStuck(b: string, k: nat, connect: bool)
    requires k <= |b| && Scan.Scan(b[..k], connect).None?
    ensures Scan.Scan(b, connect).None?
    decreases |b| - k
  {
    if k < |b| {
      DeadNext(b, k, connect, b[..k + 1]);
      ScanStuck(b, k + 1, connect);
    } else {
      assert b[..k] == b;
    }
  }

  /** The first pass has cut the first `k` characters of the buffer into `p` and recorded the runs `cur`. */
  ghost predicate UrlRead(cur: Layout, b: string, k: nat, connect: bool, p: Scan.Pieces) {
    && k <= |b|
    && Scan.Scan(b[..k], connect) == Some(p)
    && cur == FirstLayout(p)
  }

  /** One character of the first pass, as the end of its loop body records it. */
  function RecordUrlChar(l: Layout, lastUf: Option<UrlField>, next: Scan.UrlState, at: nat): Layout {
    match FieldOf(next)
    case None => l
    case Some(f) =>
      if lastUf == Some(f) && l.Get(f).Some? then l.Set(f, Run(l.Get(f).value.off, l.Get(f).value.len + 1))
      else l.Set(f, Run(at, 1))
  }

  lemma UrlScanWf(b: string, k: nat, connect: bool, p: Scan.Pieces)
    requires k <= |b| && Scan.Scan(b[..k], connect) == Some(p)
    ensures Scan.Wf(p, connect) && |Scan.Text(p)| == k
  {
    Scan.ScanExact(b[..k], p, connect);
  }

  lemma UrlScanDies(b: string, k: nat, connect: bool, p: Scan.Pieces)
    requires k < |b| && Scan.Scan(b[..k], connect) == Some(p) && Scan.Step(p, b[k], connect).None?
    ensures Scan.Scan(b, connect).None?
  {
    ScanNext(b, k, connect);
    ScanStuck(b, k + 1, connect);
  }

  lemma UrlScanLives(b: string, k: nat, connect: bool, p: Scan.Pieces, p': Scan.Pieces)
    requires k < |b| && Scan.Scan(b[..k], connect) == Some(p) && Scan.Step(p, b[k], connect) == Some(p')
    ensures Scan.Scan(b[..k + 1], connect) == Some(p')
  {
    ScanNext(b, k, connect);
  }

  lemma UrlRunsNext(p: Scan.Pieces, next: Scan.UrlState, ch: char, at: nat, connect: bool)
    requires Scan.Wf(p, connect) && next == Scan.ParseUrlChar(Scan.StateOf(p, connect), ch) != Scan.Dead
    requires at == |Scan.Text(p)|
    ensures RecordUrlChar(FirstLayout(p), LastField(p), next, at) == FirstLayout(Scan.Extend(p, next, ch))
    ensures LastField(Scan.Extend(p, next, ch)) == if FieldOf(next).None? then LastField(p) else FieldOf(next)
  {
    Scan.ExtendAppends(p, ch, connect);
    if FieldOf(next).None? {
      DelimiterKeepsRuns(p, next, ch, connect);
    } else {
      PieceExtendsRun(p, next, ch, connect);
    }
  }

  /** The ghost side of one live round of the loop. */
  lemma UrlRound(cur: Layout, b: string, k: nat, connect: bool, p: Scan.Pieces, s: Scan.UrlState,
                 next: Scan.UrlState, ch: char)
    returns (cur': Layout, p': Scan.Pieces)
    requires k < |b| && UrlRead(cur, b, k, connect, p) && s == Scan.StateOf(p, connect) && ch == b[k]
    requires next == Scan.ParseUrlChar(s, ch) != Scan.Dead
    ensures UrlRead(cur', b, k + 1, connect, p')
    ensures next == Scan.StateOf(p', connect)
    ensures cur' == RecordUrlChar(cur, LastField(p), next, k)
    ensures LastField(p') == if FieldOf(next).None? then LastField(p) else FieldOf(next)
    ensures '@' in p'.server <==> '@' in p.server || next == Scan.ServerWithAt
  {
    p' := Scan.Extend(p, next, ch);
    cur' := RecordUrlChar(cur, LastField(p), next, k);
    UrlScanWf(b, k, connect, p);
    UrlScanLives(b, k, connect, p, p');
    UrlRunsNext(p, next, ch, k, connect);
    Scan.ExtendState(p, ch, connect);
    AtNoticed(p, next, ch, connect);
  }

  lemma AtNoticed(p: Scan.Pieces, next: Scan.UrlState, ch: char, connect: bool)
    requires next == Scan.ParseUrlChar(Scan.StateOf(p, connect), ch)
    ensures '@' in Scan.Extend(p, next, ch).server <==> '@' in p.server || next == Scan.ServerWithAt
  {
    if next in {Scan.Server, Scan.ServerWithAt} {
      assert Scan.Extend(p, next, ch).server == p.server + [ch];
      assert (p.server + [ch])[|p.server|] == ch;
      assert next == Scan.ServerWithAt <==> ch == '@';
    }
  }

  lemma UrlRoom(p: Scan.Pieces, f: UrlField, connect: bool)
    requires Scan.WfOrder(p, connect) && |Scan.Text(p)| < MAX_LENGTH
    ensures Room(FirstLayout(p).Get(f))
    ensures LastField(p) == Some(f) ==> FirstLayout(p).Get(f).Some?
  {
  }

  /** Records one character of the first pass. */
  method RecordUrl(u: UrlRecord, lastUf: Option<UrlField>, next: Scan.UrlState, at: uint16, ghost l: Layout, ghost l': Layout)
    returns (uf: Option<UrlField>)
    requires u.Holds(l) && l' == RecordUrlChar(l, lastUf, next, at)
    requires lastUf.Some? ==> l.Get(lastUf.value).Some? && Room(l.Get(lastUf.value))
    modifies u`fieldSet, u`fieldData
    ensures u.Holds(l')
    ensures uf == if FieldOf(next).None? then lastUf else FieldOf(next)
  {
    uf := FieldOf(next);
    if uf.None? {
      return lastUf;
    }
    RecordField(u, uf.value, uf != lastUf, at, l);
  }

  /** The first pass over the whole buffer. */
  method ScanUrl(buf: string, connect: bool, u: UrlRecord)
    returns (status: int, foundAt: bool, ghost p: Scan.Pieces)
    requires |buf| <= MAX_LENGTH
    requires u.fieldSet == {}
    modifies u`fieldSet, u`fieldData
    ensures status == 0 || status == 1
    ensures status == 0 <==> Scan.Scan(buf, connect).Some?
    ensures status == 0 ==>
              && Scan.Scan(buf, connect) == Some(p)
              && u.Holds(FirstLayout(p))
              && foundAt == ('@' in p.server)
  {
    var s := if connect then Scan.ServerStart else Scan.SpacesBeforeUrl;
    var lastUf: Option<UrlField> := None;
    var i := 0;
    foundAt := false;
    p := Scan.NOTHING;
    ghost var cur := FirstLayout(p);
    while i < |buf|
      invariant i <= |buf|
      invariant UrlRead(cur, buf, i, connect, p)
      invariant s == Scan.StateOf(p, connect) && lastUf == LastField(p) && foundAt == ('@' in p.server)
      invariant u.Holds(cur)
    {
      var next := Scan.ParseUrlChar(s, buf[i]);
      if next == Scan.Dead {
        UrlScanDies(buf, i, connect, p);
        return 1, foundAt, p;
      }
      UrlReadRoom(cur, buf, i, connect, p);
      ghost var cur', p' := UrlRound(cur, buf, i, connect, p, s, next, buf[i]);
      foundAt := foundAt || next == Scan.ServerWithAt;
      lastUf := RecordUrl(u, lastUf, next, i, cur, cur');
      s := next;
      cur, p := cur', p';
      i := i + 1;
    }
    assert buf[..|buf|] == buf;
    status := 0;
  }

  lemma UrlReadRoom(cur: Layout, b: string, k: nat, connect: bool, p: Scan.Pieces)
    requires k < |b| <= MAX_LENGTH && UrlRead(cur, b, k, connect, p)
    ensures LastField(p).Some? ==> cur.Get(LastField(p).value).Some? && Room(cur.Get(LastField(p).value))
  {
    UrlScanWf(b, k, connect, p);
    if LastField(p).Some? {
      UrlRoom(p, LastField(p).value, connect);
    }
  }

  // ----- the whole parser

  /** The tree read by both passes, before the port and CONNECT tests. */
  function Candidate(p: Scan.Pieces, a: Authority, connect: bool): Target {
    if connect then Connect(a, TailOf(p)) else Absolute(p.scheme, a, TailOf(p))
  }

  lemma CandidateRead(p: Scan.Pieces, h: Host.Parts, connect: bool)
    requires Scan.Wf(p, connect) && p.server != ""
    requires Host.ScanHost(p.server, '@' in p.server) == Some(h) && Host.Complete(h)
    ensures var a := AuthorityOf(h);
            && ParseAuthority(p.server) == Some(a)
            && ValidAuthority(a) && PartsOf(a) == h
            && TargetPieces(Candidate(p, a, connect)) == p
  {
    Host.ScanHostExact(p.server, h, '@' in p.server);
    PartsRoundTrip(h, '@' in p.server);
    ParseAuthorityExact(p.server, AuthorityOf(h));
    TailOfValid(p, connect);
  }

  lemma CandidateLayout(p: Scan.Pieces, a: Authority, connect: bool)
    requires ValidAuthority(a) && p == TargetPieces(Candidate(p, a, connect))
    ensures PartsLayout(FirstLayout(p), |p.scheme| + p.slashes, PartsOf(a)) == LayoutOf(Candidate(p, a, connect))
  {
    FinalLayout(Candidate(p, a, connect));
  }

  lemma ServerIsHostRun(buf: string, p: Scan.Pieces, connect: bool)
    requires Scan.Wf(p, connect) && Scan.Text(p) == buf && p.server != ""
    ensures HostRun(FirstLayout(p), buf, |p.scheme| + p.slashes, p.server)
  {
    var front := p.scheme + Scan.COLON_SLASH_SLASH[..p.slashes];
    assert buf == front + p.server + Scan.TailText(p);
    SliceMiddle(front, p.server, Scan.TailText(p));
  }

  /** The run of PORT holds the digits of the port. */
  ghost predicate PortRun(l: Layout, buf: string, port: Option<string>) {
    if port.None? then l.port.None?
    else
      && l.port.Some? && l.port.value.off + l.port.value.len <= |buf|
      && Slice(buf, l.port.value) == port.value
      && All(Digits, port.value)
  }

  lemma PortIsRun(t: Target)
    requires !t.Relative? && ValidAuthority(t.authority)
    ensures PortRun(LayoutOf(t), Print(t), t.authority.port)
  {
    if t.authority.port.Some? {
      assert LayoutOf(t).Get(PortField).Some?;
      FieldText(t, PortField);
    }
  }

  /** Reads the port of an accepted authority. */
  method FinishPort(buf: string, u: UrlRecord, ghost l: Layout, ghost port: Option<string>)
    returns (status: int)
    requires u.Holds(l) && PortRun(l, buf, port) && u.port == 0
    modifies u`port
    ensures status == 0 || status == 1
    ensures status == 0 <==> PortValue(port) <= 0xFFFF
    ensures status == 0 ==> u.port == PortValue(port)
    ensures u.Holds(l)
  {
    assert PortField in u.fieldSet <==> l.Get(PortField).Some?;
    status := 0;
    if PortField in u.fieldSet {
      var r := u.fieldData[PortField];
      var v;
      status, v := ReadPort(buf, r.off, r.len);
      if status == 0 {
        u.port := v;
      }
    }
  }

  lemma CandidateAccepted(p: Scan.Pieces, a: Authority, connect: bool)
    requires p.server != "" && ParseAuthority(p.server) == Some(a)
    ensures var t := Candidate(p, a, connect);
            Finish(p, connect)
            == if (connect ==> HostPortOnly(LayoutOf(t))) && PortValue(a.port) <= 0xFFFF then Some(t) else None
  {
  }

  /** Everything the rest of the parser needs to know about the tree read by the second pass. */
  lemma CandidateOutcome(p: Scan.Pieces, h: Host.Parts, connect: bool, l: Layout)
    returns (t: Target, port: Option<string>)
    requires Scan.Wf(p, connect) && p.server != ""
    requires Host.ScanHost(p.server, '@' in p.server) == Some(h) && Host.Complete(h)
    requires l == PartsLayout(FirstLayout(p), |p.scheme| + p.slashes, h)
    ensures l == LayoutOf(t) && PortRun(l, Scan.Text(p), port) && PortNumber(t) == PortValue(port)
    ensures Finish(p, connect)
            == if (connect ==> HostPortOnly(l)) && PortValue(port) <= 0xFFFF then Some(t) else None
  {
    var a := AuthorityOf(h);
    t, port := Candidate(p, a, connect), a.port;
    CandidateRead(p, h, connect);
    CandidateLayout(p, a, connect);
    CandidateAccepted(p, a, connect);
    TargetTextIsPrint(t);
    PortIsRun(t);
  }

  lemma HostPortSet(u: UrlRecord, l: Layout)
    requires u.Holds(l)
    ensures u.fieldSet == {HostField, PortField} <==> HostPortOnly(l)
  {
    assert forall f: UrlField :: f in u.fieldSet <==> l.Get(f).Some?;
    assert HostPortOnly(l) <==> forall f: UrlField :: l.Get(f).Some? <==> f in {HostField, PortField} by {
      assert l.Get(SchemaField) == l.schema && l.Get(UserinfoField) == l.userinfo && l.Get(HostField) == l.host;
      assert l.Get(PortField) == l.port && l.Get(PathField) == l.path && l.Get(QueryField) == l.query;
      assert l.Get(FragmentField) == l.fragment;
    }
  }

  /** The CONNECT test and the port. */
  method FinishFields(buf: string, connect: bool, u: UrlRecord, ghost l: Layout, ghost port: Option<string>)
    returns (status: int)
    requires u.Holds(l) && PortRun(l, buf, port) && u.port == 0
    modifies u`port
    ensures status == 0 || status == 1
    ensures status == 0 <==> (connect ==> HostPortOnly(l)) && PortValue(port) <= 0xFFFF
    ensures status == 0 ==> u.port == PortValue(port)
    ensures u.Holds(l)
  {
    HostPortSet(u, l);
    if connect && u.fieldSet != {HostField, PortField} {
      return 1;
    }
    status := FinishPort(buf, u, l, port);
  }

  /** The status and the record report the result `r`: 0 with the printer's offsets, lengths and port
      number of the tree, or 1. */
  ghost predicate Reports(u: UrlRecord, status: int, r: Option<Target>)
    reads u
  {
    match r
    case None => status == 1
    case Some(t) => status == 0 && u.Holds(LayoutOf(t)) && u.port == PortNumber(t)
  }


  lemma NoAuthority(p: Scan.Pieces, connect: bool)
    requires p.server != ""
    requires var r := Host.ScanHost(p.server, '@' in p.server); r.None? || !Host.Complete(r.value)
    ensures Finish(p, connect).None?
  {
  }

  lemma NoServerOutcome(p: Scan.Pieces, connect: bool)
    returns (t: Target)
    requires Scan.Wf(p, connect) && p.server == "" && Scan.Text(p) != ""
    ensures connect || p.scheme != "" ==> Finish(p, connect).None?
    ensures !connect && p.scheme == "" ==>
              Finish(p, connect) == Some(t) && FirstLayout(p) == LayoutOf(t) && t.Relative?
    ensures PortNumber(t) == 0
  {
    t := Relative(TailOf(p));
    if !connect && p.scheme == "" {
      FinishSound(p, t, connect);
      FinalLayout(t);
    }
  }

  /** The CONNECT test and the port decide over the tree `t` that was read. */
  method FinishTree(buf: string, connect: bool, u: UrlRecord, ghost l: Layout, ghost port: Option<string>,
                    ghost t: Target, ghost r: Option<Target>)
    returns (status: int)
    requires u.Holds(l) && PortRun(l, buf, port) && u.port == 0
    requires l == LayoutOf(t) && PortNumber(t) == PortValue(port)
    requires r == if (connect ==> HostPortOnly(l)) && PortValue(port) <= 0xFFFF then Some(t) else None
    modifies u`port
    ensures Reports(u, status, r)
  {
    status := FinishFields(buf, connect, u, l, port);
  }

  /** The authority `h` has been read and its runs recorded. */
  ghost predicate AuthorityRead(p: Scan.Pieces, connect: bool, h: Host.Parts, l: Layout) {
    && Scan.Wf(p, connect) && p.server != ""
    && Host.ScanHost(p.server, '@' in p.server) == Some(h) && Host.Complete(h)
    && l == PartsLayout(FirstLayout(p), |p.scheme| + p.slashes, h)
  }

  /** CONNECT test and port of a buffer whose authority has been read. */
  method FinishParsed(buf: string, connect: bool, u: UrlRecord, ghost p: Scan.Pieces, ghost h: Host.Parts, ghost l: Layout)
    returns (status: int)
    requires AuthorityRead(p, connect, h, l) && Scan.Text(p) == buf
    requires u.Holds(l) && u.port == 0
    modifies u`port
    ensures Reports(u, status, Finish(p, connect))
  {
    ghost var t, port := CandidateOutcome(p, h, connect, l);
    status := FinishTree(buf, connect, u, l, port, t, Finish(p, connect));
  }

  /** The second pass over the authority that the first one found. */
  method SecondPass(buf: string, connect: bool, u: UrlRecord, foundAt: bool, ghost p: Scan.Pieces)
    returns (status: int, ghost h: Host.Parts, ghost l: Layout)
    requires |buf| <= MAX_LENGTH
    requires Scan.Wf(p, connect) && Scan.Text(p) == buf && p.server != ""
    requires u.Holds(FirstLayout(p)) && foundAt == ('@' in p.server)
    modifies u`fieldSet, u`fieldData
    ensures status == 0 || status == 1
    ensures status == 1 ==> Finish(p, connect).None?
    ensures status == 0 ==> AuthorityRead(p, connect, h, l) && u.Holds(l)
  {
    ServerIsHostRun(buf, p, connect);
    status, l := ParseHost(buf, u, foundAt, FirstLayout(p), |p.scheme| + p.slashes, p.server);
    h := Host.NO_PARTS;
    if status != 0 {
      NoAuthority(p, connect);
    } else {
      h := Host.ScanHost(p.server, foundAt).value;
    }
  }

  /** Second pass, CONNECT test and port of a buffer with an authority. */
  method FinishAuthority(buf: string, connect: bool, u: UrlRecord, foundAt: bool, ghost p: Scan.Pieces)
    returns (status: int)
    requires |buf| <= MAX_LENGTH
    requires Scan.Wf(p, connect) && Scan.Text(p) == buf && p.server != ""
    requires u.Holds(FirstLayout(p)) && foundAt == ('@' in p.server) && u.port == 0
    modifies u
    ensures Reports(u, status, Finish(p, connect))
  {
    ghost var h, l;
    status, h, l := SecondPass(buf, connect, u, foundAt, p);
    if status == 0 {
      status := FinishParsed(buf, connect, u, p, h, l);
    }
  }

  /** A buffer without an authority. */
  method FinishBare(buf: string, connect: bool, u: UrlRecord, ghost p: Scan.Pieces)
    returns (status: int)
    requires Scan.Wf(p, connect) && Scan.Text(p) == buf != "" && p.server == ""
    requires u.Holds(FirstLayout(p)) && u.port == 0
    modifies u
    ensures Reports(u, status, Finish(p, connect))
  {
    ghost var t := NoServerOutcome(p, connect);
    var l := FirstLayout(p);
    assert l.Get(SchemaField) == l.schema && l.host.None?;
    if SchemaField in u.fieldSet {
      return 1;
    }
    status := FinishFields(buf, connect, u, l, None);
  }

  /** The record after the first pass tells whether there was an authority. */
  lemma FirstFields(u: UrlRecord, p: Scan.Pieces)
    requires u.Holds(FirstLayout(p))
    ensures HostField in u.fieldSet <==> p.server != ""
  {
    var l := FirstLayout(p);
    assert l.Get(HostField) == l.host;
  }

  lemma ParseIsFinish(buf: string, connect: bool, p: Scan.Pieces)
    requires buf != "" && Scan.Scan(buf, connect) == Some(p)
    ensures Scan.Wf(p, connect) && Scan.Text(p) == buf
    ensures Parse(buf, connect) == Finish(p, connect)
  {
    Scan.ScanExact(buf, p, connect);
  }

  /** What follows the first pass. */
  method FinishUrl(buf: string, connect: bool, u: UrlRecord, foundAt: bool, ghost p: Scan.Pieces)
    returns (status: int)
    requires |buf| <= MAX_LENGTH && Scan.Wf(p, connect) && Scan.Text(p) == buf != ""
    requires u.Holds(FirstLayout(p)) && foundAt == ('@' in p.server) && u.port == 0
    modifies u
    ensures Reports(u, status, Finish(p, connect))
  {
    FirstFields(u, p);
    if HostField in u.fieldSet {
      status := FinishAuthority(buf, connect, u, foundAt, p);
    } else {
      status := FinishBare(buf, connect, u, p);
    }
  }

  /** The URL parser: it returns 0 exactly on the texts of the grammar, and then the record holds
      the printer's offsets and lengths of every field, and the port number. */
  method ParseUrl(buf: string, connect: bool, u: UrlRecord)
    returns (status: int)
    requires |buf| <= MAX_LENGTH
    modifies u
    ensures Reports(u, status, Parse(buf, connect))
  {
    if |buf| == 0 {
      return 1;
    }
    u.port, u.fieldSet := 0, {};
    ghost var p;
    var foundAt;
    status, foundAt, p := ScanUrl(buf, connect, u);
    if status != 0 {
      return 1;
    }
    ParseIsFinish(buf, connect, p);
    status := FinishUrl(buf, connect, u, foundAt, p);
  }
}
