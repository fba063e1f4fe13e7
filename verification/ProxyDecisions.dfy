/** What the handlers decide, as relations between the table before, the answers of the environment and
    the table after, and that every run is a sequence of such steps in the order of the polls
    (Python/socks5/socks5_c-master/socks.c:105-208, 373-445; server.c:6-122; local.c:8-118). */
module ProxyDecisions {
  import opened Options
  import opened ProxyTable
  import opened ProxyInvariant
  import opened ProxySafety

  // ----- relations

  /** `s'` is `s` without its one entry `a`. */
  ghost predicate OneLess(s: seq<Addr>, s': seq<Addr>, a: Addr) {
    exists k :: 0 <= k < |s| && s[k] == a && s' == s[..k] + s[k + 1..]
  }

  /** Everything that belongs to neither connections nor remotes nor their descriptors is the same. */
  predicate SameRest(t: Table, t': Table) {
    t'.sockFd == t.sockFd && t'.maxFd == t.maxFd && t'.leaked == t.leaked
  }

  /** The connection is gone, its remote points nowhere, and nothing else has changed. */
  ghost predicate ConnClosed(t: Table, t': Table, c: Addr)
    requires c in t.connAt
  {
    && SameRest(t, t') && t'.connCount == t.connCount - 1 && t'.readSet == t.readSet - {t.connAt[c].fd}
    && OneLess(t.conns, t'.conns, c) && t'.remotes == t.remotes
    && (forall a :: a in t'.connAt <==> a in t.connAt && a != c)
    && (forall a :: a in t'.connAt ==> t'.connAt[a] == t.connAt[a])
    && (forall r :: r in t'.remoteAt <==> r in t.remoteAt)
    && (forall r :: r in t'.remoteAt ==>
          && t'.remoteAt[r].fd == t.remoteAt[r].fd
          && t'.remoteAt[r].connEntry == if t.remoteAt[r].connEntry == Some(c) then None else t.remoteAt[r].connEntry)
  }

  /** The remote is gone, its connection points nowhere, and nothing else has changed. */
  ghost predicate RemoteClosed(t: Table, t': Table, r: Addr)
    requires r in t.remoteAt
  {
    && SameRest(t, t') && t'.connCount == t.connCount && t'.readSet == t.readSet - {t.remoteAt[r].fd}
    && OneLess(t.remotes, t'.remotes, r) && t'.conns == t.conns
    && (forall a :: a in t'.remoteAt <==> a in t.remoteAt && a != r)
    && (forall a :: a in t'.remoteAt ==> t'.remoteAt[a] == t.remoteAt[a])
    && (forall c :: c in t'.connAt <==> c in t.connAt)
    && (forall c :: c in t'.connAt ==>
          && t'.connAt[c].fd == t.connAt[c].fd && t'.connAt[c].state == t.connAt[c].state
          && t'.connAt[c].remoteCount == t.connAt[c].remoteCount
          && t'.connAt[c].remote == if t.connAt[c].remote == Some(r) then None else t.connAt[c].remote)
  }

  /** A new connection is first on its list and watched, and nothing else has changed. */
  ghost predicate ConnAccepted(t: Table, t': Table, a: Addr, fd: int) {
    && t'.sockFd == t.sockFd && t'.leaked == t.leaked && t'.remotes == t.remotes && t'.remoteAt == t.remoteAt
    && t'.connCount == t.connCount + 1 && t'.conns == [a] + t.conns
    && t'.maxFd == (if fd > t.maxFd then fd else t.maxFd) && t'.readSet == t.readSet + {fd}
    && a !in t.connAt && (forall c :: c in t'.connAt <==> c in t.connAt || c == a)
    && (forall c :: c in t.connAt ==> t'.connAt[c] == t.connAt[c])
    && t'.connAt[a] == Conn(fd, Opening, 0, None)
  }

  /** A new remote is attached to the connection, which is now forwarding. */
  ghost predicate RemoteAttached(t: Table, t': Table, c: Addr, a: Addr, fd: int)
    requires c in t.connAt
  {
    && t'.sockFd == t.sockFd && t'.leaked == t.leaked && t'.connCount == t.connCount && t'.conns == t.conns
    && t'.remotes == [a] + t.remotes
    && t'.maxFd == (if fd > t.maxFd then fd else t.maxFd) && t'.readSet == t.readSet + {fd}
    && a !in t.remoteAt && (forall r :: r in t'.remoteAt <==> r in t.remoteAt || r == a)
    && (forall r :: r in t.remoteAt ==> t'.remoteAt[r] == t.remoteAt[r])
    && t'.remoteAt[a] == Remote(fd, Some(c))
    && (forall x :: x in t'.connAt <==> x in t.connAt)
    && (forall x :: x in t.connAt && x != c ==> t'.connAt[x] == t.connAt[x])
    && t'.connAt[c] == Conn(t.connAt[c].fd, Connecting, t.connAt[c].remoteCount + 1, Some(a))
  }

  // ----- decisions

  /** The request of the server side, or the handshake of the local side, goes wrong. */
  predicate OpeningFails(role: Role, e: Env) {
    if role.ServerSide? then !e.requestOk else e.helloLen <= 0 || e.version != 5 || e.replyLen != 2
  }

  /** Nothing could be read, or it could not be sent on for another reason than a full socket. */
  predicate ForwardingFails(e: Env) {
    e.readed <= 0 || (e.sent == -1 && !e.again)
  }

  /** When the connection handler frees its connection. */
  predicate ClosesConn(role: Role, t: Table, c: Addr, e: Env)
    requires c in t.connAt
  {
    if t.connAt[c].state.Opening? then OpeningFails(role, e) || e.newFd < 0
    else t.connAt[c].remote.None? || ForwardingFails(e)
  }

  /** When the remote handler frees its remote. */
  predicate ClosesRemote(t: Table, r: Addr, e: Env)
    requires r in t.remoteAt
  {
    t.remoteAt[r].connEntry.None? || ForwardingFails(e)
  }

  /** A connect that fails loses the block that was allocated for the remote. */
  predicate LosesBlock(role: Role, t: Table, c: Addr, e: Env)
    requires c in t.connAt
  {
    t.connAt[c].state.Opening? && !OpeningFails(role, e) && e.newFd < 0
  }

  ghost predicate ConnStep(role: Role, t: Table, c: Addr, e: Env, t': Table)
    requires c in t.connAt
  {
    if ClosesConn(role, t, c, e) then
      ConnClosed(if LosesBlock(role, t, c, e) then t.(leaked := t.leaked + {e.alloc}) else t, t', c)
    else if t.connAt[c].state.Opening? then RemoteAttached(t, t', c, e.alloc, e.newFd)
    else t' == t
  }

  ghost predicate RemoteStep(t: Table, r: Addr, e: Env, t': Table)
    requires r in t.remoteAt
  {
    if ClosesRemote(t, r, e) then RemoteClosed(t, t', r) else t' == t
  }

  ghost predicate AcceptStep(t: Table, e: Env, t': Table) {
    if e.newFd < 0 then t' == t else ConnAccepted(t, t', e.alloc, e.newFd)
  }

  /** One call of the event loop. */
  ghost predicate CallStep(role: Role, t: Table, x: Ctx, e: Env, t': Table)
    requires Live(t, x)
  {
    match x
    case ServerCtx => AcceptStep(t, e, t')
    case ConnCtx(c) => ConnStep(role, t, c, e, t')
    case RemoteCtx(r) => RemoteStep(t, r, e, t')
  }

  // ----- the handlers decide so

  lemma WithoutIsOneLess(s: seq<Addr>, a: Addr)
    requires a in s && Distinct(s)
    ensures OneLess(s, Without(s, a), a)
  {
    var k :| 0 <= k < |s| && s[k] == a;
    WithoutAt(s, k);
  }

  lemma DelConnCloses(t: Table, c: Addr)
    requires Core(t) && c in t.connAt
    ensures DelConn(t, c).Ok? && ConnClosed(t, DelConn(t, c).value, c)
  {
    DelConnUnlinks(t, c);
    WithoutIsOneLess(t.conns, c);
  }

  lemma DelConnUnlinks(t: Table, c: Addr)
    requires ListsOk(t) && LinksOk(t) && c in t.connAt
    ensures DelConn(t, c).Ok?
    ensures var t' := DelConn(t, c).value;
            && (forall r :: r in t'.remoteAt <==> r in t.remoteAt)
            && forall r :: r in t'.remoteAt ==>
                 && t'.remoteAt[r].fd == t.remoteAt[r].fd
                 && t'.remoteAt[r].connEntry
                    == if t.remoteAt[r].connEntry == Some(c) then None else t.remoteAt[r].connEntry
  {
  }

  lemma DelRemoteCloses(t: Table, r: Addr)
    requires Core(t) && r in t.remoteAt
    ensures DelRemote(t, r).Ok? && RemoteClosed(t, DelRemote(t, r).value, r)
  {
    DelRemoteUnlinks(t, r);
    WithoutIsOneLess(t.remotes, r);
  }

  lemma DelRemoteUnlinks(t: Table, r: Addr)
    requires ListsOk(t) && LinksOk(t) && r in t.remoteAt
    ensures DelRemote(t, r).Ok?
    ensures var t' := DelRemote(t, r).value;
            && (forall c :: c in t'.connAt <==> c in t.connAt)
            && forall c :: c in t'.connAt ==>
                 && t'.connAt[c].fd == t.connAt[c].fd && t'.connAt[c].state == t.connAt[c].state
                 && t'.connAt[c].remoteCount == t.connAt[c].remoteCount
                 && t'.connAt[c].remote == if t.connAt[c].remote == Some(r) then None else t.connAt[c].remote
  {
  }

  lemma ForwardDecides(t: Table, c: Addr, e: Env)
    requires Core(t) && c in t.connAt
    ensures ClientToRemote(t, c, e).Ok?
    ensures if t.connAt[c].remote.None? || ForwardingFails(e) then ConnClosed(t, ClientToRemote(t, c, e).value, c)
            else ClientToRemote(t, c, e).value == t
  {
    DelConnCloses(t, c);
  }

  /** A connection whose connect fails: the block is lost and the connection closed. */
  lemma AttachFailsDecides(t: Table, c: Addr, e: Env)
    requires Core(t) && c in t.connAt && Fresh(t, e.alloc) && e.newFd < 0
    ensures AttachRemote(t, c, e).Ok?
    ensures ConnClosed(t.(leaked := t.leaked + {e.alloc}), AttachRemote(t, c, e).value, c)
  {
    LeakCore(t, c, e.alloc, e.newFd);
    DelConnCloses(t.(leaked := t.leaked + {e.alloc}), c);
  }

  lemma AttachDecides(t: Table, c: Addr, e: Env)
    requires c in t.connAt && Fresh(t, e.alloc) && e.newFd >= 0
    ensures AttachRemote(t, c, e).Ok? && RemoteAttached(t, AttachRemote(t, c, e).value, c, e.alloc, e.newFd)
  {
  }

  /** Leaving the OPENING state first makes no difference to what is closed or attached. */
  lemma LocalClosed(t: Table, t': Table, c: Addr, s: ConnState)
    requires c in t.connAt && ConnClosed(SetState(t, c, s).value, t', c)
    ensures ConnClosed(t, t', c)
  {
  }

  lemma LocalAttached(t: Table, t': Table, c: Addr, s: ConnState, a: Addr, fd: int)
    requires c in t.connAt && RemoteAttached(SetState(t, c, s).value, t', c, a, fd)
    ensures RemoteAttached(t, t', c, a, fd)
  {
  }

  lemma LocalDecides(t: Table, c: Addr, e: Env)
    requires Core(t) && c in t.connAt && Fresh(t, e.alloc)
    ensures LocalOpening(t, c, e).Ok?
    ensures if e.newFd < 0 then ConnClosed(t.(leaked := t.leaked + {e.alloc}), LocalOpening(t, c, e).value, c)
            else RemoteAttached(t, LocalOpening(t, c, e).value, c, e.alloc, e.newFd)
  {
    var t1 := SetState(t, c, Connecting).value;
    SetStateCore(t, c, Connecting);
    if e.newFd < 0 {
      AttachFailsDecides(t1, c, e);
      var lost := t.(leaked := t.leaked + {e.alloc});
      assert SetState(lost, c, Connecting).value == t1.(leaked := t1.leaked + {e.alloc});
      LocalClosed(lost, LocalOpening(t, c, e).value, c, Connecting);
    } else {
      AttachDecides(t1, c, e);
      LocalAttached(t, LocalOpening(t, c, e).value, c, Connecting, e.alloc, e.newFd);
    }
  }

  lemma OpeningDecides(role: Role, t: Table, c: Addr, e: Env)
    requires Inv(t) && c in t.connAt && t.connAt[c].state.Opening? && Admissible(t, e)
    ensures IoHandle(role, t, c, e).Ok? && ConnStep(role, t, c, e, IoHandle(role, t, c, e).value)
  {
    if OpeningFails(role, e) {
      DelConnCloses(t, c);
    } else if role.LocalSide? {
      LocalDecides(t, c, e);
    } else if e.newFd < 0 {
      AttachFailsDecides(t, c, e);
    } else {
      AttachDecides(t, c, e);
    }
  }

  /** The connection handler frees its connection exactly when the answers say so, attaches a remote
      exactly when a connect succeeds, and leaves the table alone when it only forwards. */
  lemma IoDecides(role: Role, t: Table, c: Addr, e: Env)
    requires Inv(t) && c in t.connAt && Admissible(t, e)
    ensures IoHandle(role, t, c, e).Ok? && ConnStep(role, t, c, e, IoHandle(role, t, c, e).value)
    ensures c !in IoHandle(role, t, c, e).value.connAt <==> ClosesConn(role, t, c, e)
  {
    if t.connAt[c].state.Opening? {
      OpeningDecides(role, t, c, e);
    } else {
      assert StateOk(t.connAt[c]);
      ForwardDecides(t, c, e);
    }
  }

  /** No run reaches the CONNECTED state; there the server side closes and the local side forwards. */
  lemma ConnectedDecides(role: Role, t: Table, c: Addr, e: Env)
    requires Core(t) && c in t.connAt && t.connAt[c].state.Connected?
    ensures IoHandle(role, t, c, e).Ok?
    ensures if role.ServerSide? || t.connAt[c].remote.None? || ForwardingFails(e) then
              ConnClosed(t, IoHandle(role, t, c, e).value, c)
            else IoHandle(role, t, c, e).value == t
  {
    DelConnCloses(t, c);
    ForwardDecides(t, c, e);
  }

  /** The remote handler frees its remote exactly when the answers say so, and otherwise leaves the table
      alone. */
  lemma RemoteIoDecides(t: Table, r: Addr, e: Env)
    requires Inv(t) && r in t.remoteAt
    ensures RemoteIoHandle(t, r, e).Ok? && RemoteStep(t, r, e, RemoteIoHandle(t, r, e).value)
    ensures r !in RemoteIoHandle(t, r, e).value.remoteAt <==> ClosesRemote(t, r, e)
  {
    DelRemoteCloses(t, r);
  }

  /** An accepted descriptor gives exactly one more connection, with that descriptor. */
  lemma AcceptDecides(t: Table, e: Env)
    requires Admissible(t, e)
    ensures AcceptHandle(t, e).Ok? && AcceptStep(t, e, AcceptHandle(t, e).value)
  {
  }

  lemma DispatchDecides(role: Role, t: Table, x: Ctx, e: Env)
    requires Inv(t) && Live(t, x) && Admissible(t, e)
    ensures Dispatch(role, t, x, e).Ok? && CallStep(role, t, x, e, Dispatch(role, t, x, e).value)
  {
    match x
    case ServerCtx => AcceptDecides(t, e);
    case ConnCtx(c) => IoDecides(role, t, c, e);
    case RemoteCtx(r) => RemoteIoDecides(t, r, e);
  }

  // ----- the order of a batch

  /** The place of a context in the order of a poll: the listening socket, then the connections, then the
      remotes, each in the order of their list. */
  ghost predicate Before(t: Table, x: Ctx, y: Ctx) {
    match x
    case ServerCtx => !y.ServerCtx?
    case ConnCtx(c) => y.RemoteCtx? || (y.ConnCtx? && Earlier(t.conns, c, y.conn))
    case RemoteCtx(r) => y.RemoteCtx? && Earlier(t.remotes, r, y.remote)
  }

  ghost predicate Earlier(s: seq<Addr>, a: Addr, b: Addr) {
    exists i, j :: 0 <= i < j < |s| && s[i] == a && s[j] == b
  }

  ghost predicate InOrder(t: Table, batch: seq<Ctx>) {
    forall i, j :: 0 <= i < j < |batch| ==> Before(t, batch[i], batch[j])
  }

  /** The contexts of the entries from position `n` of the list on are all later than its first `n`. */
  lemma {:induction false} ReadyConnsOrdered(t: Table, n: nat, ready: set<int>)
    requires n <= |t.conns|
    ensures InOrder(t, ReadyConns(t, t.conns[n..], ready))
    ensures forall x :: x in ReadyConns(t, t.conns[n..], ready) ==> x.ConnCtx? && x.conn in t.conns[n..]
    decreases |t.conns| - n
  {
    if n < |t.conns| {
      ReadyConnsOrdered(t, n + 1, ready);
      assert t.conns[n..][1..] == t.conns[n + 1..];
      var rest := ReadyConns(t, t.conns[n + 1..], ready);
      forall j | 0 <= j < |rest|
        ensures Before(t, ConnCtx(t.conns[n]), rest[j])
      {
        assert rest[j] in rest;
        var i :| 0 <= i < |t.conns[n + 1..]| && t.conns[n + 1..][i] == rest[j].conn;
        assert t.conns[n + 1 + i] == rest[j].conn;
      }
    }
  }

  lemma {:induction false} ReadyRemotesOrdered(t: Table, n: nat, ready: set<int>)
    requires n <= |t.remotes|
    ensures InOrder(t, ReadyRemotes(t, t.remotes[n..], ready))
    ensures forall x :: x in ReadyRemotes(t, t.remotes[n..], ready) ==> x.RemoteCtx? && x.remote in t.remotes[n..]
    decreases |t.remotes| - n
  {
    if n < |t.remotes| {
      ReadyRemotesOrdered(t, n + 1, ready);
      assert t.remotes[n..][1..] == t.remotes[n + 1..];
      var rest := ReadyRemotes(t, t.remotes[n + 1..], ready);
      forall j | 0 <= j < |rest|
        ensures Before(t, RemoteCtx(t.remotes[n]), rest[j])
      {
        assert rest[j] in rest;
        var i :| 0 <= i < |t.remotes[n + 1..]| && t.remotes[n + 1..][i] == rest[j].remote;
        assert t.remotes[n + 1 + i] == rest[j].remote;
      }
    }
  }

  lemma OrderedConcat(t: Table, a: seq<Ctx>, b: seq<Ctx>)
    requires InOrder(t, a) && InOrder(t, b) && forall x, y :: x in a && y in b ==> Before(t, x, y)
    ensures InOrder(t, a + b)
  {
    assert forall i :: 0 <= i < |a| ==> a[i] in a;
    assert forall i :: 0 <= i < |b| ==> b[i] in b;
  }

  /** A batch holds exactly the readable contexts, each live and each once, in the order of the poll. */
  ghost predicate IsBatch(t: Table, ready: set<int>, batch: seq<Ctx>) {
    && Pending(t, batch) && InOrder(t, batch)
    && forall x :: x in batch <==> Live(t, x) && FdOf(t, x) in ready
  }

  lemma PollIsBatch(t: Table, ready: set<int>)
    requires Inv(t)
    ensures IsBatch(t, ready, Poll(t, ready))
  {
    PollPending(t, ready);
    ReadyConnsOrdered(t, 0, ready);
    ReadyRemotesOrdered(t, 0, ready);
    assert t.conns[0..] == t.conns && t.remotes[0..] == t.remotes;
    var a, b := ReadyServer(t, ready), ReadyConns(t, t.conns, ready);
    OrderedConcat(t, a, b);
    OrderedConcat(t, a + b, ReadyRemotes(t, t.remotes, ready));
  }

  // ----- runs as sequences of calls

  /** The tables of a dispatch, one before each call and one after the last. */
  ghost predicate IsDispatch(role: Role, batch: seq<Ctx>, envs: seq<Env>, ts: seq<Table>) {
    && |ts| == |batch| + 1 && |batch| <= |envs|
    && forall i :: 0 <= i < |batch| ==> Live(ts[i], batch[i]) && CallStep(role, ts[i], batch[i], envs[i], ts[i + 1])
  }

  lemma DispatchCons(role: Role, batch: seq<Ctx>, envs: seq<Env>, t: Table, ts: seq<Table>)
    requires batch != [] && envs != [] && IsDispatch(role, batch[1..], envs[1..], ts)
    requires Live(t, batch[0]) && CallStep(role, t, batch[0], envs[0], ts[0])
    ensures IsDispatch(role, batch, envs, [t] + ts)
  {
    forall i | 0 <= i < |batch|
      ensures Live(([t] + ts)[i], batch[i]) && CallStep(role, ([t] + ts)[i], batch[i], envs[i], ([t] + ts)[i + 1])
    {
      if i > 0 {
        assert batch[i] == batch[1..][i - 1] && envs[i] == envs[1..][i - 1];
        assert ([t] + ts)[i] == ts[i - 1] && ([t] + ts)[i + 1] == ts[i - 1 + 1];
      }
    }
  }

  /** A dispatch makes one call for each context of the batch, in order. */
  lemma {:induction false} DispatchCalls(role: Role, t: Table, batch: seq<Ctx>, envs: seq<Env>) returns (ts: seq<Table>)
    requires |batch| <= |envs| && Inv(t) && Pending(t, batch) && AdmissibleAll(role, t, batch, envs)
    ensures IsDispatch(role, batch, envs, ts) && ts[0] == t
    ensures DispatchAll(role, t, batch, envs) == Ok(ts[|batch|])
    decreases |batch|
  {
    if batch == [] {
      return [t];
    }
    DispatchSafe(role, t, batch[0], envs[0]);
    DispatchDecides(role, t, batch[0], envs[0]);
    var t1 := Dispatch(role, t, batch[0], envs[0]).value;
    assert forall i :: 0 <= i < |batch[1..]| ==> batch[1..][i] == batch[i + 1];
    var rest := DispatchCalls(role, t1, batch[1..], envs[1..]);
    DispatchCons(role, batch, envs, t, rest);
    ts := [t] + rest;
  }

  /** One turn: what is readable is collected, and each collected context gets its call. */
  ghost predicate TurnStep(role: Role, t: Table, round: Round, t': Table) {
    exists batch, ts :: IsBatch(t, round.ready, batch) && IsDispatch(role, batch, round.envs, ts)
                        && ts[0] == t && ts[|batch|] == t'
  }

  lemma TurnCalls(role: Role, t: Table, round: Round)
    requires Inv(t) && |Poll(t, round.ready)| <= |round.envs|
    requires AdmissibleAll(role, t, Poll(t, round.ready), round.envs)
    ensures DispatchAll(role, t, Poll(t, round.ready), round.envs).Ok?
    ensures TurnStep(role, t, round, DispatchAll(role, t, Poll(t, round.ready), round.envs).value)
  {
    PollIsBatch(t, round.ready);
    var ts := DispatchCalls(role, t, Poll(t, round.ready), round.envs);
  }

  /** The tables of a run, one before each turn and one after the last. */
  ghost predicate IsTurns(role: Role, rounds: seq<Round>, ts: seq<Table>) {
    |ts| == |rounds| + 1 && forall i :: 0 <= i < |rounds| ==> TurnStep(role, ts[i], rounds[i], ts[i + 1])
  }

  lemma TurnsCons(role: Role, rounds: seq<Round>, t: Table, ts: seq<Table>)
    requires rounds != [] && IsTurns(role, rounds[1..], ts) && TurnStep(role, t, rounds[0], ts[0])
    ensures IsTurns(role, rounds, [t] + ts)
  {
    forall i | 0 <= i < |rounds|
      ensures TurnStep(role, ([t] + ts)[i], rounds[i], ([t] + ts)[i + 1])
    {
      if i > 0 {
        assert rounds[i] == rounds[1..][i - 1];
        assert ([t] + ts)[i] == ts[i - 1] && ([t] + ts)[i + 1] == ts[i - 1 + 1];
      }
    }
  }

  /** Every run of the proxy is a sequence of turns, each of which is one call for each readable context in
      the order of the poll, and each call does what the table and the answers decide. */
  lemma {:induction false} RunIsTurns(role: Role, t: Table, rounds: seq<Round>) returns (ts: seq<Table>)
    requires Inv(t) && AdmissibleRun(role, t, rounds)
    ensures IsTurns(role, rounds, ts) && ts[0] == t && Run(role, t, rounds) == Ok(ts[|rounds|])
    decreases |rounds|
  {
    if rounds == [] {
      return [t];
    }
    var batch := Poll(t, rounds[0].ready);
    TurnCalls(role, t, rounds[0]);
    PollPending(t, rounds[0].ready);
    DispatchAllSafe(role, t, batch, rounds[0].envs);
    var t1 := DispatchAll(role, t, batch, rounds[0].envs).value;
    var rest := RunIsTurns(role, t1, rounds[1..]);
    TurnsCons(role, rounds, t, rest);
    ts := [t] + rest;
  }
}
