/** The connection table of the SOCKS5 proxy and its event handlers, as functions on values.
    Pointers are addresses into explicit heaps, so that a dangling pointer and the reuse of a freed
    address can be told apart from a live one; following a dangling pointer is a `Fault`.
    (Python/socks5/socks5_c-master/socks.c:105-208, 373-445; server.c:6-122; local.c:8-118) */
module ProxyTable {
  import opened Options

  type Addr = nat

  datatype ConnState = Opening | Connecting | Connected

  datatype Conn = Conn(fd: int, state: ConnState, remoteCount: nat, remote: Option<Addr>)

  datatype Remote = Remote(fd: int, connEntry: Option<Addr>)

  /** `struct ss_server_ctx` with the heaps its pointers lead to. `conns` and `remotes` are the
      contents of the two circular lists, `leaked` the blocks that were allocated and lost. */
  datatype Table = Table(
    sockFd: int, connCount: int, maxFd: int, readSet: set<int>,
    conns: seq<Addr>, remotes: seq<Addr>,
    connAt: map<Addr, Conn>, remoteAt: map<Addr, Remote>, leaked: set<Addr>)

  datatype Result<+T> = Ok(value: T) | Fault

  function Max(a: int, b: int): int {
    if a > b then a else b
  }

  /** The list without the entry `a`. */
  function Without(s: seq<Addr>, a: Addr): seq<Addr> {
    if s == [] then [] else if s[0] == a then s[1..] else [s[0]] + Without(s[1..], a)
  }

  function Created(sockFd: int): Table {
    Table(sockFd, 0, sockFd, {sockFd}, [], [], map[], map[], {})
  }

  // ----- the table operations

  function AddConn(t: Table, a: Addr, fd: int): Table {
    t.(connAt := t.connAt[a := Conn(fd, Opening, 0, None)],
       conns := [a] + t.conns,
       connCount := t.connCount + 1,
       maxFd := Max(fd, t.maxFd),
       readSet := t.readSet + {fd})
  }

  /** A failed connect loses the block it allocated. */
  function AddRemote(t: Table, c: Addr, a: Addr, fd: int): Result<Table> {
    if c !in t.connAt then Fault
    else if fd < 0 then Ok(t.(leaked := t.leaked + {a}))
    else
      var conn := t.connAt[c];
      Ok(t.(remoteAt := t.remoteAt[a := Remote(fd, Some(c))],
            connAt := t.connAt[c := conn.(remote := Some(a), remoteCount := conn.remoteCount + 1)],
            maxFd := Max(fd, t.maxFd),
            readSet := t.readSet + {fd},
            remotes := [a] + t.remotes))
  }

  function SetState(t: Table, c: Addr, s: ConnState): Result<Table> {
    if c in t.connAt then Ok(t.(connAt := t.connAt[c := t.connAt[c].(state := s)])) else Fault
  }

  function Unlink(m: map<Addr, Remote>, r: Option<Addr>): Result<map<Addr, Remote>> {
    if r.None? then Ok(m) else if r.value !in m then Fault
    else Ok(m[r.value := m[r.value].(connEntry := None)])
  }

  function DelConn(t: Table, c: Addr): Result<Table> {
    if c !in t.connAt || c !in t.conns then Fault
    else
      match Unlink(t.remoteAt, t.connAt[c].remote)
      case Fault => Fault
      case Ok(remotes) =>
        Ok(t.(remoteAt := remotes,
              readSet := t.readSet - {t.connAt[c].fd},
              connCount := t.connCount - 1,
              conns := Without(t.conns, c),
              connAt := t.connAt - {c}))
  }

  function Detach(m: map<Addr, Conn>, c: Option<Addr>): Result<map<Addr, Conn>> {
    if c.None? then Ok(m) else if c.value !in m then Fault
    else Ok(m[c.value := m[c.value].(remote := None)])
  }

  function DelRemote(t: Table, r: Addr): Result<Table> {
    if r !in t.remoteAt || r !in t.remotes then Fault
    else
      match Detach(t.connAt, t.remoteAt[r].connEntry)
      case Fault => Fault
      case Ok(conns) =>
        Ok(t.(connAt := conns,
              readSet := t.readSet - {t.remoteAt[r].fd},
              remotes := Without(t.remotes, r),
              remoteAt := t.remoteAt - {r}))
  }

  // ----- the handlers

  datatype Role = ServerSide | LocalSide

  /** What the environment answers during one handler call: the address the allocator returns, the
      result of accept or connect, whether the SOCKS request was read and answered, the handshake's
      receive count, version byte and send count, and the results of the forwarding calls. */
  datatype Env = Env(
    alloc: Addr, newFd: int, requestOk: bool,
    helloLen: int, version: int, replyLen: int,
    readed: int, sent: int, again: bool)

  function AcceptHandle(t: Table, e: Env): Result<Table> {
    if e.newFd < 0 then Ok(t) else Ok(AddConn(t, e.alloc, e.newFd))
  }

  /** `send` did not deliver, and not because the socket was full. */
  predicate SendFailed(e: Env) {
    e.sent != e.readed && e.sent == -1 && !e.again
  }

  function ClientToRemote(t: Table, c: Addr, e: Env): Result<Table> {
    if c !in t.connAt then Fault
    else if t.connAt[c].remote.None? then DelConn(t, c)
    else if e.readed <= 0 then DelConn(t, c)
    else if t.connAt[c].remote.value !in t.remoteAt then Fault
    else if SendFailed(e) then DelConn(t, c)
    else Ok(t)
  }

  function AttachRemote(t: Table, c: Addr, e: Env): Result<Table> {
    match AddRemote(t, c, e.alloc, e.newFd)
    case Fault => Fault
    case Ok(t1) => if e.newFd < 0 then DelConn(t1, c) else SetState(t1, c, Connecting)
  }

  predicate HandshakeFails(e: Env) {
    e.helloLen <= 0 || e.version != 5 || e.replyLen != 2
  }

  /** The handshake itself already leaves the OPENING state. */
  function LocalOpening(t: Table, c: Addr, e: Env): Result<Table> {
    match SetState(t, c, Connecting)
    case Fault => Fault
    case Ok(t1) => AttachRemote(t1, c, e)
  }

  function IoHandle(role: Role, t: Table, c: Addr, e: Env): Result<Table> {
    if c !in t.connAt then Fault
    else
      match t.connAt[c].state
      case Opening =>
        if role.ServerSide? then
          if !e.requestOk then DelConn(t, c) else AttachRemote(t, c, e)
        else if HandshakeFails(e) then DelConn(t, c)
        else LocalOpening(t, c, e)
      case Connecting => ClientToRemote(t, c, e)
      case Connected => if role.ServerSide? then DelConn(t, c) else ClientToRemote(t, c, e)
  }

  function RemoteIoHandle(t: Table, r: Addr, e: Env): Result<Table> {
    if r !in t.remoteAt then Fault
    else if t.remoteAt[r].connEntry.None? then DelRemote(t, r)
    else if e.readed <= 0 then DelRemote(t, r)
    else if t.remoteAt[r].connEntry.value !in t.connAt then Fault
    else if SendFailed(e) then DelRemote(t, r)
    else Ok(t)
  }

  // ----- the event loop

  datatype Ctx = ServerCtx | ConnCtx(conn: Addr) | RemoteCtx(remote: Addr)

  function Dispatch(role: Role, t: Table, x: Ctx, e: Env): Result<Table> {
    match x
    case ServerCtx => AcceptHandle(t, e)
    case ConnCtx(c) => IoHandle(role, t, c, e)
    case RemoteCtx(r) => RemoteIoHandle(t, r, e)
  }

  function ReadyConns(t: Table, s: seq<Addr>, ready: set<int>): seq<Ctx> {
    if s == [] then []
    else if s[0] in t.connAt && t.connAt[s[0]].fd in ready then [ConnCtx(s[0])] + ReadyConns(t, s[1..], ready)
    else ReadyConns(t, s[1..], ready)
  }

  function ReadyRemotes(t: Table, s: seq<Addr>, ready: set<int>): seq<Ctx> {
    if s == [] then []
    else if s[0] in t.remoteAt && t.remoteAt[s[0]].fd in ready then
      [RemoteCtx(s[0])] + ReadyRemotes(t, s[1..], ready)
    else ReadyRemotes(t, s[1..], ready)
  }

  function ReadyServer(t: Table, ready: set<int>): seq<Ctx> {
    if t.sockFd in ready then [ServerCtx] else []
  }

  /** The batch collected from what `select` reports as readable. */
  function Poll(t: Table, ready: set<int>): seq<Ctx> {
    ReadyServer(t, ready) + ReadyConns(t, t.conns, ready) + ReadyRemotes(t, t.remotes, ready)
  }

  /** Dispatches a batch of saved pointers; one answer of the environment for each. */
  function DispatchAll(role: Role, t: Table, batch: seq<Ctx>, envs: seq<Env>): Result<Table>
    requires |batch| <= |envs|
    decreases |batch|
  {
    if batch == [] then Ok(t)
    else
      match Dispatch(role, t, batch[0], envs[0])
      case Fault => Fault
      case Ok(t1) => DispatchAll(role, t1, batch[1..], envs[1..])
  }

  /** One turn of the loop: what is readable, and the answers during the dispatch. */
  datatype Round = Round(ready: set<int>, envs: seq<Env>)

  /** The block at the address is not in use. */
  predicate Fresh(t: Table, a: Addr) {
    a !in t.connAt && a !in t.remoteAt && a !in t.leaked
  }

  /** The allocator returns a block that is not in use, and the kernel a descriptor that is not open. */
  predicate Admissible(t: Table, e: Env) {
    && Fresh(t, e.alloc)
    && (e.newFd >= 0 ==> e.newFd !in t.readSet)
  }

  predicate AdmissibleAll(role: Role, t: Table, batch: seq<Ctx>, envs: seq<Env>)
    requires |batch| <= |envs|
    decreases |batch|
  {
    batch != [] ==>
      && Admissible(t, envs[0])
      && var t1 := Dispatch(role, t, batch[0], envs[0]);
         t1.Ok? ==> AdmissibleAll(role, t1.value, batch[1..], envs[1..])
  }

  /** A whole run of the loop. */
  function Run(role: Role, t: Table, rounds: seq<Round>): Result<Table>
    decreases |rounds|
  {
    if rounds == [] then Ok(t)
    else
      var batch := Poll(t, rounds[0].ready);
      if |rounds[0].envs| < |batch| then Ok(t)
      else
        match DispatchAll(role, t, batch, rounds[0].envs)
        case Fault => Fault
        case Ok(t1) => Run(role, t1, rounds[1..])
  }

  /** Every answer of the environment in the run is admissible when it is given. */
  predicate AdmissibleRun(role: Role, t: Table, rounds: seq<Round>)
    decreases |rounds|
  {
    rounds != [] ==>
      var batch := Poll(t, rounds[0].ready);
      && |batch| <= |rounds[0].envs|
      && AdmissibleAll(role, t, batch, rounds[0].envs)
      && var t1 := DispatchAll(role, t, batch, rounds[0].envs);
         t1.Ok? ==> AdmissibleRun(role, t1.value, rounds[1..])
  }
}
