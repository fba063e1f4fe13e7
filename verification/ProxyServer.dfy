/** The proxy as it runs: connections, remotes and list nodes are objects that point at each other, and
    the handlers update them in place. The ghost field `table` is the table of values they stand for;
    every method is proved to take it where the corresponding function of `ProxyTable` does. Before a
    pointer is followed, the block it leads to is proved to be allocated.
    (Python/socks5/socks5_c-master/socks.c:63-208, 373-445; server.c:6-122; local.c:8-118) */
module ProxyServer {
  import opened Options
  import opened ProxyTable
  import opened ProxyInvariant
  import opened ProxySafety
  import opened ProxyHeap
  import opened ProxyDecisions
  import Lists

  /** The size of the array of saved contexts. */
  const FD_STATES := 10240

  class Server {
    const role: Role
    const sockFd: int
    var connCount: int
    var maxFd: int
    var readSet: set<int>
    const connHead: Lists.Node
    const remoteHead: Lists.Node
    const fdState: array<Saved>
    var connAt: ConnHeap
    var remoteAt: RemoteHeap

    ghost var memory: Memory
    ghost var table: Table

    ghost predicate FieldsOk()
      reads this
    {
      && table.sockFd == sockFd && table.connCount == connCount && table.maxFd == maxFd && table.readSet == readSet
      && memory.conns == connAt && memory.remotes == remoteAt
      && memory.connHead == connHead && memory.remoteHead == remoteHead
      && maxFd < fdState.Length
    }

    ghost predicate Valid()
      reads this, memory.connSet, memory.remoteSet, memory.nodeSet
    {
      FieldsOk() && Mirrors(memory, table)
    }

    /** `ss_create_server` */
    constructor (role: Role, sockFd: int)
      requires 0 <= sockFd < FD_STATES
      ensures Valid() && table == Created(sockFd) && this.role == role && fdState.Length == FD_STATES && fresh(fdState)
      ensures memory.connSet == {} && memory.remoteSet == {} && fresh(memory.nodeSet)
    {
      this.role, this.sockFd := role, sockFd;
      connCount, maxFd, readSet := 0, sockFd, {sockFd};
      var h := Lists.NewHead();
      var g := Lists.NewHead();
      connHead, remoteHead := h, g;
      fdState := new Saved[FD_STATES];
      connAt, remoteAt := map[], map[];
      table := Created(sockFd);
      memory := EmptyMemory(h, g);
      new;
      EmptyMirrors(connHead, remoteHead, sockFd);
    }

    /** Gives the fields their values after a step. */
    method Update(count: int, max: int, fds: set<int>, cs: ConnHeap, rs: RemoteHeap, ghost m: Memory, ghost t: Table)
      requires Mirrors(m, t) && m.conns == cs && m.remotes == rs && m.connHead == connHead && m.remoteHead == remoteHead
      requires t.sockFd == sockFd && t.connCount == count && t.maxFd == max < fdState.Length && t.readSet == fds
      modifies this
      ensures Valid() && memory == m && table == t
    {
      connCount := count;
      maxFd := max;
      readSet := fds;
      connAt, remoteAt := cs, rs;
      memory := m;
      table := t;
    }

    /** `ss_server_add_conn` */
    method AddConn(a: Addr, fd: int)
      requires Valid() && Fresh(table, a) && fd < fdState.Length
      modifies this, memory.connSet, memory.remoteSet, memory.nodeSet
      ensures Valid() && table == ProxyTable.AddConn(old(table), a, fd)
      ensures Grown(old(memory), memory) && KeepsBlocks(old(memory), memory, ServerCtx)
    {
      HeadsCovered(memory, table);
      var conn := AllocConn(a, fd, connHead, memory, table);
      Update(connCount + 1, Max(fd, maxFd), readSet + {fd}, connAt[a := conn], remoteAt,
             PlusConn(memory, conn), ProxyTable.AddConn(table, a, fd));
    }

    /** `ss_conn_add_remote` when the connect failed: the block is lost. */
    method Leak(c: ConnBlock, a: Addr, fd: int)
      requires Valid() && LiveConn(connAt, c) && fd < 0
      modifies this
      ensures Valid() && Ok(table) == ProxyTable.AddRemote(old(table), c.addr, a, fd) && memory == old(memory)
    {
      ghost var t := ProxyTable.AddRemote(table, c.addr, a, fd).value;
      Update(connCount, maxFd, readSet, connAt, remoteAt, memory, t);
    }

    /** `ss_conn_add_remote` when the connect succeeded. */
    method Connect(c: ConnBlock, a: Addr, fd: int) returns (r: RemoteBlock)
      requires Valid() && LiveConn(connAt, c) && Fresh(table, a) && 0 <= fd < fdState.Length
      modifies this, memory.connSet, memory.remoteSet, memory.nodeSet
      ensures Valid() && table == Attached(old(table), c.addr, a, fd)
      ensures fresh(r) && fresh(r.list) && r.addr == a && memory == PlusRemote(old(memory), r)
    {
      HeadsCovered(memory, table);
      ghost var t := Attached(table, c.addr, a, fd);
      r := AllocRemote(c, a, fd, remoteHead, memory, table, t);
      Update(connCount, Max(fd, maxFd), readSet + {fd}, connAt, remoteAt[a := r], PlusRemote(memory, r), t);
    }

    /** `ss_conn_add_remote` */
    method AddRemote(c: ConnBlock, a: Addr, fd: int) returns (ok: bool)
      requires Valid() && LiveConn(connAt, c) && Fresh(table, a) && fd < fdState.Length
      modifies this, memory.connSet, memory.remoteSet, memory.nodeSet
      ensures Valid() && Ok(table) == ProxyTable.AddRemote(old(table), c.addr, a, fd) && ok == (fd >= 0)
      ensures Grown(old(memory), memory) && KeepsBlocks(old(memory), memory, ServerCtx)
    {
      ok := fd >= 0;
      if ok {
        var r := Connect(c, a, fd);
        PlusRemoteGrows(old(memory), r);
      } else {
        Leak(c, a, fd);
      }
    }

    /** `ss_server_del_conn` */
    method DelConn(c: ConnBlock)
      requires Valid() && ListsOk(table) && LinksOk(table) && LiveConn(connAt, c)
      modifies this, memory.connSet, memory.remoteSet, memory.nodeSet
      ensures Valid() && Ok(table) == ProxyTable.DelConn(old(table), c.addr)
      ensures SameObjects(old(memory), memory) && KeepsBlocks(old(memory), memory, ConnCtx(c.addr))
    {
      ghost var k := Position(table.conns, c.addr);
      ghost var t := ProxyTable.DelConn(table, c.addr).value;
      ConnCovered(c, k, memory, table);
      FreeConn(c, k, memory, table, t);
      Update(connCount - 1, maxFd, readSet - {c.fd}, connAt - {c.addr}, remoteAt,
             MinusConn(memory, c.addr, k), t);
    }

    /** `ss_del_remote` */
    method DelRemote(r: RemoteBlock)
      requires Valid() && ListsOk(table) && LinksOk(table) && LiveRemote(remoteAt, r)
      modifies this, memory.connSet, memory.remoteSet, memory.nodeSet
      ensures Valid() && Ok(table) == ProxyTable.DelRemote(old(table), r.addr)
      ensures SameObjects(old(memory), memory) && KeepsBlocks(old(memory), memory, RemoteCtx(r.addr))
    {
      ghost var k := Position(table.remotes, r.addr);
      ghost var t := ProxyTable.DelRemote(table, r.addr).value;
      RemoteCovered(r, k, memory, table);
      FreeRemote(r, k, memory, table, t);
      Update(connCount, maxFd, readSet - {r.fd}, connAt, remoteAt - {r.addr},
             MinusRemote(memory, r.addr, k), t);
    }

    // ----- the handlers

    /** `client_to_remote` */
    method ClientToRemote(c: ConnBlock, e: Env)
      requires Valid() && ListsOk(table) && LinksOk(table) && LiveConn(connAt, c)
      modifies this, memory.connSet, memory.remoteSet, memory.nodeSet
      ensures Valid() && Ok(table) == ProxyTable.ClientToRemote(old(table), c.addr, e)
      ensures SameObjects(old(memory), memory) && KeepsBlocks(old(memory), memory, ConnCtx(c.addr))
    {
      assert ConnIs(c, table.connAt[c.addr], remoteAt);
      var remote := c.remote;
      if remote == null || e.readed <= 0 {
        DelConn(c);
        return;
      }
      assert LiveRemote(remoteAt, remote);
      if e.sent != e.readed {
        if e.sent == -1 && !e.again {
          DelConn(c);
        }
      }
    }

    method SetState(c: ConnBlock, s: ConnState)
      requires Valid() && LiveConn(connAt, c)
      modifies this, c
      ensures Valid() && Ok(table) == ProxyTable.SetState(old(table), c.addr, s) && memory == old(memory)
    {
      ghost var t := ProxyTable.SetState(table, c.addr, s).value;
      SetConnState(c, s, memory, table);
      Update(connCount, maxFd, readSet, connAt, remoteAt, memory, t);
    }

    /** The common end of the OPENING case: attach a remote or close the connection. */
    method Attach(c: ConnBlock, e: Env)
      requires Valid() && ListsOk(table) && LinksOk(table) && LiveConn(connAt, c)
      requires Fresh(table, e.alloc) && e.newFd < fdState.Length
      modifies this, memory.connSet, memory.remoteSet, memory.nodeSet
      ensures Valid() && Ok(table) == AttachRemote(old(table), c.addr, e)
      ensures Grown(old(memory), memory) && KeepsBlocks(old(memory), memory, ConnCtx(c.addr))
    {
      var ok := AddRemote(c, e.alloc, e.newFd);
      if !ok {
        DelConn(c);
      } else {
        SetState(c, Connecting);
      }
    }

    /** The handshake of the local side, and the connect behind it. */
    method LocalOpen(c: ConnBlock, e: Env)
      requires Valid() && ListsOk(table) && LinksOk(table) && LiveConn(connAt, c)
      requires Fresh(table, e.alloc) && e.newFd < fdState.Length
      modifies this, memory.connSet, memory.remoteSet, memory.nodeSet
      ensures Valid() && Ok(table) == ProxyTable.LocalOpening(old(table), c.addr, e)
      ensures Grown(old(memory), memory) && KeepsBlocks(old(memory), memory, ConnCtx(c.addr))
    {
      SetStateLinks(table, c.addr, Connecting);
      SetState(c, Connecting);
      Attach(c, e);
    }

    /** The OPENING case of `ss_io_handle`, with `ss_handshake_handle` on the local side. */
    method Open(c: ConnBlock, e: Env)
      requires Valid() && ListsOk(table) && LinksOk(table) && LiveConn(connAt, c) && c.state == Opening
      requires Fresh(table, e.alloc) && e.newFd < fdState.Length
      modifies this, memory.connSet, memory.remoteSet, memory.nodeSet
      ensures Valid() && Ok(table) == ProxyTable.IoHandle(role, old(table), c.addr, e)
      ensures Grown(old(memory), memory) && KeepsBlocks(old(memory), memory, ConnCtx(c.addr))
    {
      assert ConnIs(c, table.connAt[c.addr], remoteAt);
      if role == ServerSide {
        if !e.requestOk {
          DelConn(c);
        } else {
          Attach(c, e);
        }
      } else if e.helloLen <= 0 || e.version != 5 || e.replyLen != 2 {
        DelConn(c);
      } else {
        LocalOpen(c, e);
      }
    }

    /** `ss_io_handle` of both sides. */
    method IoHandle(c: ConnBlock, e: Env)
      requires Valid() && ListsOk(table) && LinksOk(table) && LiveConn(connAt, c)
      requires Fresh(table, e.alloc) && e.newFd < fdState.Length
      modifies this, memory.connSet, memory.remoteSet, memory.nodeSet
      ensures Valid() && Ok(table) == ProxyTable.IoHandle(role, old(table), c.addr, e)
      ensures Grown(old(memory), memory) && KeepsBlocks(old(memory), memory, ConnCtx(c.addr))
    {
      assert ConnIs(c, table.connAt[c.addr], remoteAt);
      match c.state
      case Opening => Open(c, e);
      case Connecting => ClientToRemote(c, e);
      case Connected =>
        if role == ServerSide {
          DelConn(c);
        } else {
          ClientToRemote(c, e);
        }
    }

    /** `ss_remote_io_handle` */
    method RemoteIoHandle(r: RemoteBlock, e: Env)
      requires Valid() && ListsOk(table) && LinksOk(table) && LiveRemote(remoteAt, r)
      modifies this, memory.connSet, memory.remoteSet, memory.nodeSet
      ensures Valid() && Ok(table) == ProxyTable.RemoteIoHandle(old(table), r.addr, e)
      ensures SameObjects(old(memory), memory) && KeepsBlocks(old(memory), memory, RemoteCtx(r.addr))
    {
      assert RemoteIs(r, table.remoteAt[r.addr], connAt);
      var conn := r.connEntry;
      if conn == null || e.readed <= 0 {
        DelRemote(r);
        return;
      }
      assert LiveConn(connAt, conn);
      if e.sent != e.readed {
        if e.sent == -1 && !e.again {
          DelRemote(r);
        }
      }
    }

    /** `ss_accept_handle` */
    method AcceptHandle(e: Env)
      requires Valid() && Fresh(table, e.alloc) && e.newFd < fdState.Length
      modifies this, memory.connSet, memory.remoteSet, memory.nodeSet
      ensures Valid() && Ok(table) == ProxyTable.AcceptHandle(old(table), e)
      ensures Grown(old(memory), memory) && KeepsBlocks(old(memory), memory, ServerCtx)
    {
      if e.newFd < 0 {
        return;
      }
      AddConn(e.alloc, e.newFd);
    }

    // ----- the event loop

    /** The first `n` saved contexts are live, and together with `rest` they make up `want`. */
    ghost predicate Collected(n: nat, rest: seq<Ctx>, want: seq<Ctx>)
      reads this, fdState
    {
      && n <= fdState.Length && Contexts(fdState[..n]) + rest == want
      && forall j :: 0 <= j < n ==> LivePtr(memory, fdState[j])
    }

    /** Saves a context if its descriptor is readable. */
    method Save(p: Saved, fd: int, ready: set<int>, n: nat, ghost rest: seq<Ctx>, ghost want: seq<Ctx>)
      returns (n': nat)
      requires Collected(n, (if fd in ready then [CtxOf(p)] else []) + rest, want)
      requires LivePtr(memory, p) && |want| <= fdState.Length
      modifies fdState
      ensures Collected(n', rest, want)
    {
      n' := n;
      if fd in ready {
        ghost var before := fdState[..n];
        fdState[n] := p;
        n' := n + 1;
        assert fdState[..n'] == before + [p];
        ContextsSnoc(before, p, fdState[..n']);
      }
    }

    /** Saves the readable connections, walking their list. */
    method PollConns(ready: set<int>, n: nat, ghost rest: seq<Ctx>, ghost want: seq<Ctx>) returns (n': nat)
      requires FieldsOk() && ConnWalk(memory, table) && |want| <= fdState.Length
      requires Collected(n, ReadyConns(table, table.conns, ready) + rest, want)
      modifies fdState
      ensures Collected(n', rest, want)
    {
      n' := n;
      ghost var i := 0;
      var pos := connHead.next;
      while pos != connHead
        invariant 0 <= i <= |table.conns| && pos == Lists.At(connHead, memory.connNodes, i + 1)
        invariant Collected(n', ReadyConns(table, table.conns[i..], ready) + rest, want)
        decreases |table.conns| - i
      {
        ReadyConnsNext(table, table.conns, i, ready, rest);
        var conn := connAt[pos.container];
        n' := Save(ConnPtr(conn), conn.fd, ready, n', ReadyConns(table, table.conns[i + 1..], ready) + rest, want);
        pos := pos.next;
        i := i + 1;
      }
    }

    /** Saves the readable remotes, walking their list. */
    method PollRemotes(ready: set<int>, n: nat, ghost rest: seq<Ctx>, ghost want: seq<Ctx>) returns (n': nat)
      requires FieldsOk() && RemoteWalk(memory, table) && |want| <= fdState.Length
      requires Collected(n, ReadyRemotes(table, table.remotes, ready) + rest, want)
      modifies fdState
      ensures Collected(n', rest, want)
    {
      n' := n;
      ghost var i := 0;
      var pos := remoteHead.next;
      while pos != remoteHead
        invariant 0 <= i <= |table.remotes| && pos == Lists.At(remoteHead, memory.remoteNodes, i + 1)
        invariant Collected(n', ReadyRemotes(table, table.remotes[i..], ready) + rest, want)
        decreases |table.remotes| - i
      {
        ReadyRemotesNext(table, table.remotes, i, ready, rest);
        var remote := remoteAt[pos.container];
        n' := Save(RemotePtr(remote), remote.fd, ready, n', ReadyRemotes(table, table.remotes[i + 1..], ready) + rest, want);
        pos := pos.next;
        i := i + 1;
      }
    }

    /** The listening socket and the connections. */
    method PollFirst(ready: set<int>, ghost rest: seq<Ctx>, ghost want: seq<Ctx>) returns (n: nat)
      requires FieldsOk() && ConnWalk(memory, table) && |want| <= fdState.Length
      requires want == ReadyServer(table, ready) + ReadyConns(table, table.conns, ready) + rest
      modifies fdState
      ensures Collected(n, rest, want)
    {
      ghost var others := ReadyConns(table, table.conns, ready) + rest;
      assert Contexts(fdState[..0]) + (ReadyServer(table, ready) + others) == want;
      n := Save(ServerPtr, sockFd, ready, 0, others, want);
      n := PollConns(ready, n, rest, want);
    }

    /** All contexts: the listening socket, the connections and the remotes. */
    method PollAll(ready: set<int>, ghost want: seq<Ctx>) returns (n: nat)
      requires FieldsOk() && ConnWalk(memory, table) && RemoteWalk(memory, table) && |want| <= fdState.Length
      requires want == ProxyTable.Poll(table, ready)
      modifies fdState
      ensures Collected(n, [], want)
    {
      ghost var rest := ReadyRemotes(table, table.remotes, ready);
      n := PollFirst(ready, rest, want);
      assert rest + [] == rest;
      n := PollRemotes(ready, n, [], want);
    }

    /** `ss_poll` after `select` has answered. */
    method Poll(ready: set<int>) returns (n: nat)
      requires Valid() && Inv(table)
      modifies fdState
      ensures Collected(n, [], ProxyTable.Poll(table, ready))
    {
      PollPrepared(memory, table, ready);
      n := PollAll(ready, ProxyTable.Poll(table, ready));
    }

    /** The call that `ss_loop` makes for one saved context. */
    method Dispatch(p: Saved, e: Env)
      requires Valid() && Inv(table) && LivePtr(memory, p) && Admissible(table, e) && e.newFd < fdState.Length
      modifies this, memory.connSet, memory.remoteSet, memory.nodeSet
      ensures Valid() && SafeStep(old(table), Ok(table), CtxOf(p))
      ensures Ok(table) == ProxyTable.Dispatch(role, old(table), CtxOf(p), e)
      ensures Live(old(table), CtxOf(p)) && CallStep(role, old(table), CtxOf(p), e, table)
      ensures Grown(old(memory), memory) && KeepsBlocks(old(memory), memory, CtxOf(p))
    {
      assert Live(table, CtxOf(p)) && Fresh(table, e.alloc);
      DispatchSafe(role, table, CtxOf(p), e);
      DispatchDecides(role, table, CtxOf(p), e);
      match p
      case ServerPtr => AcceptHandle(e);
      case ConnPtr(c) => IoHandle(c, e);
      case RemotePtr(r) => RemoteIoHandle(r, e);
    }

    /** What is left of a batch: its pointers are live and occur once each. */
    ghost predicate Left(saved: seq<Saved>)
      reads this
    {
      && Pending(table, Contexts(saved))
      && forall j :: 0 <= j < |saved| ==> LivePtr(memory, saved[j])
    }

    /** One call for the first of the saved contexts. */
    method DispatchFirst(ghost saved: seq<Saved>, p: Saved, e: Env)
      requires Valid() && Inv(table) && saved != [] && saved[0] == p && Left(saved)
      requires Admissible(table, e) && e.newFd < fdState.Length
      modifies this, memory.connSet, memory.remoteSet, memory.nodeSet
      ensures Valid() && Inv(table) && Left(saved[1..])
      ensures Ok(table) == ProxyTable.Dispatch(role, old(table), CtxOf(p), e)
      ensures Grown(old(memory), memory)
    {
      ghost var t := table;
      Dispatch(p, e);
      LeftKept(t, table, old(memory), memory, saved);
    }

    /** The rest of a batch is due: dispatching it from here on has the given outcome. */
    ghost predicate Due(saved: seq<Saved>, envs: seq<Env>, outcome: Result<Table>)
      reads this
    {
      && |saved| <= |envs| && Inv(table) && Left(saved)
      && AdmissibleAll(role, table, Contexts(saved), envs) && DispatchAll(role, table, Contexts(saved), envs) == outcome
    }

    /** The call for the i-th of the saved contexts. */
    method DispatchAt(i: nat, p: Saved, envs: seq<Env>, ghost saved: seq<Saved>, ghost outcome: Result<Table>)
      requires i < |saved| <= |envs| && saved[i] == p
      requires Valid() && Due(saved[i..], envs[i..], outcome) && FdsBelow(envs, fdState.Length)
      modifies this, memory.connSet, memory.remoteSet, memory.nodeSet
      ensures Valid() && Due(saved[i + 1..], envs[i + 1..], outcome) && Grown(old(memory), memory)
    {
      BatchNext(role, table, saved, envs, i);
      DispatchFirst(saved[i..], p, envs[i]);
    }

    /** The inner loop of `ss_loop` over the saved contexts. */
    method DispatchLoop(n: nat, envs: seq<Env>, ghost saved: seq<Saved>, ghost outcome: Result<Table>)
      requires Valid() && n == |saved| <= fdState.Length && fdState[..n] == saved
      requires n <= |envs| && FdsBelow(envs, fdState.Length) && Due(saved[0..], envs[0..], outcome)
      modifies this, memory.connSet, memory.remoteSet, memory.nodeSet
      ensures Valid() && Due(saved[n..], envs[n..], outcome) && Grown(old(memory), memory)
    {
      var i := 0;
      while i < n
        invariant i <= n
        invariant Valid() && Due(saved[i..], envs[i..], outcome) && Grown(old(memory), memory)
      {
        DispatchAt(i, fdState[i], envs, saved, outcome);
        i := i + 1;
      }
    }

    /** The dispatch of a batch. */
    method DispatchBatch(n: nat, envs: seq<Env>)
      requires Valid() && Inv(table) && n <= fdState.Length && n <= |envs| && Left(fdState[..n])
      requires AdmissibleAll(role, table, Contexts(fdState[..n]), envs) && FdsBelow(envs, fdState.Length)
      modifies this, memory.connSet, memory.remoteSet, memory.nodeSet
      ensures Valid() && Inv(table) && Grown(old(memory), memory)
      ensures Ok(table) == DispatchAll(role, old(table), Contexts(fdState[..n]), envs)
    {
      ghost var saved := fdState[..n];
      assert saved[0..] == saved && envs[0..] == envs;
      DispatchLoop(n, envs, saved, DispatchAll(role, table, Contexts(saved), envs));
    }

    /** One turn of `ss_loop`. */
    method Turn(round: Round)
      requires Valid() && Inv(table) && |ProxyTable.Poll(table, round.ready)| <= |round.envs|
      requires AdmissibleAll(role, table, ProxyTable.Poll(table, round.ready), round.envs)
      requires FdsBelow(round.envs, fdState.Length)
      modifies this, memory.connSet, memory.remoteSet, memory.nodeSet, fdState
      ensures Valid() && Inv(table) && Grown(old(memory), memory)
      ensures Ok(table) == DispatchAll(role, old(table), ProxyTable.Poll(old(table), round.ready), round.envs)
    {
      PollPending(table, round.ready);
      var n := Poll(round.ready);
      assert Contexts(fdState[..n]) == ProxyTable.Poll(table, round.ready);
      DispatchBatch(n, round.envs);
    }

    /** The turn that starts the rest of a run. */
    method FirstTurn(rounds: seq<Round>, i: nat, ghost outcome: Result<Table>)
      requires Valid() && Inv(table) && i < |rounds| && FdsBelow(rounds[i].envs, fdState.Length)
      requires AdmissibleRun(role, table, rounds[i..]) && Run(role, table, rounds[i..]) == outcome
      modifies this, memory.connSet, memory.remoteSet, memory.nodeSet, fdState
      ensures Valid() && Inv(table) && Grown(old(memory), memory)
      ensures AdmissibleRun(role, table, rounds[i + 1..]) && Run(role, table, rounds[i + 1..]) == outcome
    {
      RunNext(role, table, rounds, i);
      Turn(rounds[i]);
    }

    /** `ss_loop`, for as many turns as the environment gives answers for. */
    method Loop(rounds: seq<Round>)
      requires Valid() && Inv(table) && AdmissibleRun(role, table, rounds)
      requires forall i :: 0 <= i < |rounds| ==> FdsBelow(rounds[i].envs, fdState.Length)
      modifies this, memory.connSet, memory.remoteSet, memory.nodeSet, fdState
      ensures Valid() && Inv(table)
      ensures Ok(table) == Run(role, old(table), rounds)
    {
      var i := 0;
      ghost var outcome := Run(role, table, rounds);
      assert rounds[0..] == rounds;
      while i < |rounds|
        invariant i <= |rounds| && Valid() && Inv(table) && Grown(old(memory), memory)
        invariant AdmissibleRun(role, table, rounds[i..]) && Run(role, table, rounds[i..]) == outcome
      {
        FirstTurn(rounds, i, outcome);
        i := i + 1;
      }
    }
  }

  /** Both programs: create the server and loop. */
  method Serve(role: Role, sockFd: int, rounds: seq<Round>) returns (server: Server)
    requires 0 <= sockFd < FD_STATES && AdmissibleRun(role, Created(sockFd), rounds)
    requires forall i :: 0 <= i < |rounds| ==> FdsBelow(rounds[i].envs, FD_STATES)
    ensures server.Valid() && Inv(server.table) && Ok(server.table) == Run(role, Created(sockFd), rounds)
    ensures exists ts :: IsTurns(role, rounds, ts) && ts[0] == Created(sockFd) && ts[|rounds|] == server.table
  {
    server := new Server(role, sockFd);
    CreatedInv(sockFd);
    ghost var ts := RunIsTurns(role, Created(sockFd), rounds);
    server.Loop(rounds);
  }

  lemma PollPrepared(m: Memory, t: Table, ready: set<int>)
    requires Mirrors(m, t) && Inv(t)
    ensures ConnWalk(m, t) && RemoteWalk(m, t) && |ProxyTable.Poll(t, ready)| <= t.maxFd + 1
  {
    ConnWalks(m, t);
    RemoteWalks(m, t);
    BatchFits(t, ready);
  }

  ghost predicate FdsBelow(envs: seq<Env>, limit: int) {
    forall i :: 0 <= i < |envs| ==> envs[i].newFd < limit
  }

  /** Unrolls one call of a batch. */
  lemma BatchNext(role: Role, t: Table, saved: seq<Saved>, envs: seq<Env>, i: nat)
    requires i < |saved| <= |envs| && AdmissibleAll(role, t, Contexts(saved[i..]), envs[i..])
    ensures Admissible(t, envs[i]) && saved[i..][1..] == saved[i + 1..]
    ensures var r := Dispatch(role, t, CtxOf(saved[i]), envs[i]);
            r.Ok? ==>
              && AdmissibleAll(role, r.value, Contexts(saved[i + 1..]), envs[i + 1..])
              && DispatchAll(role, t, Contexts(saved[i..]), envs[i..])
                 == DispatchAll(role, r.value, Contexts(saved[i + 1..]), envs[i + 1..])
  {
    assert envs[i..][1..] == envs[i + 1..];
    assert Contexts(saved[i..])[1..] == Contexts(saved[i + 1..]);
  }

  /** The call for the first saved context leaves the others live. */
  lemma LeftKept(t: Table, t': Table, m: Memory, m': Memory, saved: seq<Saved>)
    requires saved != [] && Pending(t, Contexts(saved)) && forall j :: 0 <= j < |saved| ==> LivePtr(m, saved[j])
    requires KeepsOthers(t, t', CtxOf(saved[0])) && KeepsBlocks(m, m', CtxOf(saved[0]))
    ensures Pending(t', Contexts(saved[1..])) && forall j :: 1 <= j < |saved| ==> LivePtr(m', saved[j])
  {
    var b, b' := Contexts(saved), Contexts(saved[1..]);
    assert forall j :: 0 <= j < |b'| ==> b'[j] == b[j + 1];
  }

  lemma ReadyConnsNext(t: Table, s: seq<Addr>, i: nat, ready: set<int>, rest: seq<Ctx>)
    requires i < |s| && s[i] in t.connAt
    ensures ReadyConns(t, s[i..], ready) + rest
            == (if t.connAt[s[i]].fd in ready then [ConnCtx(s[i])] else [])
               + (ReadyConns(t, s[i + 1..], ready) + rest)
  {
    assert s[i..][1..] == s[i + 1..];
  }

  lemma ReadyRemotesNext(t: Table, s: seq<Addr>, i: nat, ready: set<int>, rest: seq<Ctx>)
    requires i < |s| && s[i] in t.remoteAt
    ensures ReadyRemotes(t, s[i..], ready) + rest
            == (if t.remoteAt[s[i]].fd in ready then [RemoteCtx(s[i])] else [])
               + (ReadyRemotes(t, s[i + 1..], ready) + rest)
  {
    assert s[i..][1..] == s[i + 1..];
  }

  /** Unrolls one turn of a run. */
  lemma RunNext(role: Role, t: Table, rounds: seq<Round>, i: nat)
    requires i < |rounds| && AdmissibleRun(role, t, rounds[i..])
    ensures var batch := ProxyTable.Poll(t, rounds[i].ready);
            && |batch| <= |rounds[i].envs|
            && AdmissibleAll(role, t, batch, rounds[i].envs)
            && var r := DispatchAll(role, t, batch, rounds[i].envs);
               r.Ok? ==>
                 && AdmissibleRun(role, r.value, rounds[i + 1..])
                 && Run(role, t, rounds[i..]) == Run(role, r.value, rounds[i + 1..])
  {
    assert rounds[i..][1..] == rounds[i + 1..];
  }
}
