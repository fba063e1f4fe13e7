/** Safety of the event loop over every run and every answer of the environment. */
module ProxySafety {
  import opened Options
  import opened ProxyTable
  import opened ProxyInvariant

  /** The context is still allocated. */
  predicate Live(t: Table, x: Ctx) {
    match x
    case ServerCtx => true
    case ConnCtx(c) => c in t.connAt
    case RemoteCtx(r) => r in t.remoteAt
  }

  /** Every context but `x` that was allocated still is. */
  ghost predicate KeepsOthers(t: Table, t': Table, x: Ctx) {
    forall y: Ctx :: y != x && Live(t, y) ==> Live(t', y)
  }

  /** A step went well: no fault, the invariant kept, and at most the own context freed. */
  ghost predicate SafeStep(t: Table, r: Result<Table>, x: Ctx) {
    r.Ok? && Inv(r.value) && KeepsOthers(t, r.value, x)
  }

  lemma DelConnSafe(t: Table, c: Addr)
    requires Core(t) && c in t.connAt && StatesExcept(t, Some(c))
    ensures SafeStep(t, DelConn(t, c), ConnCtx(c))
  {
    DelConnCore(t, c);
  }

  lemma DelRemoteSafe(t: Table, r: Addr)
    requires Inv(t) && r in t.remoteAt
    ensures SafeStep(t, DelRemote(t, r), RemoteCtx(r))
  {
    DelRemoteCore(t, r);
  }

  lemma AcceptSafe(t: Table, e: Env)
    requires Inv(t) && Admissible(t, e)
    ensures SafeStep(t, AcceptHandle(t, e), ServerCtx)
  {
    if e.newFd >= 0 {
      AddConnCore(t, e.alloc, e.newFd);
    }
  }

  lemma ClientToRemoteSafe(t: Table, c: Addr, e: Env)
    requires Inv(t) && c in t.connAt
    ensures SafeStep(t, ClientToRemote(t, c, e), ConnCtx(c))
  {
    DelConnSafe(t, c);
  }

  lemma AttachFails(t: Table, c: Addr, e: Env)
    requires Core(t) && c in t.connAt && StatesExcept(t, Some(c)) && Admissible(t, e) && e.newFd < 0
    ensures SafeStep(t, AttachRemote(t, c, e), ConnCtx(c))
  {
    LeakCore(t, c, e.alloc, e.newFd);
    var t1 := AddRemote(t, c, e.alloc, e.newFd).value;
    DelConnSafe(t1, c);
    assert KeepsOthers(t, t1, ConnCtx(c));
  }

  /** The table after a successful attachment. */
  function WithRemote(t: Table, c: Addr, a: Addr, fd: int): Table
    requires c in t.connAt && fd >= 0
  {
    SetState(Attached(t, c, a, fd), c, Connecting).value
  }

  lemma WithRemoteCore(t: Table, c: Addr, a: Addr, fd: int)
    requires Core(t) && Fresh(t, a) && c in t.connAt && t.connAt[c].remote.None? && fd >= 0 && fd !in t.readSet
    ensures Core(WithRemote(t, c, a, fd))
  {
    AddRemoteCore(t, c, a, fd);
    SetStateCore(Attached(t, c, a, fd), c, Connecting);
  }

  lemma WithRemoteStates(t: Table, c: Addr, a: Addr, fd: int)
    requires c in t.connAt && t.connAt[c].remoteCount == 0 && StatesExcept(t, Some(c)) && fd >= 0
    ensures StatesExcept(WithRemote(t, c, a, fd), None)
    ensures KeepsOthers(t, WithRemote(t, c, a, fd), ConnCtx(c))
  {
  }

  lemma AttachSucceeds(t: Table, c: Addr, e: Env)
    requires Core(t) && c in t.connAt && StatesExcept(t, Some(c)) && Admissible(t, e) && e.newFd >= 0
    requires t.connAt[c].remote.None? && t.connAt[c].remoteCount == 0
    ensures SafeStep(t, AttachRemote(t, c, e), ConnCtx(c))
  {
    WithRemoteCore(t, c, e.alloc, e.newFd);
    WithRemoteStates(t, c, e.alloc, e.newFd);
  }

  lemma AttachSafe(t: Table, c: Addr, e: Env)
    requires Core(t) && c in t.connAt && StatesExcept(t, Some(c)) && Admissible(t, e)
    requires t.connAt[c].remote.None? && t.connAt[c].remoteCount == 0
    ensures SafeStep(t, AttachRemote(t, c, e), ConnCtx(c))
  {
    if e.newFd < 0 {
      AttachFails(t, c, e);
    } else {
      AttachSucceeds(t, c, e);
    }
  }

  lemma LocalOpeningSafe(t: Table, c: Addr, e: Env)
    requires Inv(t) && c in t.connAt && t.connAt[c].state.Opening? && Admissible(t, e)
    ensures SafeStep(t, LocalOpening(t, c, e), ConnCtx(c))
  {
    var t1 := SetState(t, c, Connecting).value;
    SetStateCore(t, c, Connecting);
    AttachSafe(t1, c, e);
  }

  lemma IoSafe(role: Role, t: Table, c: Addr, e: Env)
    requires Inv(t) && c in t.connAt && Admissible(t, e)
    ensures SafeStep(t, IoHandle(role, t, c, e), ConnCtx(c))
  {
    assert StateOk(t.connAt[c]);
    DelConnSafe(t, c);
    ClientToRemoteSafe(t, c, e);
    if t.connAt[c].state.Opening? {
      LocalOpeningSafe(t, c, e);
      AttachSafe(t, c, e);
    }
  }

  lemma RemoteIoSafe(t: Table, r: Addr, e: Env)
    requires Inv(t) && r in t.remoteAt
    ensures SafeStep(t, RemoteIoHandle(t, r, e), RemoteCtx(r))
  {
    DelRemoteSafe(t, r);
  }

  /** Every handler call on a live context is safe, whatever the environment answers. */
  lemma DispatchSafe(role: Role, t: Table, x: Ctx, e: Env)
    requires Inv(t) && Live(t, x) && Admissible(t, e)
    ensures SafeStep(t, Dispatch(role, t, x, e), x)
  {
    match x
    case ServerCtx => AcceptSafe(t, e);
    case ConnCtx(c) => IoSafe(role, t, c, e);
    case RemoteCtx(r) => RemoteIoSafe(t, r, e);
  }

  // ----- batches

  /** The saved pointers of a batch are live and occur once each. */
  ghost predicate Pending(t: Table, batch: seq<Ctx>) {
    && (forall i :: 0 <= i < |batch| ==> Live(t, batch[i]))
    && (forall i, j :: 0 <= i < j < |batch| ==> batch[i] != batch[j])
  }

  lemma {:induction false} ReadyConnsPending(t: Table, s: seq<Addr>, ready: set<int>)
    requires Distinct(s)
    ensures Pending(t, ReadyConns(t, s, ready))
    ensures forall x :: x in ReadyConns(t, s, ready) <==>
              x.ConnCtx? && x.conn in s && x.conn in t.connAt && t.connAt[x.conn].fd in ready
  {
    if s != [] {
      ReadyConnsPending(t, s[1..], ready);
      assert forall a :: a in s <==> a == s[0] || a in s[1..];
      assert s[0] !in s[1..];
    }
  }

  lemma {:induction false} ReadyRemotesPending(t: Table, s: seq<Addr>, ready: set<int>)
    requires Distinct(s)
    ensures Pending(t, ReadyRemotes(t, s, ready))
    ensures forall x :: x in ReadyRemotes(t, s, ready) <==>
              x.RemoteCtx? && x.remote in s && x.remote in t.remoteAt && t.remoteAt[x.remote].fd in ready
  {
    if s != [] {
      ReadyRemotesPending(t, s[1..], ready);
      assert forall a :: a in s <==> a == s[0] || a in s[1..];
      assert s[0] !in s[1..];
    }
  }

  function FdOf(t: Table, x: Ctx): int
    requires Live(t, x)
  {
    match x
    case ServerCtx => t.sockFd
    case ConnCtx(c) => t.connAt[c].fd
    case RemoteCtx(r) => t.remoteAt[r].fd
  }

  lemma PendingConcat(t: Table, a: seq<Ctx>, b: seq<Ctx>)
    requires Pending(t, a) && Pending(t, b) && forall x :: x in a ==> x !in b
    ensures Pending(t, a + b)
  {
    assert forall i :: 0 <= i < |a| ==> a[i] in a;
    assert forall i :: 0 <= i < |b| ==> b[i] in b;
  }

  /** A poll collects exactly the readable contexts, each one live and each one once. */
  lemma PollPending(t: Table, ready: set<int>)
    requires Inv(t)
    ensures Pending(t, Poll(t, ready))
    ensures forall x :: x in Poll(t, ready) <==> Live(t, x) && FdOf(t, x) in ready
  {
    ReadyConnsPending(t, t.conns, ready);
    ReadyRemotesPending(t, t.remotes, ready);
    var a := ReadyServer(t, ready);
    var b := ReadyConns(t, t.conns, ready);
    PendingConcat(t, a, b);
    PendingConcat(t, a + b, ReadyRemotes(t, t.remotes, ready));
  }

  /** While a batch is dispatched, every saved pointer is live when its turn comes. */
  lemma {:induction false} DispatchAllSafe(role: Role, t: Table, batch: seq<Ctx>, envs: seq<Env>)
    requires |batch| <= |envs|
    requires Inv(t) && Pending(t, batch) && AdmissibleAll(role, t, batch, envs)
    ensures DispatchAll(role, t, batch, envs).Ok? && Inv(DispatchAll(role, t, batch, envs).value)
    decreases |batch|
  {
    if batch != [] {
      DispatchSafe(role, t, batch[0], envs[0]);
      var t1 := Dispatch(role, t, batch[0], envs[0]).value;
      assert forall i :: 0 <= i < |batch[1..]| ==> batch[1..][i] == batch[i + 1];
      DispatchAllSafe(role, t1, batch[1..], envs[1..]);
    }
  }

  /** No run of the proxy follows a dangling pointer, and every run keeps the invariant. */
  lemma {:induction false} RunSafe(role: Role, t: Table, rounds: seq<Round>)
    requires Inv(t) && AdmissibleRun(role, t, rounds)
    ensures Run(role, t, rounds).Ok? && Inv(Run(role, t, rounds).value)
    decreases |rounds|
  {
    if rounds != [] {
      var batch := Poll(t, rounds[0].ready);
      PollPending(t, rounds[0].ready);
      DispatchAllSafe(role, t, batch, rounds[0].envs);
      RunSafe(role, DispatchAll(role, t, batch, rounds[0].envs).value, rounds[1..]);
    }
  }

  lemma ProxyRunSafe(role: Role, sockFd: int, rounds: seq<Round>)
    requires 0 <= sockFd && AdmissibleRun(role, Created(sockFd), rounds)
    ensures Run(role, Created(sockFd), rounds).Ok? && Inv(Run(role, Created(sockFd), rounds).value)
  {
    CreatedInv(sockFd);
    RunSafe(role, Created(sockFd), rounds);
  }

  // ----- the batch array

  lemma {:induction false} Pigeonhole(s: seq<int>, n: nat)
    requires forall i :: 0 <= i < |s| ==> 0 <= s[i] < n
    requires forall i, j :: 0 <= i < j < |s| ==> s[i] != s[j]
    ensures |s| <= n
    decreases n
  {
    if s != [] {
      assert 0 <= s[0] < n;
      if k :| 0 <= k < |s| && s[k] == n - 1 {
        Pigeonhole(s[..k] + s[k + 1..], n - 1);
      } else {
        Pigeonhole(s, n - 1);
      }
    }
  }

  /** A batch is never longer than the number of descriptors `select` looks at, so with fewer than
      1024 of them the array of 10240 saved contexts cannot overflow. */
  lemma BatchFits(t: Table, ready: set<int>)
    requires Inv(t)
    ensures |Poll(t, ready)| <= t.maxFd + 1
  {
    var batch := Poll(t, ready);
    PollPending(t, ready);
    var fds := seq(|batch|, i requires 0 <= i < |batch| => FdOf(t, batch[i]));
    forall i | 0 <= i < |fds|
      ensures 0 <= fds[i] < t.maxFd + 1
    {
      FdOwned(t, batch[i]);
    }
    forall i, j | 0 <= i < j < |fds|
      ensures fds[i] != fds[j]
    {
      FdsDiffer(t, batch[i], batch[j]);
    }
    FdOwned(t, ServerCtx);
    Pigeonhole(fds, t.maxFd + 1);
  }

  lemma FdOwned(t: Table, x: Ctx)
    requires Inv(t) && Live(t, x)
    ensures 0 <= FdOf(t, x) <= t.maxFd
  {
    assert Owned(t, FdOf(t, x));
    assert FdOf(t, x) in t.readSet;
  }

  lemma FdsDiffer(t: Table, x: Ctx, y: Ctx)
    requires Inv(t) && Live(t, x) && Live(t, y) && x != y
    ensures FdOf(t, x) != FdOf(t, y)
  {
  }
}
