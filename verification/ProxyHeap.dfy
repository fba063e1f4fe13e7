/** The blocks the proxy allocates, linked by references, and what it means that a table of values
    describes them. (Python/socks5/socks5_c-master/socks.h:52-75) */
module ProxyHeap {
  import opened Options
  import opened ProxyTable
  import opened ProxyInvariant
  import opened ProxySafety
  import Lists

  /** `struct ss_conn_ctx` */
  class ConnBlock {
    const addr: Addr
    const list: Lists.Node
    const fd: int
    var state: ConnState
    var remoteCount: nat
    var remote: RemoteBlock?

    constructor (addr: Addr, fd: int)
      ensures this.addr == addr && this.fd == fd && fresh(list) && list.container == addr
      ensures state == Opening && remoteCount == 0 && remote == null
    {
      this.addr, this.fd := addr, fd;
      list := new Lists.Node(addr);
      state, remoteCount, remote := Opening, 0, null;
    }
  }

  /** `struct ss_remote_ctx` */
  class RemoteBlock {
    const addr: Addr
    const list: Lists.Node
    const fd: int
    var connEntry: ConnBlock?

    constructor (addr: Addr, fd: int, conn: ConnBlock)
      ensures this.addr == addr && this.fd == fd && fresh(list) && list.container == addr
      ensures connEntry == conn
    {
      this.addr, this.fd := addr, fd;
      list := new Lists.Node(addr);
      connEntry := conn;
    }
  }

  /** The allocated blocks by address. A block that is freed leaves the map, and its address may return. */
  type ConnHeap = map<Addr, ConnBlock>
  type RemoteHeap = map<Addr, RemoteBlock>

  // ----- pointers

  /** The pointer leads to an allocated block, not merely to an address that is in use again. */
  ghost predicate LiveConn(cs: ConnHeap, p: ConnBlock) {
    p.addr in cs && cs[p.addr] == p
  }

  ghost predicate LiveRemote(rs: RemoteHeap, p: RemoteBlock) {
    p.addr in rs && rs[p.addr] == p
  }

  ghost predicate ConnRef(cs: ConnHeap, p: ConnBlock?, a: Option<Addr>) {
    if p == null then a == None else LiveConn(cs, p) && a == Some(p.addr)
  }

  ghost predicate RemoteRef(rs: RemoteHeap, p: RemoteBlock?, a: Option<Addr>) {
    if p == null then a == None else LiveRemote(rs, p) && a == Some(p.addr)
  }

  // ----- blocks and their values

  ghost predicate ConnIs(o: ConnBlock, v: Conn, rs: RemoteHeap)
    reads o
  {
    o.fd == v.fd && o.state == v.state && o.remoteCount == v.remoteCount && RemoteRef(rs, o.remote, v.remote)
  }

  ghost predicate RemoteIs(o: RemoteBlock, v: Remote, cs: ConnHeap)
    reads o
  {
    o.fd == v.fd && ConnRef(cs, o.connEntry, v.connEntry)
  }

  ghost predicate ConnsAre(cs: ConnHeap, rs: RemoteHeap, m: map<Addr, Conn>, all: set<ConnBlock>)
    reads all
  {
    && (forall a :: a in cs ==> cs[a] in all)
    && (forall a :: a in cs <==> a in m)
    && forall a :: a in cs ==> cs[a].addr == a && cs[a].list.container == a && ConnIs(cs[a], m[a], rs)
  }

  ghost predicate RemotesAre(cs: ConnHeap, rs: RemoteHeap, m: map<Addr, Remote>, all: set<RemoteBlock>)
    reads all
  {
    && (forall a :: a in rs ==> rs[a] in all)
    && (forall a :: a in rs <==> a in m)
    && forall a :: a in rs ==> rs[a].addr == a && rs[a].list.container == a && RemoteIs(rs[a], m[a], cs)
  }

  // ----- the lists

  /** The nodes are those embedded in the blocks at the given addresses, in order. */
  ghost predicate ConnNodes(nodes: seq<Lists.Node>, s: seq<Addr>, cs: ConnHeap) {
    |nodes| == |s| && forall i :: 0 <= i < |s| ==> s[i] in cs && nodes[i] == cs[s[i]].list
  }

  ghost predicate RemoteNodes(nodes: seq<Lists.Node>, s: seq<Addr>, rs: RemoteHeap) {
    |nodes| == |s| && forall i :: 0 <= i < |s| ==> s[i] in rs && nodes[i] == rs[s[i]].list
  }

  /** Two lists without a common node. */
  ghost predicate DisjointLists(h: Lists.Node, s: seq<Lists.Node>, g: Lists.Node, r: seq<Lists.Node>)
    reads h, s, g, r
  {
    && Lists.IsList(h, s) && Lists.IsList(g, r)
    && h != g && h !in r && g !in s && forall x :: x in s ==> x !in r
  }

  lemma DisjointFamily(h: Lists.Node, s: seq<Lists.Node>, g: Lists.Node, r: seq<Lists.Node>)
    requires DisjointLists(h, s, g, r)
    ensures Lists.AllLists(map[h := s, g := r])
  {
  }

  lemma FamilyDisjoint(lists: Lists.Family, h: Lists.Node, g: Lists.Node)
    requires Lists.AllLists(lists) && h in lists && g in lists && h != g
    ensures DisjointLists(h, lists[h], g, lists[g])
  {
    Lists.TwoLists(lists, h, g);
  }

  /** The neighbours of the head and of an entry are the head or entries. */
  lemma FirstNode(h: Lists.Node, s: seq<Lists.Node>)
    requires Lists.IsList(h, s)
    ensures h.next == if s == [] then h else s[0]
  {
    assert Lists.At(h, s, 0).next == Lists.At(h, s, 0 + 1);
  }

  lemma Neighbours(h: Lists.Node, s: seq<Lists.Node>, k: nat)
    requires Lists.IsList(h, s) && k < |s|
    ensures s[k].prev == if k == 0 then h else s[k - 1]
    ensures s[k].next == if k == |s| - 1 then h else s[k + 1]
  {
    assert Lists.At(h, s, k + 1).next == Lists.At(h, s, k + 1 + 1);
    assert Lists.At(h, s, k + 1).prev == Lists.At(h, s, k);
  }

  /** `list_add` to one of two lists. */
  method AddNode(n: Lists.Node, h: Lists.Node, ghost s: seq<Lists.Node>, ghost g: Lists.Node, ghost r: seq<Lists.Node>)
    requires DisjointLists(h, s, g, r) && n != h && n != g && n !in s && n !in r
    modifies n, h, h.next
    ensures DisjointLists(h, [n] + s, g, r)
  {
    DisjointFamily(h, s, g, r);
    ghost var lists: Lists.Family := map[h := s, g := r];
    Lists.Add(n, h, lists);
    FamilyDisjoint(lists[h := [n] + s], h, g);
  }

  /** `list_del` from one of two lists. */
  method DelNode(n: Lists.Node, ghost h: Lists.Node, ghost s: seq<Lists.Node>, ghost k: nat,
                 ghost g: Lists.Node, ghost r: seq<Lists.Node>)
    requires DisjointLists(h, s, g, r) && k < |s| && s[k] == n
    modifies n, n.prev, n.next
    ensures DisjointLists(h, s[..k] + s[k + 1..], g, r)
  {
    DisjointFamily(h, s, g, r);
    ghost var lists: Lists.Family := map[h := s, g := r];
    Lists.Del(n, h, k, lists);
    FamilyDisjoint(lists[h := s[..k] + s[k + 1..]], h, g);
  }

  // ----- memory

  /** The allocated blocks, the two list heads with the nodes behind them, and sets of objects that hold
      all of these and everything freed before. */
  datatype Memory = Memory(
    conns: ConnHeap, remotes: RemoteHeap,
    connHead: Lists.Node, connNodes: seq<Lists.Node>,
    remoteHead: Lists.Node, remoteNodes: seq<Lists.Node>,
    connSet: set<ConnBlock>, remoteSet: set<RemoteBlock>, nodeSet: set<Lists.Node>)

  ghost predicate Covered(m: Memory) {
    && m.connHead in m.nodeSet && m.remoteHead in m.nodeSet
    && (forall a :: a in m.conns ==> m.conns[a] in m.connSet && m.conns[a].list in m.nodeSet)
    && (forall a :: a in m.remotes ==> m.remotes[a] in m.remoteSet && m.remotes[a].list in m.nodeSet)
  }

  /** The blocks hold what the table says, and every pointer in them leads to an allocated block. */
  ghost predicate BlocksMirror(m: Memory, t: Table)
    reads m.connSet, m.remoteSet
  {
    && ConnNodes(m.connNodes, t.conns, m.conns) && RemoteNodes(m.remoteNodes, t.remotes, m.remotes)
    && ConnsAre(m.conns, m.remotes, t.connAt, m.connSet) && RemotesAre(m.conns, m.remotes, t.remoteAt, m.remoteSet)
  }

  ghost predicate Linked(m: Memory)
    reads m.connHead, m.connNodes, m.remoteHead, m.remoteNodes
  {
    DisjointLists(m.connHead, m.connNodes, m.remoteHead, m.remoteNodes)
  }

  ghost predicate Apart(m: Memory, n: Lists.Node) {
    n != m.connHead && n != m.remoteHead && n !in m.connNodes && n !in m.remoteNodes
  }

  ghost predicate Mirrors(m: Memory, t: Table)
    reads m.connSet, m.remoteSet, m.nodeSet
  {
    Covered(m) && BlocksMirror(m, t) && Linked(m)
  }

  ghost function EmptyMemory(h: Lists.Node, g: Lists.Node): Memory {
    Memory(map[], map[], h, [], g, [], {}, {}, {h, g})
  }

  lemma EmptyMirrors(h: Lists.Node, g: Lists.Node, fd: int)
    requires h != g && h.next == h && h.prev == h && g.next == g && g.prev == g
    ensures Mirrors(EmptyMemory(h, g), Created(fd))
  {
  }

  ghost function PlusConn(m: Memory, o: ConnBlock): Memory {
    m.(conns := m.conns[o.addr := o], connNodes := [o.list] + m.connNodes,
       connSet := m.connSet + {o}, nodeSet := m.nodeSet + {o.list})
  }

  lemma PlusConnMirrors(m: Memory, t: Table, o: ConnBlock)
    requires BlocksMirror(m, t) && o.addr !in m.conns && o.list.container == o.addr
    requires o.state == Opening && o.remoteCount == 0 && o.remote == null
    ensures BlocksMirror(PlusConn(m, o), AddConn(t, o.addr, o.fd))
  {
  }

  /** The memory part of `ss_server_add_conn`. */
  method AllocConn(a: Addr, fd: int, connHead: Lists.Node, ghost m: Memory, ghost t: Table) returns (o: ConnBlock)
    requires Mirrors(m, t) && a !in m.conns && connHead == m.connHead
    modifies connHead, connHead.next
    ensures fresh(o) && fresh(o.list) && o.addr == a && o.fd == fd
    ensures Mirrors(PlusConn(m, o), AddConn(t, a, fd))
  {
    o := new ConnBlock(a, fd);
    AddNode(o.list, connHead, m.connNodes, m.remoteHead, m.remoteNodes);
    PlusConnMirrors(m, t, o);
  }

  ghost function PlusRemote(m: Memory, o: RemoteBlock): Memory {
    m.(remotes := m.remotes[o.addr := o], remoteNodes := [o.list] + m.remoteNodes,
       remoteSet := m.remoteSet + {o}, nodeSet := m.nodeSet + {o.list})
  }

  /** Every connection but one is as the table says. */
  ghost predicate OthersMirror(m: Memory, t: Table, c: Addr)
    reads m.connSet
  {
    && (forall a :: a in m.conns <==> a in t.connAt)
    && forall a :: a in m.conns ==>
         && m.conns[a] in m.connSet && m.conns[a].addr == a && m.conns[a].list.container == a
         && (a != c ==> ConnIs(m.conns[a], t.connAt[a], m.remotes))
  }

  lemma PlusRemoteMirrors(m: Memory, t: Table, c: ConnBlock, o: RemoteBlock)
    requires ConnNodes(m.connNodes, t.conns, m.conns) && RemoteNodes(m.remoteNodes, t.remotes, m.remotes)
    requires OthersMirror(m, t, c.addr) && RemotesAre(m.conns, m.remotes, t.remoteAt, m.remoteSet)
    requires LiveConn(m.conns, c) && o.addr !in m.remotes && o.list.container == o.addr && o.connEntry == c && o.fd >= 0
    requires var v := t.connAt[c.addr];
             c.fd == v.fd && c.state == v.state && c.remoteCount == v.remoteCount + 1 && c.remote == o
    ensures BlocksMirror(PlusRemote(m, o), Attached(t, c.addr, o.addr, o.fd))
  {
    PlusRemoteConns(m, t, c, o);
    PlusRemoteRemotes(m, t, c, o);
  }

  lemma PlusRemoteConns(m: Memory, t: Table, c: ConnBlock, o: RemoteBlock)
    requires OthersMirror(m, t, c.addr) && LiveConn(m.conns, c) && o.addr !in m.remotes && o.fd >= 0
    requires var v := t.connAt[c.addr];
             c.fd == v.fd && c.state == v.state && c.remoteCount == v.remoteCount + 1 && c.remote == o
    ensures ConnsAre(m.conns, m.remotes[o.addr := o], Attached(t, c.addr, o.addr, o.fd).connAt, m.connSet)
  {
  }

  lemma PlusRemoteRemotes(m: Memory, t: Table, c: ConnBlock, o: RemoteBlock)
    requires RemotesAre(m.conns, m.remotes, t.remoteAt, m.remoteSet) && c.addr in t.connAt && LiveConn(m.conns, c)
    requires o.addr !in m.remotes && o.list.container == o.addr && o.connEntry == c && o.fd >= 0
    ensures RemotesAre(m.conns, m.remotes[o.addr := o], Attached(t, c.addr, o.addr, o.fd).remoteAt, m.remoteSet + {o})
  {
  }

  /** A new remote, with pointers both ways. */
  method HookRemote(c: ConnBlock, a: Addr, fd: int, ghost m: Memory, ghost t: Table) returns (o: RemoteBlock)
    requires BlocksMirror(m, t) && LiveConn(m.conns, c) && a !in m.remotes && fd >= 0
    modifies c
    ensures fresh(o) && fresh(o.list) && o.addr == a && o.fd == fd
    ensures BlocksMirror(PlusRemote(m, o), Attached(t, c.addr, a, fd))
  {
    o := new RemoteBlock(a, fd, c);
    c.remote := o;
    c.remoteCount := c.remoteCount + 1;
    PlusRemoteMirrors(m, t, c, o);
  }

  method LinkRemote(o: RemoteBlock, remoteHead: Lists.Node, ghost m: Memory, ghost t: Table)
    requires Covered(m) && Linked(m) && BlocksMirror(PlusRemote(m, o), t)
    requires remoteHead == m.remoteHead && Apart(m, o.list)
    modifies o.list, remoteHead, remoteHead.next
    ensures Mirrors(PlusRemote(m, o), t)
  {
    AddNode(o.list, remoteHead, m.remoteNodes, m.connHead, m.connNodes);
  }

  /** The memory part of `ss_conn_add_remote` when the connect succeeds. */
  method AllocRemote(c: ConnBlock, a: Addr, fd: int, remoteHead: Lists.Node, ghost m: Memory, ghost t: Table, ghost t': Table)
    returns (o: RemoteBlock)
    requires Mirrors(m, t) && LiveConn(m.conns, c) && a !in m.remotes && fd >= 0 && remoteHead == m.remoteHead
    requires t' == Attached(t, c.addr, a, fd)
    modifies c, remoteHead, remoteHead.next
    ensures fresh(o) && fresh(o.list) && o.addr == a && o.fd == fd
    ensures Mirrors(PlusRemote(m, o), t')
  {
    o := HookRemote(c, a, fd, m, t);
    LinkRemote(o, remoteHead, m, t');
  }

  method SetConnState(c: ConnBlock, s: ConnState, ghost m: Memory, ghost t: Table)
    requires Mirrors(m, t) && LiveConn(m.conns, c)
    modifies c
    ensures Mirrors(m, SetState(t, c.addr, s).value)
  {
    c.state := s;
  }

  // ----- freeing

  ghost function MinusConn(m: Memory, c: Addr, k: nat): Memory
    requires k < |m.connNodes|
  {
    m.(conns := m.conns - {c}, connNodes := m.connNodes[..k] + m.connNodes[k + 1..])
  }

  ghost function MinusRemote(m: Memory, r: Addr, k: nat): Memory
    requires k < |m.remoteNodes|
  {
    m.(remotes := m.remotes - {r}, remoteNodes := m.remoteNodes[..k] + m.remoteNodes[k + 1..])
  }

  lemma MinusConnNodes(nodes: seq<Lists.Node>, s: seq<Addr>, blocks: ConnHeap, c: Addr, k: nat)
    requires ConnNodes(nodes, s, blocks) && Distinct(s) && k < |s| && s[k] == c
    ensures ConnNodes(nodes[..k] + nodes[k + 1..], Without(s, c), blocks - {c})
  {
    WithoutAt(s, k);
  }

  lemma MinusConnRefs(m: Memory, t: Table, c: Addr)
    requires ConnsAre(m.conns, m.remotes, t.connAt, m.connSet) && RemotesAre(m.conns, m.remotes, t.remoteAt, m.remoteSet)
    requires forall x :: x in t.remoteAt ==> t.remoteAt[x].connEntry != Some(c)
    ensures ConnsAre(m.conns - {c}, m.remotes, t.connAt - {c}, m.connSet)
    ensures RemotesAre(m.conns - {c}, m.remotes, t.remoteAt, m.remoteSet)
  {
  }

  /** A connection that nothing points at may be freed. */
  lemma MinusConnMirrors(m: Memory, t: Table, c: Addr, k: nat, t': Table)
    requires BlocksMirror(m, t) && Distinct(t.conns) && k < |t.conns| && t.conns[k] == c
    requires forall x :: x in t.remoteAt ==> t.remoteAt[x].connEntry != Some(c)
    requires t'.conns == Without(t.conns, c) && t'.connAt == t.connAt - {c}
    requires t'.remotes == t.remotes && t'.remoteAt == t.remoteAt
    ensures BlocksMirror(MinusConn(m, c, k), t')
  {
    MinusConnNodes(m.connNodes, t.conns, m.conns, c, k);
    MinusConnRefs(m, t, c);
  }

  /** Every remote but one is as the table says. */
  ghost predicate OtherRemotes(m: Memory, t: Table, r: Addr)
    reads m.remoteSet
  {
    && (forall a :: a in m.remotes <==> a in t.remoteAt)
    && forall a :: a in m.remotes ==>
         && m.remotes[a] in m.remoteSet && m.remotes[a].addr == a && m.remotes[a].list.container == a
         && m.remotes[a].fd == t.remoteAt[a].fd
         && (a != r ==> RemoteIs(m.remotes[a], t.remoteAt[a], m.conns))
  }

  /** A cleared pointer in the block of a remote is a cleared pointer in the table. */
  lemma ClearedRemote(m: Memory, t: Table, r: Addr, rm: map<Addr, Remote>)
    requires ConnNodes(m.connNodes, t.conns, m.conns) && RemoteNodes(m.remoteNodes, t.remotes, m.remotes)
    requires ConnsAre(m.conns, m.remotes, t.connAt, m.connSet) && OtherRemotes(m, t, r)
    requires r in m.remotes && m.remotes[r].connEntry == null
    requires rm == t.remoteAt[r := t.remoteAt[r].(connEntry := None)]
    ensures BlocksMirror(m, t.(remoteAt := rm))
  {
  }

  /** Clears the pointer back to a connection that is about to be freed. */
  method UnhookConn(c: ConnBlock, ghost m: Memory, ghost t: Table)
    requires BlocksMirror(m, t) && LinksOk(t) && LiveConn(m.conns, c)
    modifies c.remote
    ensures var rest := Unlink(t.remoteAt, t.connAt[c.addr].remote);
            && rest.Ok? && BlocksMirror(m, t.(remoteAt := rest.value))
            && forall x :: x in rest.value ==> rest.value[x].connEntry != Some(c.addr)
  {
    UnlinkedClean(t, c.addr);
    ghost var rest := Unlink(t.remoteAt, t.connAt[c.addr].remote);
    var remote := c.remote;
    if remote != null {
      assert LiveRemote(m.remotes, remote);
      remote.connEntry := null;
      ClearedRemote(m, t, remote.addr, rest.value);
    }
  }

  /** Takes a node off its list. */
  method UnlinkConn(c: ConnBlock, ghost k: nat, ghost m: Memory, ghost t: Table)
    requires Covered(m) && Linked(m) && k < |m.connNodes| && c.list == m.connNodes[k]
    requires BlocksMirror(MinusConn(m, c.addr, k), t)
    modifies c.list, c.list.prev, c.list.next
    ensures Mirrors(MinusConn(m, c.addr, k), t)
  {
    DelNode(c.list, m.connHead, m.connNodes, k, m.remoteHead, m.remoteNodes);
  }

  /** Leaves out of the memory a block whose node is the k-th. */
  method DropConn(c: ConnBlock, ghost k: nat, ghost m: Memory, ghost t: Table, ghost t': Table)
    requires BlocksMirror(m, t) && LinksOk(t) && LiveConn(m.conns, c) && Ok(t') == DelConn(t, c.addr)
    requires Distinct(t.conns) && k < |t.conns| && t.conns[k] == c.addr
    modifies c.remote
    ensures BlocksMirror(MinusConn(m, c.addr, k), t')
  {
    UnhookConn(c, m, t);
    ghost var rest := Unlink(t.remoteAt, t.connAt[c.addr].remote).value;
    MinusConnMirrors(m, t.(remoteAt := rest), c.addr, k, t');
  }

  /** The memory part of `ss_server_del_conn`. */
  method FreeConn(c: ConnBlock, ghost k: nat, ghost m: Memory, ghost t: Table, ghost t': Table)
    requires Mirrors(m, t) && LinksOk(t) && LiveConn(m.conns, c) && Ok(t') == DelConn(t, c.addr)
    requires Distinct(t.conns) && k < |t.conns| && t.conns[k] == c.addr
    modifies c.remote, c.list, c.list.prev, c.list.next
    ensures k < |m.connNodes| && Mirrors(MinusConn(m, c.addr, k), t')
  {
    DropConn(c, k, m, t, t');
    UnlinkConn(c, k, m, t');
  }

  lemma MinusRemoteNodes(nodes: seq<Lists.Node>, s: seq<Addr>, blocks: RemoteHeap, r: Addr, k: nat)
    requires RemoteNodes(nodes, s, blocks) && Distinct(s) && k < |s| && s[k] == r
    ensures RemoteNodes(nodes[..k] + nodes[k + 1..], Without(s, r), blocks - {r})
  {
    WithoutAt(s, k);
  }

  lemma MinusRemoteRefs(m: Memory, t: Table, r: Addr)
    requires ConnsAre(m.conns, m.remotes, t.connAt, m.connSet) && RemotesAre(m.conns, m.remotes, t.remoteAt, m.remoteSet)
    requires forall x :: x in t.connAt ==> t.connAt[x].remote != Some(r)
    ensures ConnsAre(m.conns, m.remotes - {r}, t.connAt, m.connSet)
    ensures RemotesAre(m.conns, m.remotes - {r}, t.remoteAt - {r}, m.remoteSet)
  {
  }

  /** A remote that nothing points at may be freed. */
  lemma MinusRemoteMirrors(m: Memory, t: Table, r: Addr, k: nat, t': Table)
    requires BlocksMirror(m, t) && Distinct(t.remotes) && k < |t.remotes| && t.remotes[k] == r
    requires forall x :: x in t.connAt ==> t.connAt[x].remote != Some(r)
    requires t'.remotes == Without(t.remotes, r) && t'.remoteAt == t.remoteAt - {r}
    requires t'.conns == t.conns && t'.connAt == t.connAt
    ensures BlocksMirror(MinusRemote(m, r, k), t')
  {
    MinusRemoteNodes(m.remoteNodes, t.remotes, m.remotes, r, k);
    MinusRemoteRefs(m, t, r);
  }

  /** A cleared pointer in the block of a connection is a cleared pointer in the table. */
  lemma ClearedConn(m: Memory, t: Table, c: Addr, cm: map<Addr, Conn>)
    requires ConnNodes(m.connNodes, t.conns, m.conns) && RemoteNodes(m.remoteNodes, t.remotes, m.remotes)
    requires OthersMirror(m, t, c) && RemotesAre(m.conns, m.remotes, t.remoteAt, m.remoteSet)
    requires c in m.conns && m.conns[c].remote == null
    requires var o, v := m.conns[c], t.connAt[c]; o.fd == v.fd && o.state == v.state && o.remoteCount == v.remoteCount
    requires cm == t.connAt[c := t.connAt[c].(remote := None)]
    ensures BlocksMirror(m, t.(connAt := cm))
  {
  }

  /** Clears the pointer back to a remote that is about to be freed. */
  method UnhookRemote(r: RemoteBlock, ghost m: Memory, ghost t: Table)
    requires BlocksMirror(m, t) && LinksOk(t) && LiveRemote(m.remotes, r)
    modifies r.connEntry
    ensures var rest := Detach(t.connAt, t.remoteAt[r.addr].connEntry);
            && rest.Ok? && BlocksMirror(m, t.(connAt := rest.value))
            && forall x :: x in rest.value ==> rest.value[x].remote != Some(r.addr)
  {
    DetachedClean(t, r.addr);
    ghost var rest := Detach(t.connAt, t.remoteAt[r.addr].connEntry);
    var conn := r.connEntry;
    if conn != null {
      assert LiveConn(m.conns, conn);
      conn.remote := null;
      ClearedConn(m, t, conn.addr, rest.value);
    }
  }

  /** Takes a node off its list. */
  method UnlinkRemote(r: RemoteBlock, ghost k: nat, ghost m: Memory, ghost t: Table)
    requires Covered(m) && Linked(m) && k < |m.remoteNodes| && r.list == m.remoteNodes[k]
    requires BlocksMirror(MinusRemote(m, r.addr, k), t)
    modifies r.list, r.list.prev, r.list.next
    ensures Mirrors(MinusRemote(m, r.addr, k), t)
  {
    DelNode(r.list, m.remoteHead, m.remoteNodes, k, m.connHead, m.connNodes);
  }

  /** Leaves out of the memory a block whose node is the k-th. */
  method DropRemote(r: RemoteBlock, ghost k: nat, ghost m: Memory, ghost t: Table, ghost t': Table)
    requires BlocksMirror(m, t) && LinksOk(t) && LiveRemote(m.remotes, r) && Ok(t') == DelRemote(t, r.addr)
    requires Distinct(t.remotes) && k < |t.remotes| && t.remotes[k] == r.addr
    modifies r.connEntry
    ensures BlocksMirror(MinusRemote(m, r.addr, k), t')
  {
    UnhookRemote(r, m, t);
    ghost var rest := Detach(t.connAt, t.remoteAt[r.addr].connEntry).value;
    MinusRemoteMirrors(m, t.(connAt := rest), r.addr, k, t');
  }

  /** The memory part of `ss_del_remote`. */
  method FreeRemote(r: RemoteBlock, ghost k: nat, ghost m: Memory, ghost t: Table, ghost t': Table)
    requires Mirrors(m, t) && LinksOk(t) && LiveRemote(m.remotes, r) && Ok(t') == DelRemote(t, r.addr)
    requires Distinct(t.remotes) && k < |t.remotes| && t.remotes[k] == r.addr
    modifies r.connEntry, r.list, r.list.prev, r.list.next
    ensures k < |m.remoteNodes| && Mirrors(MinusRemote(m, r.addr, k), t')
  {
    DropRemote(r, k, m, t, t');
    UnlinkRemote(r, k, m, t');
  }

  // ----- frames

  /** Where an address is on a list. */
  ghost function Position(s: seq<Addr>, a: Addr): (k: nat)
    requires a in s
    ensures k < |s| && s[k] == a
  {
    var k :| 0 <= k < |s| && s[k] == a;
    k
  }

  /** What adding to a list changes is part of the memory. */
  lemma HeadsCovered(m: Memory, t: Table)
    requires Mirrors(m, t)
    ensures m.connHead.next != null && m.connHead.next in m.nodeSet
    ensures m.remoteHead.next != null && m.remoteHead.next in m.nodeSet
  {
    FirstNode(m.connHead, m.connNodes);
    FirstNode(m.remoteHead, m.remoteNodes);
  }

  /** What deleting a connection changes is part of the memory. */
  lemma ConnCovered(c: ConnBlock, k: nat, m: Memory, t: Table)
    requires Mirrors(m, t) && LiveConn(m.conns, c) && k < |t.conns| && t.conns[k] == c.addr
    ensures c.list in m.nodeSet && c.list.prev != null && c.list.next != null
    ensures c.list.prev in m.nodeSet && c.list.next in m.nodeSet
    ensures c in m.connSet && (c.remote == null || c.remote in m.remoteSet)
  {
    Neighbours(m.connHead, m.connNodes, k);
  }

  /** What deleting a remote changes is part of the memory. */
  lemma RemoteCovered(r: RemoteBlock, k: nat, m: Memory, t: Table)
    requires Mirrors(m, t) && LiveRemote(m.remotes, r) && k < |t.remotes| && t.remotes[k] == r.addr
    ensures r.list in m.nodeSet && r.list.prev != null && r.list.next != null
    ensures r.list.prev in m.nodeSet && r.list.next in m.nodeSet
    ensures r.connEntry == null || r.connEntry in m.connSet
  {
    Neighbours(m.remoteHead, m.remoteNodes, k);
  }

  // ----- growth

  /** Only newly allocated objects have joined the memory. */
  twostate predicate Grown(m: Memory, new m': Memory) {
    && (forall x :: x in m'.connSet ==> x in m.connSet || fresh(x))
    && (forall x :: x in m'.remoteSet ==> x in m.remoteSet || fresh(x))
    && (forall x :: x in m'.nodeSet ==> x in m.nodeSet || fresh(x))
  }

  ghost predicate SameObjects(m: Memory, m': Memory) {
    m'.connSet == m.connSet && m'.remoteSet == m.remoteSet && m'.nodeSet == m.nodeSet
  }

  /** Every allocated block but the one of `x` still is, at its address. */
  ghost predicate KeepsBlocks(m: Memory, m': Memory, x: Ctx) {
    && (forall a :: a in m.conns && ConnCtx(a) != x ==> a in m'.conns && m'.conns[a] == m.conns[a])
    && (forall a :: a in m.remotes && RemoteCtx(a) != x ==> a in m'.remotes && m'.remotes[a] == m.remotes[a])
  }

  twostate lemma PlusRemoteGrows(m: Memory, new r: RemoteBlock)
    requires fresh(r) && fresh(r.list) && r.addr !in m.remotes
    ensures Grown(m, PlusRemote(m, r)) && KeepsBlocks(m, PlusRemote(m, r), ServerCtx)
  {
  }

  // ----- saved contexts

  /** An entry of `fd_state`: what kind of context, and the pointer to it. */
  datatype Saved = ServerPtr | ConnPtr(conn: ConnBlock) | RemotePtr(remote: RemoteBlock)

  function CtxOf(p: Saved): Ctx {
    match p
    case ServerPtr => ServerCtx
    case ConnPtr(o) => ConnCtx(o.addr)
    case RemotePtr(o) => RemoteCtx(o.addr)
  }

  ghost predicate LivePtr(m: Memory, p: Saved) {
    match p
    case ServerPtr => true
    case ConnPtr(o) => LiveConn(m.conns, o)
    case RemotePtr(o) => LiveRemote(m.remotes, o)
  }

  function Contexts(s: seq<Saved>): (r: seq<Ctx>)
    ensures |r| == |s| && forall i :: 0 <= i < |s| ==> r[i] == CtxOf(s[i])
  {
    seq(|s|, i requires 0 <= i < |s| => CtxOf(s[i]))
  }

  lemma ContextsSnoc(s: seq<Saved>, p: Saved, r: seq<Saved>)
    requires r == s + [p]
    ensures Contexts(r) == Contexts(s) + [CtxOf(p)]
  {
  }

  /** The walk over the connections: from each node back to its block, and on to the next node. */
  ghost predicate ConnWalk(m: Memory, t: Table)
    reads m.connHead, m.connNodes
  {
    && |m.connNodes| == |t.conns| && m.connHead.next == Lists.At(m.connHead, m.connNodes, 1)
    && m.connHead !in m.connNodes
    && forall i :: 0 <= i < |t.conns| ==>
         && t.conns[i] in t.connAt && t.conns[i] in m.conns && m.connNodes[i].container == t.conns[i]
         && m.conns[t.conns[i]].addr == t.conns[i] && m.conns[t.conns[i]].fd == t.connAt[t.conns[i]].fd
         && m.connNodes[i].next == Lists.At(m.connHead, m.connNodes, i + 2)
  }

  ghost predicate RemoteWalk(m: Memory, t: Table)
    reads m.remoteHead, m.remoteNodes
  {
    && |m.remoteNodes| == |t.remotes| && m.remoteHead.next == Lists.At(m.remoteHead, m.remoteNodes, 1)
    && m.remoteHead !in m.remoteNodes
    && forall i :: 0 <= i < |t.remotes| ==>
         && t.remotes[i] in t.remoteAt && t.remotes[i] in m.remotes && m.remoteNodes[i].container == t.remotes[i]
         && m.remotes[t.remotes[i]].addr == t.remotes[i] && m.remotes[t.remotes[i]].fd == t.remoteAt[t.remotes[i]].fd
         && m.remoteNodes[i].next == Lists.At(m.remoteHead, m.remoteNodes, i + 2)
  }

  lemma ConnWalks(m: Memory, t: Table)
    requires Mirrors(m, t)
    ensures ConnWalk(m, t)
  {
    FirstNode(m.connHead, m.connNodes);
    forall i | 0 <= i < |t.conns|
      ensures m.connNodes[i].next == Lists.At(m.connHead, m.connNodes, i + 2)
    {
      Neighbours(m.connHead, m.connNodes, i);
    }
  }

  lemma RemoteWalks(m: Memory, t: Table)
    requires Mirrors(m, t)
    ensures RemoteWalk(m, t)
  {
    FirstNode(m.remoteHead, m.remoteNodes);
    forall i | 0 <= i < |t.remotes|
      ensures m.remoteNodes[i].next == Lists.At(m.remoteHead, m.remoteNodes, i + 2)
    {
      Neighbours(m.remoteHead, m.remoteNodes, i);
    }
  }
}
