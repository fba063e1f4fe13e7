/** What every step of the proxy keeps, and that no run follows a dangling pointer. */
module ProxyInvariant {
  import opened Options
  import opened ProxyTable

  ghost predicate Distinct(s: seq<Addr>) {
    forall i, j :: 0 <= i < j < |s| ==> s[i] != s[j]
  }

  /** The lists hold exactly the allocated contexts, once each, and the counter counts them. */
  ghost predicate ListsOk(t: Table) {
    && Distinct(t.conns) && Distinct(t.remotes)
    && (forall a :: a in t.conns <==> a in t.connAt)
    && (forall a :: a in t.remotes <==> a in t.remoteAt)
    && t.connCount == |t.conns|
  }

  ghost predicate BlocksOk(t: Table) {
    t.connAt.Keys !! t.remoteAt.Keys && t.connAt.Keys !! t.leaked && t.remoteAt.Keys !! t.leaked
  }

  /** Connections and remotes point at each other, and only at live ones. */
  ghost predicate LinksOk(t: Table) {
    && (forall c :: c in t.connAt && t.connAt[c].remote.Some? ==>
          t.connAt[c].remote.value in t.remoteAt && t.remoteAt[t.connAt[c].remote.value].connEntry == Some(c))
    && (forall r :: r in t.remoteAt && t.remoteAt[r].connEntry.Some? ==>
          t.remoteAt[r].connEntry.value in t.connAt && t.connAt[t.remoteAt[r].connEntry.value].remote == Some(r))
  }

  ghost predicate Owned(t: Table, fd: int) {
    || fd == t.sockFd
    || (exists c :: c in t.connAt && t.connAt[c].fd == fd)
    || (exists r :: r in t.remoteAt && t.remoteAt[r].fd == fd)
  }

  /** The read set is exactly the listening socket and the descriptors of the listed contexts. */
  ghost predicate ReadSetOk(t: Table) {
    && (forall fd :: fd in t.readSet <==> Owned(t, fd))
    && (forall fd :: fd in t.readSet ==> 0 <= fd <= t.maxFd)
  }

  /** Open descriptors are pairwise different. */
  ghost predicate FdsDistinct(t: Table) {
    && (forall c :: c in t.connAt ==> t.connAt[c].fd != t.sockFd)
    && (forall r :: r in t.remoteAt ==> t.remoteAt[r].fd != t.sockFd)
    && (forall c, c' :: c in t.connAt && c' in t.connAt && c != c' ==> t.connAt[c].fd != t.connAt[c'].fd)
    && (forall r, r' :: r in t.remoteAt && r' in t.remoteAt && r != r' ==> t.remoteAt[r].fd != t.remoteAt[r'].fd)
    && (forall c, r :: c in t.connAt && r in t.remoteAt ==> t.connAt[c].fd != t.remoteAt[r].fd)
  }

  /** A remote is attached at most once: never while opening, once afterwards. */
  ghost predicate StateOk(c: Conn) {
    match c.state
    case Opening => c.remoteCount == 0 && c.remote.None?
    case Connecting => c.remoteCount == 1
    case Connected => false
  }

  ghost predicate Core(t: Table) {
    ListsOk(t) && BlocksOk(t) && LinksOk(t) && ReadSetOk(t) && FdsDistinct(t)
  }

  ghost predicate StatesExcept(t: Table, c: Option<Addr>) {
    forall a :: a in t.connAt && Some(a) != c ==> StateOk(t.connAt[a])
  }

  ghost predicate Inv(t: Table) {
    Core(t) && StatesExcept(t, None)
  }

  lemma CreatedInv(sockFd: int)
    requires 0 <= sockFd
    ensures Inv(Created(sockFd))
  {
  }

  // ----- lists

  lemma {:induction false} WithoutElems(s: seq<Addr>, a: Addr)
    requires Distinct(s) && a in s
    ensures |Without(s, a)| == |s| - 1
    ensures forall x :: x in Without(s, a) <==> x in s && x != a
    ensures Distinct(Without(s, a))
  {
    assert forall x :: x in s <==> x == s[0] || x in s[1..];
    if s[0] != a {
      WithoutElems(s[1..], a);
      assert s[0] !in s[1..];
      var w := Without(s[1..], a);
      assert s[0] !in w;
      assert Distinct([s[0]] + w);
    }
  }

  lemma {:induction false} WithoutAt(s: seq<Addr>, k: nat)
    requires Distinct(s) && k < |s|
    ensures Without(s, s[k]) == s[..k] + s[k + 1..]
  {
    if k > 0 {
      assert s[0] != s[k];
      WithoutAt(s[1..], k - 1);
      assert s[1..][k - 1] == s[k];
      assert s[..k] == [s[0]] + s[1..][..k - 1];
      assert s[1..][k..] == s[k + 1..];
    }
  }

  // ----- adding

  lemma AddConnLists(t: Table, a: Addr, fd: int)
    requires ListsOk(t) && BlocksOk(t) && Fresh(t, a)
    ensures ListsOk(AddConn(t, a, fd)) && BlocksOk(AddConn(t, a, fd))
  {
  }

  lemma AddConnLinks(t: Table, a: Addr, fd: int)
    requires LinksOk(t) && Fresh(t, a)
    ensures LinksOk(AddConn(t, a, fd))
  {
  }

  lemma AddConnFds(t: Table, a: Addr, fd: int)
    requires FdsDistinct(t) && ReadSetOk(t) && Fresh(t, a) && fd >= 0 && fd !in t.readSet
    ensures FdsDistinct(AddConn(t, a, fd))
  {
    assert forall c :: c in t.connAt ==> Owned(t, t.connAt[c].fd);
    assert forall r :: r in t.remoteAt ==> Owned(t, t.remoteAt[r].fd);
    assert Owned(t, t.sockFd);
  }

  lemma AddConnReadSet(t: Table, a: Addr, fd: int)
    requires ReadSetOk(t) && Fresh(t, a) && fd >= 0
    ensures ReadSetOk(AddConn(t, a, fd))
  {
    var t' := AddConn(t, a, fd);
    forall x
      ensures x in t'.readSet <==> Owned(t', x)
    {
      if Owned(t, x) && x != t.sockFd {
        if c :| c in t.connAt && t.connAt[c].fd == x {
          assert c in t'.connAt && t'.connAt[c].fd == x;
        }
      }
      assert a in t'.connAt && t'.connAt[a].fd == fd;
    }
  }

  lemma AddConnCore(t: Table, a: Addr, fd: int)
    requires Core(t) && Fresh(t, a) && fd >= 0 && fd !in t.readSet
    ensures Core(AddConn(t, a, fd))
  {
    AddConnLists(t, a, fd);
    AddConnLinks(t, a, fd);
    AddConnFds(t, a, fd);
    AddConnReadSet(t, a, fd);
  }

  /** The table after a successful `AddRemote`. */
  function Attached(t: Table, c: Addr, a: Addr, fd: int): Table
    requires c in t.connAt && fd >= 0
  {
    AddRemote(t, c, a, fd).value
  }

  lemma AddRemoteLists(t: Table, c: Addr, a: Addr, fd: int)
    requires ListsOk(t) && BlocksOk(t) && Fresh(t, a) && c in t.connAt && fd >= 0
    ensures ListsOk(Attached(t, c, a, fd)) && BlocksOk(Attached(t, c, a, fd))
  {
  }

  lemma AddRemoteLinks(t: Table, c: Addr, a: Addr, fd: int)
    requires LinksOk(t) && Fresh(t, a) && c in t.connAt && t.connAt[c].remote.None? && fd >= 0
    ensures LinksOk(Attached(t, c, a, fd))
  {
  }

  lemma AddRemoteFds(t: Table, c: Addr, a: Addr, fd: int)
    requires FdsDistinct(t) && ReadSetOk(t) && Fresh(t, a) && c in t.connAt && fd >= 0 && fd !in t.readSet
    ensures FdsDistinct(Attached(t, c, a, fd))
  {
    assert forall c :: c in t.connAt ==> Owned(t, t.connAt[c].fd);
    assert forall r :: r in t.remoteAt ==> Owned(t, t.remoteAt[r].fd);
    assert Owned(t, t.sockFd);
  }

  lemma AddRemoteReadSet(t: Table, c: Addr, a: Addr, fd: int)
    requires ReadSetOk(t) && Fresh(t, a) && c in t.connAt && fd >= 0
    ensures ReadSetOk(Attached(t, c, a, fd))
  {
    var t' := Attached(t, c, a, fd);
    forall x
      ensures x in t'.readSet <==> Owned(t', x)
    {
      SameConnFds(t, t', x);
      if r :| r in t.remoteAt && t.remoteAt[r].fd == x {
        assert r in t'.remoteAt && t'.remoteAt[r].fd == x;
      }
      assert a in t'.remoteAt && t'.remoteAt[a].fd == fd;
    }
  }

  /** Two tables with the same connections and descriptors. */
  ghost predicate SameConns(t: Table, t': Table) {
    t.connAt.Keys == t'.connAt.Keys && forall c :: c in t.connAt ==> t.connAt[c].fd == t'.connAt[c].fd
  }

  ghost predicate SameRemotes(t: Table, t': Table) {
    t.remoteAt.Keys == t'.remoteAt.Keys && forall r :: r in t.remoteAt ==> t.remoteAt[r].fd == t'.remoteAt[r].fd
  }

  lemma SameConnFds(t: Table, t': Table, x: int)
    requires SameConns(t, t')
    ensures (exists c :: c in t.connAt && t.connAt[c].fd == x) <==> (exists c :: c in t'.connAt && t'.connAt[c].fd == x)
  {
    if c :| c in t.connAt && t.connAt[c].fd == x {
      assert c in t'.connAt && t'.connAt[c].fd == x;
    }
    if c :| c in t'.connAt && t'.connAt[c].fd == x {
      assert c in t.connAt && t.connAt[c].fd == x;
    }
  }

  lemma SameRemoteFds(t: Table, t': Table, x: int)
    requires SameRemotes(t, t')
    ensures (exists r :: r in t.remoteAt && t.remoteAt[r].fd == x) <==> (exists r :: r in t'.remoteAt && t'.remoteAt[r].fd == x)
  {
    if r :| r in t.remoteAt && t.remoteAt[r].fd == x {
      assert r in t'.remoteAt && t'.remoteAt[r].fd == x;
    }
    if r :| r in t'.remoteAt && t'.remoteAt[r].fd == x {
      assert r in t.remoteAt && t.remoteAt[r].fd == x;
    }
  }

  lemma AddRemoteCore(t: Table, c: Addr, a: Addr, fd: int)
    requires Core(t) && Fresh(t, a) && c in t.connAt && t.connAt[c].remote.None? && fd >= 0 && fd !in t.readSet
    ensures Core(Attached(t, c, a, fd))
  {
    AddRemoteLists(t, c, a, fd);
    AddRemoteLinks(t, c, a, fd);
    AddRemoteFds(t, c, a, fd);
    AddRemoteReadSet(t, c, a, fd);
  }

  /** A failed connect leaks one block and changes nothing else. */
  lemma LeakCore(t: Table, c: Addr, a: Addr, fd: int)
    requires Core(t) && c in t.connAt && Fresh(t, a) && fd < 0
    ensures AddRemote(t, c, a, fd).Ok? && Core(AddRemote(t, c, a, fd).value)
  {
    var t' := AddRemote(t, c, a, fd).value;
    assert forall x :: Owned(t', x) <==> Owned(t, x);
  }

  lemma SetStateLinks(t: Table, c: Addr, s: ConnState)
    requires ListsOk(t) && LinksOk(t) && c in t.connAt
    ensures ListsOk(SetState(t, c, s).value) && LinksOk(SetState(t, c, s).value)
  {
  }

  lemma SetStateCore(t: Table, c: Addr, s: ConnState)
    requires Core(t) && c in t.connAt
    ensures Core(SetState(t, c, s).value)
  {
    var t' := SetState(t, c, s).value;
    forall x
      ensures Owned(t', x) <==> Owned(t, x)
    {
      SameConnFds(t, t', x);
    }
    assert LinksOk(t');
    assert FdsDistinct(t');
  }

  // ----- deleting

  /** After the pointer back is cleared no remote points at the connection. */
  lemma UnlinkedClean(t: Table, c: Addr)
    requires LinksOk(t) && c in t.connAt
    ensures var rest := Unlink(t.remoteAt, t.connAt[c].remote);
            rest.Ok? && forall x :: x in rest.value ==> rest.value[x].connEntry != Some(c)
  {
  }

  /** After the pointer back is cleared no connection points at the remote. */
  lemma DetachedClean(t: Table, r: Addr)
    requires LinksOk(t) && r in t.remoteAt
    ensures var rest := Detach(t.connAt, t.remoteAt[r].connEntry);
            rest.Ok? && forall x :: x in rest.value ==> rest.value[x].remote != Some(r)
  {
  }

  lemma DelConnLists(t: Table, c: Addr)
    requires ListsOk(t) && BlocksOk(t) && LinksOk(t) && c in t.connAt
    ensures DelConn(t, c).Ok? && ListsOk(DelConn(t, c).value) && BlocksOk(DelConn(t, c).value)
  {
    WithoutElems(t.conns, c);
  }

  lemma DelConnLinks(t: Table, c: Addr)
    requires ListsOk(t) && LinksOk(t) && c in t.connAt
    ensures DelConn(t, c).Ok? && LinksOk(DelConn(t, c).value)
  {
  }

  lemma DelConnFds(t: Table, c: Addr)
    requires ListsOk(t) && LinksOk(t) && FdsDistinct(t) && c in t.connAt
    ensures DelConn(t, c).Ok? && FdsDistinct(DelConn(t, c).value)
  {
    var t' := DelConn(t, c).value;
    assert SameRemotes(t, t');
    assert forall x :: x in t'.connAt ==> x in t.connAt && t'.connAt[x] == t.connAt[x];
  }

  lemma DelConnReadSet(t: Table, c: Addr)
    requires ListsOk(t) && LinksOk(t) && FdsDistinct(t) && ReadSetOk(t) && c in t.connAt
    ensures DelConn(t, c).Ok? && ReadSetOk(DelConn(t, c).value)
  {
    var t' := DelConn(t, c).value;
    var gone := t.connAt[c].fd;
    forall x
      ensures x in t'.readSet <==> Owned(t', x)
    {
      SameRemoteFds(t, t', x);
      if x != gone {
        if d :| d in t.connAt && t.connAt[d].fd == x {
          assert d in t'.connAt && t'.connAt[d].fd == x;
        }
        if d :| d in t'.connAt && t'.connAt[d].fd == x {
          assert d in t.connAt && t.connAt[d].fd == x;
        }
      } else {
        assert forall d :: d in t'.connAt ==> t'.connAt[d].fd != x;
      }
    }
  }

  lemma DelConnCore(t: Table, c: Addr)
    requires Core(t) && c in t.connAt
    ensures DelConn(t, c).Ok? && Core(DelConn(t, c).value)
  {
    DelConnLists(t, c);
    DelConnLinks(t, c);
    DelConnFds(t, c);
    DelConnReadSet(t, c);
  }

  lemma DelRemoteLists(t: Table, r: Addr)
    requires ListsOk(t) && BlocksOk(t) && LinksOk(t) && r in t.remoteAt
    ensures DelRemote(t, r).Ok? && ListsOk(DelRemote(t, r).value) && BlocksOk(DelRemote(t, r).value)
  {
    WithoutElems(t.remotes, r);
  }

  lemma DelRemoteLinks(t: Table, r: Addr)
    requires ListsOk(t) && LinksOk(t) && r in t.remoteAt
    ensures DelRemote(t, r).Ok? && LinksOk(DelRemote(t, r).value)
  {
  }

  lemma DelRemoteFds(t: Table, r: Addr)
    requires ListsOk(t) && LinksOk(t) && FdsDistinct(t) && r in t.remoteAt
    ensures DelRemote(t, r).Ok? && FdsDistinct(DelRemote(t, r).value)
  {
    var t' := DelRemote(t, r).value;
    assert SameConns(t, t');
    assert forall x :: x in t'.remoteAt ==> x in t.remoteAt && t'.remoteAt[x] == t.remoteAt[x];
  }

  lemma DelRemoteReadSet(t: Table, r: Addr)
    requires ListsOk(t) && LinksOk(t) && FdsDistinct(t) && ReadSetOk(t) && r in t.remoteAt
    ensures DelRemote(t, r).Ok? && ReadSetOk(DelRemote(t, r).value)
  {
    var t' := DelRemote(t, r).value;
    var gone := t.remoteAt[r].fd;
    forall x
      ensures x in t'.readSet <==> Owned(t', x)
    {
      SameConnFds(t, t', x);
      if x != gone {
        if d :| d in t.remoteAt && t.remoteAt[d].fd == x {
          assert d in t'.remoteAt && t'.remoteAt[d].fd == x;
        }
        if d :| d in t'.remoteAt && t'.remoteAt[d].fd == x {
          assert d in t.remoteAt && t.remoteAt[d].fd == x;
        }
      } else {
        assert forall d :: d in t'.remoteAt ==> t'.remoteAt[d].fd != x;
      }
    }
  }

  lemma DelRemoteCore(t: Table, r: Addr)
    requires Core(t) && r in t.remoteAt
    ensures DelRemote(t, r).Ok? && Core(DelRemote(t, r).value)
  {
    DelRemoteLists(t, r);
    DelRemoteLinks(t, r);
    DelRemoteFds(t, r);
    DelRemoteReadSet(t, r);
  }
}
