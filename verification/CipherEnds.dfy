/** The two ends of the link as objects: each has one encryptor, which `encry_send` and `decry_recv`
    drive, and a queue of bytes for each direction
    (Python/socks5/socks5_c-master/socks.c:39-61, 131-135). */
module CipherEnds {
  import opened CipherBytes
  import opened CipherRc4
  import opened CipherStream
  import opened CipherEncryptor
  import opened CipherTransfer
  import opened CipherLink

  /** Two encryptors without a common part. */
  ghost predicate Separate(a: Encryptor, b: Encryptor)
    reads a, b
  {
    && a != b && a.deState != b.deState && a.deState != b.enState && a.enState != b.deState
    && a.deState.perm != b.deState.perm
  }

  /** `encry_send` of a message of which the kernel takes `taken` bytes. */
  method Send(e: Encryptor, message: seq<byte>, taken: nat) returns (wire: seq<byte>)
    requires e.Ok() && taken <= |message|
    modifies e, e.deState, e.deState.perm
    ensures e.Ok() && wire == Crypt(old(e.DeStream()), message)[..taken]
    ensures e.DeStream() == Advance(old(e.DeStream()), |message|)
  {
    var buf := Load(message);
    assert buf[..|message|] == message;
    wire := e.EncrySend(buf, |message|);
    wire := wire[..taken];
  }

  /** `decry_recv` of the first bytes on the wire. */
  method Receive(e: Encryptor, data: seq<byte>) returns (plain: seq<byte>)
    requires e.Ok()
    modifies e, e.deState, e.deState.perm
    ensures e.Ok() && plain == Crypt(old(e.DeStream()), data)
    ensures e.DeStream() == Advance(old(e.DeStream()), |data|)
  {
    var buf := Load(data);
    assert buf[..|data|] == data;
    e.DecryRecv(buf, |data|);
    plain := buf[..|data|];
  }

  /** The link that two encryptors and two queues stand for. */
  ghost function LinkOf(a: Encryptor, b: Encryptor, ab: Way, ba: Way): (l: Link)
    requires a.Ok() && b.Ok()
    reads a, a.enState, a.deState, a.deState.perm, b, b.enState, b.deState, b.deState.perm
    ensures Wf(l)
  {
    Link(a.DeStream(), b.DeStream(), ab, ba)
  }

  /** A send at one end of a direction. */
  method SendOn(e: Encryptor, w: Way, message: seq<byte>, taken: nat) returns (w': Way)
    requires e.Ok() && taken <= |message|
    modifies e, e.deState, e.deState.perm
    ensures e.Ok() && w' == Put(w, old(e.DeStream()), message, taken)
    ensures e.DeStream() == Advance(old(e.DeStream()), |message|)
  {
    var c := Send(e, message, taken);
    w' := Way(w.wire + c, w.sent + message[..taken], w.got);
  }

  /** A receive at the other end. */
  method ReceiveOn(e: Encryptor, w: Way, n: nat) returns (w': Way)
    requires e.Ok() && n <= |w.wire|
    modifies e, e.deState, e.deState.perm
    ensures e.Ok() && w' == Take(w, old(e.DeStream()), n)
    ensures e.DeStream() == Advance(old(e.DeStream()), n)
  {
    var plain := Receive(e, w.wire[..n]);
    w' := Way(w.wire[n..], w.sent, w.got + plain);
  }

  /** One action of the link on the objects. */
  method Perform(a: Encryptor, b: Encryptor, ab: Way, ba: Way, x: Action) returns (ab': Way, ba': Way)
    requires a.Ok() && b.Ok() && Separate(a, b) && Enabled(LinkOf(a, b, ab, ba), x)
    modifies a, a.deState, a.deState.perm, b, b.deState, b.deState.perm
    ensures a.Ok() && b.Ok() && LinkOf(a, b, ab', ba') == Act(old(LinkOf(a, b, ab, ba)), x)
  {
    ab', ba' := ab, ba;
    match x
    case SendA(m, n) => ab' := SendOn(a, ab, m, n);
    case SendB(m, n) => ba' := SendOn(b, ba, m, n);
    case RecvA(n) => ba' := ReceiveOn(a, ba, n);
    case RecvB(n) => ab' := ReceiveOn(b, ab, n);
  }

  /** The first action of the rest of a run that ends at `last`. */
  method PerformFirst(a: Encryptor, b: Encryptor, ab: Way, ba: Way, xs: seq<Action>, i: nat, ghost last: Link)
    returns (ab': Way, ba': Way)
    requires a.Ok() && b.Ok() && Separate(a, b) && i < |xs|
    requires EnabledRun(LinkOf(a, b, ab, ba), xs[i..]) && Play(LinkOf(a, b, ab, ba), xs[i..]) == last
    modifies a, a.deState, a.deState.perm, b, b.deState, b.deState.perm
    ensures a.Ok() && b.Ok()
    ensures EnabledRun(LinkOf(a, b, ab', ba'), xs[i + 1..]) && Play(LinkOf(a, b, ab', ba'), xs[i + 1..]) == last
  {
    assert xs[i..][1..] == xs[i + 1..];
    ab', ba' := Perform(a, b, ab, ba, xs[i]);
  }

  /** A whole run on the objects. */
  method PerformAll(a: Encryptor, b: Encryptor, xs: seq<Action>, ghost last: Link) returns (ab: Way, ba: Way)
    requires a.Ok() && b.Ok() && Separate(a, b) && a.DeStream() == b.DeStream()
    requires EnabledRun(Opened(a.DeStream()), xs) && Play(Opened(a.DeStream()), xs) == last
    modifies a, a.deState, a.deState.perm, b, b.deState, b.deState.perm
    ensures ab == last.ab && ba == last.ba
  {
    ab, ba := Way([], [], []), Way([], [], []);
    var i := 0;
    assert xs[0..] == xs;
    while i < |xs|
      invariant i <= |xs| && a.Ok() && b.Ok()
      invariant EnabledRun(LinkOf(a, b, ab, ba), xs[i..]) && Play(LinkOf(a, b, ab, ba), xs[i..]) == last
    {
      ab, ba := PerformFirst(a, b, ab, ba, xs, i, last);
      i := i + 1;
    }
    assert xs[i..] == [];
  }

  /** Two encryptor objects with the same key, driven through any possible run, follow the run of the
      link; so each end has received what went out at the other exactly when the key bytes agree. */
  method Converse(m: Method, key: seq<byte>, xs: seq<Action>) returns (ab: Way, ba: Way)
    requires key != [] && EnabledRun(Opened(Start(m, key)), xs)
    ensures var l := Play(Opened(Start(m, key)), xs); ab == l.ab && ba == l.ba
    ensures Delivered(ab) <==> KeysAgree(Start(m, key), MarkAll(START, xs).ab)
    ensures Delivered(ba) <==> KeysAgree(Start(m, key), MarkAll(START, xs).ba)
  {
    var a := new Encryptor(m, key);
    var b := new Encryptor(m, key);
    DeliveredExactly(Start(m, key), xs);
    ab, ba := PerformAll(a, b, xs, Play(Opened(Start(m, key)), xs));
  }
}
