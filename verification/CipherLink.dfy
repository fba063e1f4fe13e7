/** The encrypted link between the local and the server proxy, as it is wired: `encry_send` and
    `decry_recv` both advance the one decrypt state of the connection, and a send that the kernel
    takes only in part has already advanced it by the whole message
    (Python/socks5/socks5_c-master/socks.c:39-61, 131-135; server.c:24-32; local.c:51-58). */
module CipherLink {
  import opened CipherBytes
  import opened CipherStream

  /** One direction: the bytes on the wire, the plaintext bytes that went out and the bytes that came out
      of `decry_recv` at the other end. */
  datatype Way = Way(wire: seq<byte>, sent: seq<byte>, got: seq<byte>)

  /** The keystream state of each end, and both directions. */
  datatype Link = Link(a: Stream, b: Stream, ab: Way, ba: Way)

  /** `taken` is the number of bytes of the message that the kernel takes; none after an error. */
  datatype Action =
    | SendA(data: seq<byte>, taken: nat)
    | SendB(data: seq<byte>, taken: nat)
    | RecvA(n: nat)
    | RecvB(n: nat)

  function Opened(k: Stream): Link {
    Link(k, k, Way([], [], []), Way([], [], []))
  }

  predicate Wf(l: Link) {
    Valid(l.a) && Valid(l.b)
  }

  /** The kernel takes at most the message, and an end can receive at most what is on the wire. */
  predicate Enabled(l: Link, x: Action) {
    match x
    case RecvA(n) => n <= |l.ba.wire|
    case RecvB(n) => n <= |l.ab.wire|
    case _ => x.taken <= |x.data|
  }

  function Put(w: Way, k: Stream, m: seq<byte>, n: nat): Way
    requires Valid(k) && n <= |m|
  {
    w.(wire := w.wire + Crypt(k, m)[..n], sent := w.sent + m[..n])
  }

  function Take(w: Way, k: Stream, n: nat): Way
    requires Valid(k) && n <= |w.wire|
  {
    w.(wire := w.wire[n..], got := w.got + Crypt(k, w.wire[..n]))
  }

  function Act(l: Link, x: Action): (r: Link)
    requires Wf(l) && Enabled(l, x)
    ensures Wf(r)
  {
    match x
    case SendA(m, n) => l.(ab := Put(l.ab, l.a, m, n), a := Advance(l.a, |m|))
    case SendB(m, n) => l.(ba := Put(l.ba, l.b, m, n), b := Advance(l.b, |m|))
    case RecvA(n) => l.(ba := Take(l.ba, l.a, n), a := Advance(l.a, n))
    case RecvB(n) => l.(ab := Take(l.ab, l.b, n), b := Advance(l.b, n))
  }

  predicate EnabledRun(l: Link, xs: seq<Action>)
    requires Wf(l)
    decreases |xs|
  {
    xs != [] ==> Enabled(l, xs[0]) && EnabledRun(Act(l, xs[0]), xs[1..])
  }

  function Play(l: Link, xs: seq<Action>): (r: Link)
    requires Wf(l) && EnabledRun(l, xs)
    ensures Wf(r)
    decreases |xs|
  {
    if xs == [] then l else Play(Act(l, xs[0]), xs[1..])
  }

  // ----- positions in the keystream

  /** For every byte of one direction, the position in the keystream at which it was encrypted, and the
      one at which it was decrypted if it has been received. */
  datatype Trail = Trail(outs: seq<nat>, ins: seq<nat>)

  /** How far each end has advanced, and the trails. Only the lengths of a run matter for it. */
  datatype Marks = Marks(a: nat, b: nat, ab: Trail, ba: Trail)

  const START := Marks(0, 0, Trail([], []), Trail([], []))

  function Span(from: nat, n: nat): (r: seq<nat>)
    ensures |r| == n && forall i :: 0 <= i < n ==> r[i] == from + i
  {
    if n == 0 then [] else Span(from, n - 1) + [from + n - 1]
  }

  function Mark(p: Marks, x: Action): Marks {
    match x
    case SendA(m, n) => p.(a := p.a + |m|, ab := p.ab.(outs := p.ab.outs + Span(p.a, n)))
    case SendB(m, n) => p.(b := p.b + |m|, ba := p.ba.(outs := p.ba.outs + Span(p.b, n)))
    case RecvA(n) => p.(a := p.a + n, ba := p.ba.(ins := p.ba.ins + Span(p.a, n)))
    case RecvB(n) => p.(b := p.b + n, ab := p.ab.(ins := p.ab.ins + Span(p.b, n)))
  }

  function MarkAll(p: Marks, xs: seq<Action>): Marks
    decreases |xs|
  {
    if xs == [] then p else MarkAll(Mark(p, xs[0]), xs[1..])
  }

  /** The key byte at a position. */
  function KeyAt(k: Stream, i: nat): byte
    requires Valid(k)
  {
    Key(Advance(k, i))
  }

  // ----- one direction

  /** Bytes under the key bytes at the given positions. */
  function Coded(k: Stream, data: seq<byte>, at: seq<nat>): (r: seq<byte>)
    requires Valid(k) && |data| == |at|
    ensures |r| == |data| && forall i :: 0 <= i < |data| ==> r[i] == Xor(data[i], KeyAt(k, at[i]))
  {
    seq(|data|, i requires 0 <= i < |data| => Xor(data[i], KeyAt(k, at[i])))
  }

  /** What is on the wire is the rest of what was sent under the positions of the sender, and what was
      received is the part before it, under those of the receiver. */
  ghost predicate Traced(k: Stream, w: Way, t: Trail)
    requires Valid(k)
  {
    && |w.sent| == |t.outs| && |w.got| == |t.ins| <= |w.sent|
    && var code := Coded(k, w.sent, t.outs);
       w.wire == code[|w.got|..] && w.got == Coded(k, code[..|w.got|], t.ins)
  }

  /** One byte of a call. */
  lemma CryptKeyAt(k: Stream, from: nat, k': Stream, data: seq<byte>, i: nat, at: nat)
    requires Valid(k) && k' == Advance(k, from) && i < |data| && at == from + i
    ensures Crypt(k', data)[i] == Xor(data[i], KeyAt(k, at))
  {
    CryptAt(k', data, i);
    AdvanceSum(k, from, k', i);
  }

  /** One call, in terms of positions. */
  lemma CryptCoded(k: Stream, from: nat, k': Stream, data: seq<byte>, n: nat)
    requires Valid(k) && k' == Advance(k, from) && n <= |data|
    ensures Crypt(k', data)[..n] == Coded(k, data[..n], Span(from, n))
  {
    var at := Span(from, n);
    var x, y := Crypt(k', data)[..n], Coded(k, data[..n], at);
    forall i | 0 <= i < n
      ensures x[i] == y[i]
    {
      CryptKeyAt(k, from, k', data, i, at[i]);
    }
    SameBytes(x, y);
  }

  lemma SameBytes(x: seq<byte>, y: seq<byte>)
    requires |x| == |y| && forall i :: 0 <= i < |x| ==> x[i] == y[i]
    ensures x == y
  {
  }

  lemma CodedConcat(k: Stream, x: seq<byte>, y: seq<byte>, p: seq<nat>, q: seq<nat>)
    requires Valid(k) && |x| == |p| && |y| == |q|
    ensures Coded(k, x + y, p + q) == Coded(k, x, p) + Coded(k, y, q)
  {
  }

  lemma SplitAt(x: seq<byte>, c: seq<byte>, n: nat)
    requires n <= |x|
    ensures (x + c)[..n] == x[..n] && (x + c)[n..] == x[n..] + c
  {
  }

  lemma SplitLater(x: seq<byte>, m: nat, n: nat)
    requires m + n <= |x|
    ensures x[..m] + x[m..][..n] == x[..m + n] && x[m..][n..] == x[m + n..]
  {
  }

  lemma PutTraced(k: Stream, w: Way, t: Trail, from: nat, k': Stream, m: seq<byte>, n: nat)
    requires Valid(k) && Traced(k, w, t) && k' == Advance(k, from) && n <= |m|
    ensures Traced(k, Put(w, k', m, n), t.(outs := t.outs + Span(from, n)))
  {
    CryptCoded(k, from, k', m, n);
    CodedConcat(k, w.sent, m[..n], t.outs, Span(from, n));
    SplitAt(Coded(k, w.sent, t.outs), Crypt(k', m)[..n], |w.got|);
  }

  lemma TakeTraced(k: Stream, w: Way, t: Trail, from: nat, k': Stream, n: nat)
    requires Valid(k) && Traced(k, w, t) && k' == Advance(k, from) && n <= |w.wire|
    ensures Traced(k, Take(w, k', n), t.(ins := t.ins + Span(from, n)))
  {
    var code := Coded(k, w.sent, t.outs);
    ReceivedCoded(k, from, k', w.wire[..n], n);
    CodedConcat(k, code[..|w.got|], w.wire[..n], t.ins, Span(from, n));
    SplitLater(code, |w.got|, n);
  }

  /** A receive decrypts all it takes. */
  lemma ReceivedCoded(k: Stream, from: nat, k': Stream, data: seq<byte>, n: nat)
    requires Valid(k) && k' == Advance(k, from) && n == |data|
    ensures Crypt(k', data) == Coded(k, data, Span(from, n))
  {
    CryptCoded(k, from, k', data, n);
    SplitAt(data, [], n);
    SplitAt(Crypt(k', data), [], n);
    assert data[..n] == data;
    WholePrefix(Crypt(k', data), n);
  }

  lemma WholePrefix(x: seq<byte>, n: nat)
    requires |x| == n
    ensures x[..n] == x
  {
  }

  // ----- every run

  ghost predicate Tracks(k: Stream, l: Link, p: Marks)
    requires Valid(k)
  {
    l.a == Advance(k, p.a) && l.b == Advance(k, p.b) && Traced(k, l.ab, p.ab) && Traced(k, l.ba, p.ba)
  }

  lemma SendTracks(k: Stream, l: Link, p: Marks, x: Action)
    requires Valid(k) && Wf(l) && Tracks(k, l, p) && Enabled(l, x) && (x.SendA? || x.SendB?)
    ensures Tracks(k, Act(l, x), Mark(p, x))
  {
    if x.SendA? {
      PutTraced(k, l.ab, p.ab, p.a, l.a, x.data, x.taken);
      AdvanceSum(k, p.a, l.a, |x.data|);
    } else {
      PutTraced(k, l.ba, p.ba, p.b, l.b, x.data, x.taken);
      AdvanceSum(k, p.b, l.b, |x.data|);
    }
  }

  lemma RecvTracks(k: Stream, l: Link, p: Marks, x: Action)
    requires Valid(k) && Wf(l) && Tracks(k, l, p) && Enabled(l, x) && (x.RecvA? || x.RecvB?)
    ensures Tracks(k, Act(l, x), Mark(p, x))
  {
    if x.RecvA? {
      TakeTraced(k, l.ba, p.ba, p.a, l.a, x.n);
      AdvanceSum(k, p.a, l.a, x.n);
    } else {
      TakeTraced(k, l.ab, p.ab, p.b, l.b, x.n);
      AdvanceSum(k, p.b, l.b, x.n);
    }
  }

  lemma {:induction false} PlayTracks(k: Stream, l: Link, p: Marks, xs: seq<Action>)
    requires Valid(k) && Wf(l) && Tracks(k, l, p) && EnabledRun(l, xs)
    ensures Tracks(k, Play(l, xs), MarkAll(p, xs))
    decreases |xs|
  {
    if xs != [] {
      if xs[0].SendA? || xs[0].SendB? {
        SendTracks(k, l, p, xs[0]);
      } else {
        RecvTracks(k, l, p, xs[0]);
      }
      PlayTracks(k, Act(l, xs[0]), Mark(p, xs[0]), xs[1..]);
    }
  }

  /** Byte by byte, the receiver has what went out. */
  predicate Delivered(w: Way) {
    w.got <= w.sent
  }

  /** Every received byte met the key byte it was encrypted with. */
  ghost predicate KeysAgree(k: Stream, t: Trail)
    requires Valid(k)
  {
    |t.ins| <= |t.outs| && forall i :: 0 <= i < |t.ins| ==> KeyAt(k, t.outs[i]) == KeyAt(k, t.ins[i])
  }

  /** The i-th byte received is the i-th byte that went out if and only if the key bytes agree. */
  lemma ByteDelivered(k: Stream, w: Way, t: Trail, i: nat)
    requires Valid(k) && Traced(k, w, t) && i < |w.got|
    ensures w.got[i] == w.sent[i] <==> KeyAt(k, t.outs[i]) == KeyAt(k, t.ins[i])
  {
    HeadAgrees(w.sent[i], KeyAt(k, t.outs[i]), KeyAt(k, t.ins[i]));
  }

  lemma WayDelivered(k: Stream, w: Way, t: Trail)
    requires Valid(k) && Traced(k, w, t)
    ensures Delivered(w) <==> KeysAgree(k, t)
  {
    forall i | 0 <= i < |w.got|
      ensures w.got[i] == w.sent[i] <==> KeyAt(k, t.outs[i]) == KeyAt(k, t.ins[i])
    {
      ByteDelivered(k, w, t, i);
    }
    PrefixBytes(w.got, w.sent);
  }

  lemma PrefixBytes(x: seq<byte>, y: seq<byte>)
    requires |x| <= |y|
    ensures x <= y <==> forall i :: 0 <= i < |x| ==> x[i] == y[i]
  {
  }

  /** In every run, with or without turn taking and with complete or partial sends, an end has received
      what went out at the other end if and only if the key bytes at the positions agree. */
  lemma DeliveredExactly(k: Stream, xs: seq<Action>)
    requires Valid(k) && EnabledRun(Opened(k), xs)
    ensures var l, p := Play(Opened(k), xs), MarkAll(START, xs);
            (Delivered(l.ab) <==> KeysAgree(k, p.ab)) && (Delivered(l.ba) <==> KeysAgree(k, p.ba))
  {
    PlayTracks(k, Opened(k), START, xs);
    var l, p := Play(Opened(k), xs), MarkAll(START, xs);
    WayDelivered(k, l.ab, p.ab);
    WayDelivered(k, l.ba, p.ba);
  }

  datatype Side = SideA | SideB

  function SentAt(x: Action, e: Side): seq<byte> {
    match x
    case SendA(m, n) => if e.SideA? && n <= |m| then m[..n] else []
    case SendB(m, n) => if e.SideB? && n <= |m| then m[..n] else []
    case _ => []
  }

  function TakenAt(x: Action, e: Side): nat {
    match x
    case RecvA(n) => if e.SideA? then n else 0
    case RecvB(n) => if e.SideB? then n else 0
    case _ => 0
  }

  /** The bytes that an action encrypts or decrypts at one end. */
  function CodedAt(x: Action, e: Side): nat {
    match x
    case SendA(m, _) => if e.SideA? then |m| else 0
    case SendB(m, _) => if e.SideB? then |m| else 0
    case _ => TakenAt(x, e)
  }

  /** What one end hands to the kernel in a run. */
  function SentBytes(xs: seq<Action>, e: Side): seq<byte> {
    if xs == [] then [] else SentAt(xs[0], e) + SentBytes(xs[1..], e)
  }

  /** How much one end takes off the wire in a run. */
  function TakenBytes(xs: seq<Action>, e: Side): nat {
    if xs == [] then 0 else TakenAt(xs[0], e) + TakenBytes(xs[1..], e)
  }

  /** How much one end encrypts and decrypts in a run. */
  function CodedBytes(xs: seq<Action>, e: Side): nat {
    if xs == [] then 0 else CodedAt(xs[0], e) + CodedBytes(xs[1..], e)
  }

  /** The link carries exactly what the run hands over. */
  lemma {:induction false} RunSends(l: Link, xs: seq<Action>)
    requires Wf(l) && EnabledRun(l, xs)
    ensures Play(l, xs).ab.sent == l.ab.sent + SentBytes(xs, SideA)
    ensures Play(l, xs).ba.sent == l.ba.sent + SentBytes(xs, SideB)
    decreases |xs|
  {
    if xs != [] {
      var l' := Act(l, xs[0]);
      ActSends(l, xs[0]);
      RunSends(l', xs[1..]);
    }
  }

  lemma ActSends(l: Link, x: Action)
    requires Wf(l) && Enabled(l, x)
    ensures Act(l, x).ab.sent == l.ab.sent + SentAt(x, SideA)
    ensures Act(l, x).ba.sent == l.ba.sent + SentAt(x, SideB)
  {
  }

  /** And it delivers as many bytes as the run takes off. */
  lemma {:induction false} RunTakes(l: Link, xs: seq<Action>)
    requires Wf(l) && EnabledRun(l, xs)
    ensures |Play(l, xs).ab.got| == |l.ab.got| + TakenBytes(xs, SideB)
    ensures |Play(l, xs).ba.got| == |l.ba.got| + TakenBytes(xs, SideA)
    decreases |xs|
  {
    if xs != [] {
      RunTakes(Act(l, xs[0]), xs[1..]);
    }
  }

  /** A state advances by every byte its end encrypts or decrypts, whether the kernel takes it or not. */
  lemma {:induction false} RunAdvances(l: Link, xs: seq<Action>)
    requires Wf(l) && EnabledRun(l, xs)
    ensures Play(l, xs).a == Advance(l.a, CodedBytes(xs, SideA))
    ensures Play(l, xs).b == Advance(l.b, CodedBytes(xs, SideB))
    decreases |xs|
  {
    if xs != [] {
      var x, l' := xs[0], Act(l, xs[0]);
      ActAdvances(l, x);
      RunAdvances(l', xs[1..]);
      var last := Play(l', xs[1..]);
      AdvanceOver(l.a, CodedAt(x, SideA), l'.a, CodedBytes(xs[1..], SideA), last.a, CodedBytes(xs, SideA));
      AdvanceOver(l.b, CodedAt(x, SideB), l'.b, CodedBytes(xs[1..], SideB), last.b, CodedBytes(xs, SideB));
    }
  }

  lemma AdvanceOver(k: Stream, m: nat, k': Stream, n: nat, k'': Stream, sum: nat)
    requires Valid(k) && k' == Advance(k, m) && k'' == Advance(k', n) && sum == m + n
    ensures Advance(k, sum) == k''
  {
    AdvanceSum(k, m, k', n);
  }

  lemma ActAdvances(l: Link, x: Action)
    requires Wf(l) && Enabled(l, x)
    ensures Act(l, x).a == Advance(l.a, CodedAt(x, SideA)) && Act(l, x).b == Advance(l.b, CodedAt(x, SideB))
  {
  }

  // ----- every key

  /** The receiver meets every byte at the position where it was encrypted. */
  predicate InStep(t: Trail) {
    t.ins <= t.outs
  }

  /** The lengths alone decide whether a run is possible. */
  predicate PossibleStep(p: Marks, x: Action) {
    match x
    case RecvA(n) => |p.ba.ins| + n <= |p.ba.outs|
    case RecvB(n) => |p.ab.ins| + n <= |p.ab.outs|
    case _ => x.taken <= |x.data|
  }

  predicate Possible(p: Marks, xs: seq<Action>)
    decreases |xs|
  {
    xs != [] ==> PossibleStep(p, xs[0]) && Possible(Mark(p, xs[0]), xs[1..])
  }

  lemma {:induction false} PossibleEnabled(k: Stream, l: Link, p: Marks, xs: seq<Action>)
    requires Valid(k) && Wf(l) && Tracks(k, l, p)
    ensures EnabledRun(l, xs) <==> Possible(p, xs)
    decreases |xs|
  {
    if xs != [] && Enabled(l, xs[0]) {
      if xs[0].SendA? || xs[0].SendB? {
        SendTracks(k, l, p, xs[0]);
      } else {
        RecvTracks(k, l, p, xs[0]);
      }
      PossibleEnabled(k, Act(l, xs[0]), Mark(p, xs[0]), xs[1..]);
    }
  }

  /** A run is delivered both ways whatever the cipher and the key. */
  ghost predicate AlwaysDelivered(xs: seq<Action>) {
    forall k: Stream :: Valid(k) && EnabledRun(Opened(k), xs) ==>
      var l := Play(Opened(k), xs);
      Delivered(l.ab) && Delivered(l.ba)
  }

  /** A key with a 1 at one position and 0 elsewhere. */
  function Spike(at: nat, n: nat): (r: seq<byte>)
    ensures |r| == n && forall i :: 0 <= i < n ==> r[i] == if i == at then 1 else 0
  {
    if n == 0 then [] else Spike(at, n - 1) + [if n - 1 == at then 1 else 0]
  }

  lemma {:induction false} XorKeyAt(key: seq<byte>, loc: nat, n: nat)
    requires loc + n < |key|
    ensures KeyAt(XorStream(key, loc), n) == key[loc + n]
    decreases n
  {
    if n > 0 {
      XorKeyAt(key, loc + 1, n - 1);
    }
  }

  /** Which is so if and only if both receivers are in step at every byte. */
  lemma AlwaysDeliveredExactly(xs: seq<Action>)
    requires Possible(START, xs)
    ensures var p := MarkAll(START, xs);
            AlwaysDelivered(xs) <==> InStep(p.ab) && InStep(p.ba)
  {
    var p := MarkAll(START, xs);
    forall k: Stream | Valid(k) && EnabledRun(Opened(k), xs)
      ensures var l := Play(Opened(k), xs);
              && |p.ab.ins| <= |p.ab.outs| && |p.ba.ins| <= |p.ba.outs|
              && (Delivered(l.ab) <==> KeysAgree(k, p.ab)) && (Delivered(l.ba) <==> KeysAgree(k, p.ba))
    {
      PlayTracks(k, Opened(k), START, xs);
      DeliveredExactly(k, xs);
    }
    if !InStep(p.ab) {
      OutOfStep(xs, p.ab);
    }
    if !InStep(p.ba) {
      OutOfStep(xs, p.ba);
    }
  }

  /** Out of step at some byte, a key that differs at the two positions shows it. */
  lemma OutOfStep(xs: seq<Action>, t: Trail)
    requires Possible(START, xs) && (t == MarkAll(START, xs).ab || t == MarkAll(START, xs).ba) && !InStep(t)
    ensures exists k: Stream :: Valid(k) && EnabledRun(Opened(k), xs) && !KeysAgree(k, t)
  {
    var any := XorStream([0], 0);
    PossibleEnabled(any, Opened(any), START, xs);
    PlayTracks(any, Opened(any), START, xs);
    var i :| 0 <= i < |t.ins| && t.ins[i] != t.outs[i];
    var key := Spike(t.ins[i], t.ins[i] + t.outs[i] + 1);
    var k := XorStream(key, 0);
    PossibleEnabled(k, Opened(k), START, xs);
    XorKeyAt(key, 0, t.ins[i]);
    XorKeyAt(key, 0, t.outs[i]);
    assert KeyAt(k, t.outs[i]) != KeyAt(k, t.ins[i]);
  }

  // ----- turn taking

  /** Sends are complete, and an end sends only when nothing from its peer is on the wire. */
  predicate TakesTurn(l: Link, x: Action) {
    match x
    case SendA(m, n) => n == |m| && l.ba.wire == []
    case SendB(m, n) => n == |m| && l.ab.wire == []
    case _ => true
  }

  predicate TurnTaking(l: Link, xs: seq<Action>)
    requires Wf(l) && EnabledRun(l, xs)
    decreases |xs|
  {
    xs != [] ==> TakesTurn(l, xs[0]) && TurnTaking(Act(l, xs[0]), xs[1..])
  }

  /** The bytes of one direction that are still on the wire. */
  function Rest(t: Trail): nat
    requires |t.ins| <= |t.outs|
  {
    |t.outs| - |t.ins|
  }

  /** One direction while the other wire is empty: what is on the wire was encrypted at the positions
      that lie ahead of the receiver. */
  ghost predicate Ahead(sender: nat, receiver: nat, t: Trail)
    requires |t.ins| <= |t.outs|
  {
    sender == receiver + Rest(t) && t.outs[|t.ins|..] == Span(receiver, Rest(t))
  }

  ghost predicate Synced(p: Marks) {
    && InStep(p.ab) && InStep(p.ba) && (Rest(p.ab) == 0 || Rest(p.ba) == 0)
    && (Rest(p.ba) == 0 ==> Ahead(p.a, p.b, p.ab))
    && (Rest(p.ab) == 0 ==> Ahead(p.b, p.a, p.ba))
  }

  lemma PutAhead(sender: nat, receiver: nat, t: Trail, n: nat)
    requires InStep(t) && Ahead(sender, receiver, t)
    ensures var t' := t.(outs := t.outs + Span(sender, n));
            InStep(t') && Ahead(sender + n, receiver, t')
  {
  }

  lemma TakeAhead(sender: nat, receiver: nat, t: Trail, n: nat)
    requires InStep(t) && Ahead(sender, receiver, t) && n <= Rest(t)
    ensures var t' := t.(ins := t.ins + Span(receiver, n));
            InStep(t') && Ahead(sender, receiver + n, t')
  {
    assert forall i :: 0 <= i < n ==> t.outs[|t.ins| + i] == t.outs[|t.ins|..][i];
  }

  lemma SendKeepsSync(p: Marks, x: Action)
    requires Synced(p) && (x.SendA? || x.SendB?) && x.taken == |x.data|
    requires if x.SendA? then Rest(p.ba) == 0 else Rest(p.ab) == 0
    ensures Synced(Mark(p, x))
  {
    if x.SendA? {
      PutAhead(p.a, p.b, p.ab, x.taken);
    } else {
      PutAhead(p.b, p.a, p.ba, x.taken);
    }
  }

  lemma RecvKeepsSync(p: Marks, x: Action)
    requires Synced(p) && (x.RecvA? || x.RecvB?)
    requires if x.RecvA? then x.n <= Rest(p.ba) else x.n <= Rest(p.ab)
    ensures Synced(Mark(p, x))
  {
    if x.RecvA? && Rest(p.ab) == 0 {
      TakeAhead(p.b, p.a, p.ba, x.n);
    } else if x.RecvB? && Rest(p.ba) == 0 {
      TakeAhead(p.a, p.b, p.ab, x.n);
    }
  }

  lemma {:induction false} TurnsKeepSync(k: Stream, l: Link, p: Marks, xs: seq<Action>)
    requires Valid(k) && Wf(l) && Tracks(k, l, p) && Synced(p) && EnabledRun(l, xs) && TurnTaking(l, xs)
    ensures Tracks(k, Play(l, xs), MarkAll(p, xs)) && Synced(MarkAll(p, xs))
    decreases |xs|
  {
    if xs != [] {
      if xs[0].SendA? || xs[0].SendB? {
        SendKeepsSync(p, xs[0]);
        SendTracks(k, l, p, xs[0]);
      } else {
        RecvKeepsSync(p, xs[0]);
        RecvTracks(k, l, p, xs[0]);
      }
      TurnsKeepSync(k, Act(l, xs[0]), Mark(p, xs[0]), xs[1..]);
    }
  }

  /** In every run with turn taking the receiver's state, advanced by the bytes on the wire, is the
      sender's state. */
  lemma TurnsInvariant(k: Stream, xs: seq<Action>)
    requires Valid(k) && EnabledRun(Opened(k), xs) && TurnTaking(Opened(k), xs)
    ensures var l := Play(Opened(k), xs);
            && (l.ab.wire == [] || l.ba.wire == [])
            && (l.ba.wire == [] ==> Advance(l.b, |l.ab.wire|) == l.a)
            && (l.ab.wire == [] ==> Advance(l.a, |l.ba.wire|) == l.b)
  {
    TurnsKeepSync(k, Opened(k), START, xs);
    var l, p := Play(Opened(k), xs), MarkAll(START, xs);
    if l.ba.wire == [] {
      Behind(k, p.b, l.b, |l.ab.wire|, p.a, l.a);
    }
    if l.ab.wire == [] {
      Behind(k, p.a, l.a, |l.ba.wire|, p.b, l.b);
    }
  }

  lemma Behind(k: Stream, i: nat, k': Stream, n: nat, j: nat, k'': Stream)
    requires Valid(k) && k' == Advance(k, i) && k'' == Advance(k, j) && j == i + n
    ensures Advance(k', n) == k''
  {
    AdvanceSum(k, i, k', n);
  }

  /** And each end has received a prefix of what its peer sent, and all of it once the wire is empty. */
  lemma TurnsDeliver(k: Stream, xs: seq<Action>)
    requires Valid(k) && EnabledRun(Opened(k), xs) && TurnTaking(Opened(k), xs)
    ensures var l := Play(Opened(k), xs);
            && l.ab.got <= l.ab.sent && l.ba.got <= l.ba.sent
            && (l.ab.wire == [] ==> l.ab.got == l.ab.sent)
            && (l.ba.wire == [] ==> l.ba.got == l.ba.sent)
  {
    TurnsKeepSync(k, Opened(k), START, xs);
    DeliveredExactly(k, xs);
  }

  // ----- without turn taking

  function Crossing(m: seq<byte>, m': seq<byte>): seq<Action> {
    [SendA(m, |m|), SendB(m', |m'|), RecvB(|m|)]
  }

  lemma MarkNext(p: Marks, xs: seq<Action>, x: Action, rest: seq<Action>)
    requires xs == [x] + rest
    ensures MarkAll(p, xs) == MarkAll(Mark(p, x), rest)
    ensures Possible(p, xs) <==> PossibleStep(p, x) && Possible(Mark(p, x), rest)
  {
    assert xs[0] == x && xs[1..] == rest;
  }

  /** The positions after three actions. */
  lemma MarkThree(x: Action, y: Action, z: Action, p: Marks, q: Marks)
    requires p == Mark(START, x) && q == Mark(p, y)
    requires PossibleStep(START, x) && PossibleStep(p, y) && PossibleStep(q, z)
    ensures MarkAll(START, [x, y, z]) == Mark(q, z) && Possible(START, [x, y, z])
  {
    MarkNext(START, [x, y, z], x, [y, z]);
    MarkNext(p, [y, z], y, [z]);
    MarkNext(q, [z], z, []);
  }

  /** When both ends send at once, the receiver still reads the plaintext if and only if the keystream
      repeats itself at the distance of its own message. */
  lemma CrossingExactly(k: Stream, m: seq<byte>, m': seq<byte>)
    requires Valid(k)
    ensures EnabledRun(Opened(k), Crossing(m, m'))
    ensures Delivered(Play(Opened(k), Crossing(m, m')).ab) <==>
            forall i :: 0 <= i < |m| ==> KeyAt(k, i) == KeyAt(k, |m'| + i)
  {
    var xs := Crossing(m, m');
    var p := Mark(START, xs[0]);
    MarkThree(xs[0], xs[1], xs[2], p, Mark(p, xs[1]));
    PossibleEnabled(k, Opened(k), START, xs);
    DeliveredExactly(k, xs);
    var t := MarkAll(START, xs).ab;
    CrossingTrail(k, t, |m|, |m'|);
  }

  lemma CrossingTrail(k: Stream, t: Trail, n: nat, n': nat)
    requires Valid(k) && t.outs == [] + Span(0, n) && t.ins == [] + Span(n', n)
    ensures KeysAgree(k, t) <==> forall i :: 0 <= i < n ==> KeyAt(k, i) == KeyAt(k, n' + i)
  {
    forall i | 0 <= i < n
      ensures t.outs[i] == i && t.ins[i] == n' + i
    {
    }
    if KeysAgree(k, t) {
      forall i | 0 <= i < n
        ensures KeyAt(k, i) == KeyAt(k, n' + i)
      {
        assert KeyAt(k, t.outs[i]) == KeyAt(k, t.ins[i]);
      }
    }
  }

  /** Two crossing bytes under the XOR key 1, 2 arrive garbled. */
  lemma CrossingGarbles()
    ensures var k := XorStream([1, 2], 0);
            && EnabledRun(Opened(k), Crossing([0], [0]))
            && !Delivered(Play(Opened(k), Crossing([0], [0])).ab)
  {
    var k := XorStream([1, 2], 0);
    CrossingExactly(k, [0], [0]);
    XorKeyAt([1, 2], 0, 0);
    XorKeyAt([1, 2], 0, 1);
  }

  /** A partial send makes the link lose step: of two bytes the kernel takes one, and the next byte
      arrives garbled under the XOR key 1, 2, 3. */
  lemma PartialSendGarbles()
    ensures var k, xs := XorStream([1, 2, 3], 0), [SendA([0, 0], 1), SendA([0], 1), RecvB(2)];
            && EnabledRun(Opened(k), xs)
            && !Delivered(Play(Opened(k), xs).ab)
  {
    var k, xs := XorStream([1, 2, 3], 0), [SendA([0, 0], 1), SendA([0], 1), RecvB(2)];
    var p := Mark(START, xs[0]);
    MarkThree(xs[0], xs[1], xs[2], p, Mark(p, xs[1]));
    PossibleEnabled(k, Opened(k), START, xs);
    DeliveredExactly(k, xs);
    var t := MarkAll(START, xs).ab;
    assert t.outs == [0, 2] && t.ins == [0, 1];
    XorKeyAt([1, 2, 3], 0, 2);
    XorKeyAt([1, 2, 3], 0, 1);
  }
}
