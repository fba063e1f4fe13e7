/** Both stream ciphers as one keystream, and what follows for data cut into calls in any way. */
module CipherStream {
  import opened CipherBytes
  import opened CipherRc4

  /** Where a cipher stands in its keystream. */
  datatype Stream = XorStream(key: seq<byte>, loc: nat) | Rc4Stream(state: Rc4)

  predicate Valid(k: Stream) {
    match k
    case XorStream(key, loc) => loc < |key|
    case Rc4Stream(s) => Sized(s)
  }

  function Key(k: Stream): byte
    requires Valid(k)
  {
    match k
    case XorStream(key, loc) => key[loc]
    case Rc4Stream(s) => KeyByte(Next(s))
  }

  function Step(k: Stream): (r: Stream)
    requires Valid(k)
    ensures Valid(r)
  {
    match k
    case XorStream(key, loc) => XorStream(key, if loc + 1 == |key| then 0 else loc + 1)
    case Rc4Stream(s) => Rc4Stream(Next(s))
  }

  function Advance(k: Stream, n: nat): (r: Stream)
    requires Valid(k)
    ensures Valid(r)
    decreases n
  {
    if n == 0 then k else Advance(Step(k), n - 1)
  }

  /** Encryption and decryption alike: each byte is xored with its key byte. */
  function Crypt(k: Stream, data: seq<byte>): (r: seq<byte>)
    requires Valid(k)
    ensures |r| == |data|
    decreases |data|
  {
    if data == [] then [] else [Xor(data[0], Key(k))] + Crypt(Step(k), data[1..])
  }

  /** Advancing in two goes. */
  lemma {:induction false} AdvanceSum(k: Stream, m: nat, k': Stream, n: nat)
    requires Valid(k) && k' == Advance(k, m)
    ensures Advance(k', n) == Advance(k, m + n)
    decreases m
  {
    if m > 0 {
      AdvanceSum(Step(k), m - 1, k', n);
    }
  }

  lemma {:induction false} CryptConcat(k: Stream, a: seq<byte>, b: seq<byte>)
    requires Valid(k)
    ensures Crypt(k, a + b) == Crypt(k, a) + Crypt(Advance(k, |a|), b)
    decreases |a|
  {
    if a == [] {
      assert a + b == b;
    } else {
      assert (a + b)[1..] == a[1..] + b;
      CryptConcat(Step(k), a[1..], b);
    }
  }

  lemma {:induction false} CryptTwice(k: Stream, data: seq<byte>)
    requires Valid(k)
    ensures Crypt(k, Crypt(k, data)) == data
    decreases |data|
  {
    if data != [] {
      XorTwice(data[0], Key(k));
      CryptTwice(Step(k), data[1..]);
      assert Crypt(k, data)[1..] == Crypt(Step(k), data[1..]);
    }
  }

  /** Byte by byte, with the key byte of its position. */
  lemma {:induction false} CryptAt(k: Stream, data: seq<byte>, i: nat)
    requires Valid(k) && i < |data|
    ensures Crypt(k, data)[i] == Xor(data[i], Key(Advance(k, i)))
    decreases i
  {
    if i > 0 {
      CryptAt(Step(k), data[1..], i - 1);
    }
  }

  // ----- any number of calls

  function Flatten(chunks: seq<seq<byte>>): seq<byte> {
    if chunks == [] then [] else chunks[0] + Flatten(chunks[1..])
  }

  /** One call for each chunk; the state carries over. */
  function CryptCalls(k: Stream, chunks: seq<seq<byte>>): seq<seq<byte>>
    requires Valid(k)
    decreases |chunks|
  {
    if chunks == [] then []
    else [Crypt(k, chunks[0])] + CryptCalls(Advance(k, |chunks[0]|), chunks[1..])
  }

  /** The bytes do not depend on how the stream is cut into calls. */
  lemma {:induction false} CallsAreOneCall(k: Stream, chunks: seq<seq<byte>>)
    requires Valid(k)
    ensures Flatten(CryptCalls(k, chunks)) == Crypt(k, Flatten(chunks))
    decreases |chunks|
  {
    if chunks != [] {
      CryptConcat(k, chunks[0], Flatten(chunks[1..]));
      CallsAreOneCall(Advance(k, |chunks[0]|), chunks[1..]);
    }
  }

  /** Whatever way the sender cuts the stream into calls and the receiver cuts what arrives, the
      receiver recovers the plaintext. */
  lemma ChunkedRoundTrip(k: Stream, sent: seq<seq<byte>>, received: seq<seq<byte>>)
    requires Valid(k) && Flatten(received) == Flatten(CryptCalls(k, sent))
    ensures Flatten(CryptCalls(k, received)) == Flatten(sent)
  {
    CallsAreOneCall(k, sent);
    CallsAreOneCall(k, received);
    CryptTwice(k, Flatten(sent));
  }

  /** A byte is decrypted by another key byte exactly when that is the same. */
  lemma HeadAgrees(d: byte, x: byte, y: byte)
    ensures Xor(Xor(d, x), y) == d <==> x == y
  {
    XorTwice(d, x);
    if Xor(Xor(d, x), y) == d {
      XorInjective(Xor(d, x), y, x);
    }
  }
}
