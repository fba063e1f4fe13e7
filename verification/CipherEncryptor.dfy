/** The encryptor object and its in-place routines
    (Python/socks5/socks5_c-master/xor.c:3-18; rc4.c:80-101; encrypt.c:4-84; socks.c:39-61). */
module CipherEncryptor {
  import opened Arithmetic
  import opened CipherBytes
  import opened CipherRc4
  import opened CipherStream

  lemma CryptIs(k: Stream, data: seq<byte>, out: seq<byte>)
    requires Valid(k) && |out| == |data|
    requires forall i :: 0 <= i < |data| ==> out[i] == Xor(data[i], Key(Advance(k, i)))
    ensures out == Crypt(k, data)
  {
    forall i | 0 <= i < |data|
      ensures out[i] == Crypt(k, data)[i]
    {
      CryptAt(k, data, i);
    }
  }

  lemma {:induction false} AdvanceOne(k: Stream, n: nat)
    requires Valid(k)
    ensures Advance(k, n + 1) == Step(Advance(k, n))
    decreases n
  {
    if n > 0 {
      AdvanceOne(Step(k), n - 1);
    }
  }

  // ----- XOR

  /** The position in the key after `n` bytes. */
  lemma {:induction false} XorAdvance(key: seq<byte>, loc: nat, n: nat)
    requires loc < |key|
    ensures Advance(XorStream(key, loc), n) == XorStream(key, (n + loc) % |key|)
  {
    if n == 0 {
      ModUnique(loc, |key|, 0, loc);
    } else {
      XorAdvance(key, loc, n - 1);
      AdvanceOne(XorStream(key, loc), n - 1);
      ModStep(n - 1 + loc, |key|);
    }
  }

  /** Each byte meets the key byte at its place, counted on from the position and round the key. */
  lemma XorKeystream(key: seq<byte>, loc: nat, data: seq<byte>, i: nat)
    requires loc < |key| && i < |data|
    ensures Crypt(XorStream(key, loc), data)[i] == Xor(data[i], key[(i + loc) % |key|])
  {
    XorAdvance(key, loc, i);
    CryptAt(XorStream(key, loc), data, i);
  }

  lemma {:induction false} Rc4Advance(s: Rc4, n: nat)
    requires Sized(s)
    ensures Advance(Rc4Stream(s), n) == Rc4Stream(Rounds(s, n))
    decreases n
  {
    if n > 0 {
      Rc4Advance(Next(s), n - 1);
    }
  }

  /** Each byte meets the key byte that the state yields after its round. */
  lemma Rc4Keystream(s: Rc4, data: seq<byte>, i: nat)
    requires Sized(s) && i < |data|
    ensures Crypt(Rc4Stream(s), data)[i] == Xor(data[i], KeyByte(Next(Rounds(s, i))))
  {
    Rc4Advance(s, i);
    CryptAt(Rc4Stream(s), data, i);
  }

  /** `xor_encrypt`, which is also `xor_decrypt`. */
  method XorCrypt(buf: array<byte>, n: nat, key: seq<byte>, loc: nat) returns (loc': nat)
    requires n <= buf.Length && loc < |key|
    modifies buf
    ensures buf[..n] == Crypt(XorStream(key, loc), old(buf[..n]))
    ensures buf[n..] == old(buf[n..])
    ensures loc' < |key| && XorStream(key, loc') == Advance(XorStream(key, loc), n)
  {
    ghost var k := XorStream(key, loc);
    var i := 0;
    while i < n
      invariant i <= n
      invariant forall x :: 0 <= x < i ==> buf[x] == Xor(old(buf[x]), Key(Advance(k, x)))
      invariant forall x :: i <= x < buf.Length ==> buf[x] == old(buf[x])
    {
      XorAdvance(key, loc, i);
      buf[i] := Xor(buf[i], key[(i + loc) % |key|]);
      i := i + 1;
    }
    CryptIs(k, old(buf[..n]), buf[..n]);
    XorAdvance(key, loc, n);
    loc' := (n + loc) % |key|;
  }

  // ----- RC4

  /** One byte of `rc4_crypt`. */
  method Rc4Byte(s: Rc4State, inbuf: array<byte>, outbuf: array<byte>, i: nat)
    requires s.Valid() && i < inbuf.Length && i < outbuf.Length
    requires inbuf != s.perm && outbuf != s.perm
    modifies s, s.perm, outbuf
    ensures Rc4Stream(s.Value()) == Step(Rc4Stream(old(s.Value())))
    ensures outbuf[i] == Xor(old(inbuf[i]), Key(Rc4Stream(old(s.Value()))))
    ensures forall x :: 0 <= x < outbuf.Length && x != i ==> outbuf[x] == old(outbuf[x])
  {
    var b := s.Round();
    outbuf[i] := Xor(inbuf[i], b);
  }

  /** `rc4_crypt`; the two buffers may be the same. */
  method Rc4Crypt(s: Rc4State, inbuf: array<byte>, outbuf: array<byte>, n: nat)
    requires s.Valid() && n <= inbuf.Length && n <= outbuf.Length
    requires inbuf != s.perm && outbuf != s.perm
    modifies s, s.perm, outbuf
    ensures outbuf[..n] == Crypt(Rc4Stream(old(s.Value())), old(inbuf[..n]))
    ensures outbuf[n..] == old(outbuf[n..])
    ensures Rc4Stream(s.Value()) == Advance(Rc4Stream(old(s.Value())), n)
  {
    ghost var k := Rc4Stream(s.Value());
    var i := 0;
    while i < n
      invariant i <= n
      invariant Rc4Stream(s.Value()) == Advance(k, i)
      invariant forall x :: 0 <= x < i ==> outbuf[x] == Xor(old(inbuf[x]), Key(Advance(k, x)))
      invariant forall x :: i <= x < inbuf.Length ==> inbuf[x] == old(inbuf[x])
      invariant forall x :: i <= x < outbuf.Length ==> outbuf[x] == old(outbuf[x])
    {
      AdvanceOne(k, i);
      Rc4Byte(s, inbuf, outbuf, i);
      i := i + 1;
    }
    CryptIs(k, old(inbuf[..n]), outbuf[..n]);
  }

  // ----- the encryptor

  datatype Method = XorMethod | Rc4Method

  /** The keystream that a key starts. */
  function Start(m: Method, key: seq<byte>): (k: Stream)
    requires key != []
    ensures Valid(k)
  {
    if m == XorMethod then XorStream(key, 0) else Rc4Stream(Initial(key))
  }

  class Encryptor {
    const encMethod: Method
    const key: seq<byte>
    var encryLoc: nat
    var decryLoc: nat
    const enState: Rc4State
    const deState: Rc4State

    ghost predicate Ok()
      reads this, enState, deState
    {
      && encryLoc < |key| && decryLoc < |key|
      && enState.Valid() && deState.Valid()
      && enState != deState && enState.perm != deState.perm
    }

    ghost function EnStream(): (k: Stream)
      requires Ok()
      reads this, enState, enState.perm, deState
      ensures Valid(k)
    {
      if encMethod == XorMethod then XorStream(key, encryLoc) else Rc4Stream(enState.Value())
    }

    ghost function DeStream(): (k: Stream)
      requires Ok()
      reads this, enState, deState, deState.perm
      ensures Valid(k)
    {
      if encMethod == XorMethod then XorStream(key, decryLoc) else Rc4Stream(deState.Value())
    }

    /** A buffer outside the encryptor's own tables. */
    ghost predicate Apart(buf: array<byte>)
      reads this
    {
      buf != enState.perm && buf != deState.perm
    }

    /** `ss_create_encryptor`: both directions start at the beginning of the keystream. */
    constructor (m: Method, key: seq<byte>)
      requires key != []
      ensures Ok() && EnStream() == Start(m, key) && DeStream() == Start(m, key)
      ensures EnStream() == if m == XorMethod then XorStream(key, 0) else Rc4Stream(Initial(key))
      ensures fresh(enState) && fresh(deState) && fresh(enState.perm) && fresh(deState.perm)
    {
      encMethod, this.key := m, key;
      encryLoc, decryLoc := 0, 0;
      enState := new Rc4State();
      deState := new Rc4State();
      new;
      if m == Rc4Method {
        enState.Init(key);
        deState.Init(key);
      }
    }

    /** `ss_encrypt` */
    method Encrypt(dest: array<byte>, src: array<byte>, n: nat)
      requires Ok() && Apart(dest) && Apart(src) && n <= src.Length && n <= dest.Length
      modifies this, enState, enState.perm, dest
      ensures Ok()
      ensures dest[..n] == Crypt(old(EnStream()), old(src[..n])) && dest[n..] == old(dest[n..])
      ensures EnStream() == Advance(old(EnStream()), n) && DeStream() == old(DeStream())
    {
      if encMethod == XorMethod {
        if dest != src {
          Copy(dest, src, n);
        }
        encryLoc := XorCrypt(dest, n, key, encryLoc);
      } else {
        Rc4Crypt(enState, src, dest, n);
      }
    }

    /** `ss_decrypt` */
    method Decrypt(dest: array<byte>, src: array<byte>, n: nat)
      requires Ok() && Apart(dest) && Apart(src) && n <= src.Length && n <= dest.Length
      modifies this, deState, deState.perm, dest
      ensures Ok()
      ensures dest[..n] == Crypt(old(DeStream()), old(src[..n])) && dest[n..] == old(dest[n..])
      ensures DeStream() == Advance(old(DeStream()), n) && EnStream() == old(EnStream())
    {
      if encMethod == XorMethod {
        if dest != src {
          Copy(dest, src, n);
        }
        decryLoc := XorCrypt(dest, n, key, decryLoc);
      } else {
        Rc4Crypt(deState, src, dest, n);
      }
    }

    /** `encry_send` up to the system call: the bytes that go on the wire. It advances the decrypt state. */
    method EncrySend(buf: array<byte>, n: nat) returns (wire: seq<byte>)
      requires Ok() && Apart(buf) && n <= buf.Length
      modifies this, deState, deState.perm, buf
      ensures Ok()
      ensures wire == Crypt(old(DeStream()), old(buf[..n]))
      ensures DeStream() == Advance(old(DeStream()), n) && EnStream() == old(EnStream())
    {
      Decrypt(buf, buf, n);
      wire := buf[..n];
    }

    /** `decry_recv` after the system call has put `ret` bytes, or an error, into the buffer. */
    method DecryRecv(buf: array<byte>, ret: int)
      requires Ok() && Apart(buf) && ret <= buf.Length
      modifies this, deState, deState.perm, buf
      ensures Ok()
      ensures ret > 0 ==>
                && buf[..ret] == Crypt(old(DeStream()), old(buf[..ret]))
                && DeStream() == Advance(old(DeStream()), ret)
      ensures ret <= 0 ==> DeStream() == old(DeStream()) && buf[..] == old(buf[..])
      ensures EnStream() == old(EnStream())
    {
      if ret > 0 {
        Decrypt(buf, buf, ret);
      }
    }
  }

  /** `memcpy` between two buffers. */
  method Copy(dest: array<byte>, src: array<byte>, n: nat)
    requires dest != src && n <= dest.Length && n <= src.Length
    modifies dest
    ensures dest[..n] == src[..n] && dest[n..] == old(dest[n..])
  {
    var i := 0;
    while i < n
      invariant i <= n
      invariant forall x :: 0 <= x < i ==> dest[x] == src[x]
      invariant forall x :: n <= x < dest.Length ==> dest[x] == old(dest[x])
    {
      dest[i] := src[i];
      i := i + 1;
    }
  }
}
