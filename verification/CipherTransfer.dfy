/** Two encryptor objects with the same key, one at each end of a stream
    (Python/socks5/socks5_c-master/encrypt.c:4-84). */
module CipherTransfer {
  import opened CipherBytes
  import opened CipherRc4
  import opened CipherStream
  import opened CipherEncryptor

  /** A buffer with the given bytes. */
  method Load(data: seq<byte>) returns (buf: array<byte>)
    ensures fresh(buf) && buf[..] == data
  {
    buf := new byte[|data|](i requires 0 <= i < |data| => data[i]);
  }

  /** One call of `ss_encrypt`, into the same or into another buffer. */
  method EncryptChunk(e: Encryptor, chunk: seq<byte>, inPlace: bool) returns (out: seq<byte>)
    requires e.Ok()
    modifies e, e.enState, e.enState.perm
    ensures e.Ok() && out == Crypt(old(e.EnStream()), chunk)
    ensures e.EnStream() == Advance(old(e.EnStream()), |chunk|)
  {
    var src := Load(chunk);
    var dest := src;
    if !inPlace {
      dest := new byte[|chunk|];
    }
    assert src[..|chunk|] == chunk;
    e.Encrypt(dest, src, |chunk|);
    out := dest[..|chunk|];
  }

  /** One call of `ss_decrypt`, into the same or into another buffer. */
  method DecryptChunk(e: Encryptor, chunk: seq<byte>, inPlace: bool) returns (out: seq<byte>)
    requires e.Ok()
    modifies e, e.deState, e.deState.perm
    ensures e.Ok() && out == Crypt(old(e.DeStream()), chunk)
    ensures e.DeStream() == Advance(old(e.DeStream()), |chunk|)
  {
    var src := Load(chunk);
    var dest := src;
    if !inPlace {
      dest := new byte[|chunk|];
    }
    assert src[..|chunk|] == chunk;
    e.Decrypt(dest, src, |chunk|);
    out := dest[..|chunk|];
  }

  method EncryptAll(e: Encryptor, chunks: seq<seq<byte>>, inPlace: bool) returns (out: seq<seq<byte>>)
    requires e.Ok()
    modifies e, e.enState, e.enState.perm
    ensures out == CryptCalls(old(e.EnStream()), chunks)
  {
    out := [];
    ghost var all := CryptCalls(e.EnStream(), chunks);
    var i := 0;
    while i < |chunks|
      invariant i <= |chunks| && e.Ok()
      invariant out + CryptCalls(e.EnStream(), chunks[i..]) == all
    {
      assert chunks[i..][1..] == chunks[i + 1..];
      var c := EncryptChunk(e, chunks[i], inPlace);
      out := out + [c];
      i := i + 1;
    }
  }

  method DecryptAll(e: Encryptor, chunks: seq<seq<byte>>, inPlace: bool) returns (out: seq<seq<byte>>)
    requires e.Ok()
    modifies e, e.deState, e.deState.perm
    ensures out == CryptCalls(old(e.DeStream()), chunks)
  {
    out := [];
    ghost var all := CryptCalls(e.DeStream(), chunks);
    var i := 0;
    while i < |chunks|
      invariant i <= |chunks| && e.Ok()
      invariant out + CryptCalls(e.DeStream(), chunks[i..]) == all
    {
      assert chunks[i..][1..] == chunks[i + 1..];
      var c := DecryptChunk(e, chunks[i], inPlace);
      out := out + [c];
      i := i + 1;
    }
  }

  /** Any way of cutting a stream: the lengths of the pieces, with the rest in the last one. */
  function Cut(data: seq<byte>, lengths: seq<nat>): (r: seq<seq<byte>>)
    ensures Flatten(r) == data
    decreases |lengths|
  {
    if lengths == [] then [data]
    else
      var n := if lengths[0] <= |data| then lengths[0] else |data|;
      [data[..n]] + Cut(data[n..], lengths[1..])
  }

  /** The chunks of the sender, encrypted call by call, cut anew by the receiver and decrypted call by
      call, give the plaintext, for both ciphers and with equal or separate buffers at either end. */
  method Transfer(m: Method, key: seq<byte>, sent: seq<seq<byte>>, lengths: seq<nat>, inPlaceThere: bool, inPlaceHere: bool)
    returns (plain: seq<seq<byte>>)
    requires key != []
    ensures Flatten(plain) == Flatten(sent)
  {
    var sender := new Encryptor(m, key);
    var receiver := new Encryptor(m, key);
    ghost var k := sender.EnStream();
    var wire := EncryptAll(sender, sent, inPlaceThere);
    var received := Cut(Flatten(wire), lengths);
    ChunkedRoundTrip(k, sent, received);
    plain := DecryptAll(receiver, received, inPlaceHere);
  }
}
