/** Bytes and their arithmetic modulo 256. */
module CipherBytes {

  type byte = x: int | 0 <= x < 256

  function Add8(a: byte, b: byte): byte {
    if a + b < 256 then a + b else a + b - 256
  }

  function Sub8(a: byte, b: byte): byte {
    if a >= b then a - b else a + 256 - b
  }

  function Pow2(k: nat): nat {
    if k == 0 then 1 else 2 * Pow2(k - 1)
  }

  /** The exclusive or of the low `k` binary digits. */
  function XorBits(a: nat, b: nat, k: nat): (r: nat)
    ensures r < Pow2(k)
  {
    if k == 0 then 0
    else
      var rest := XorBits(a / 2, b / 2, k - 1);
      if a % 2 == b % 2 then 2 * rest else 2 * rest + 1
  }

  function Xor(a: byte, b: byte): byte {
    Pow2Of8();
    XorBits(a, b, 8)
  }

  lemma Pow2Of8()
    ensures Pow2(8) == 256
  {
    assert Pow2(4) == 16;
    assert Pow2(6) == 64;
  }

  lemma {:induction false} XorBitsTwice(a: nat, b: nat, k: nat)
    requires a < Pow2(k)
    ensures XorBits(XorBits(a, b, k), b, k) == a
  {
    if k > 0 {
      var rest := XorBits(a / 2, b / 2, k - 1);
      var x := if a % 2 == b % 2 then 2 * rest else 2 * rest + 1;
      assert x / 2 == rest && (x % 2 == b % 2 <==> a % 2 == 0);
      XorBitsTwice(a / 2, b / 2, k - 1);
      assert XorBits(x, b, k) == if x % 2 == b % 2 then 2 * (a / 2) else 2 * (a / 2) + 1;
    }
  }

  /** The i-th binary digit. */
  function Bit(a: nat, i: nat): nat {
    if i == 0 then a % 2 else Bit(a / 2, i - 1)
  }

  lemma {:induction false} XorBitsAt(a: nat, b: nat, k: nat, i: nat)
    requires i < k
    ensures Bit(XorBits(a, b, k), i) == if Bit(a, i) == Bit(b, i) then 0 else 1
    decreases k
  {
    var rest := XorBits(a / 2, b / 2, k - 1);
    var x := if a % 2 == b % 2 then 2 * rest else 2 * rest + 1;
    assert x / 2 == rest && (x % 2 == 0 <==> a % 2 == b % 2);
    if i > 0 {
      XorBitsAt(a / 2, b / 2, k - 1, i - 1);
    }
  }

  /** A binary digit of the exclusive or is set where exactly one of the bytes has it set. */
  lemma XorAt(a: byte, b: byte, i: nat)
    requires i < 8
    ensures Bit(Xor(a, b), i) == if Bit(a, i) == Bit(b, i) then 0 else 1
  {
    XorBitsAt(a, b, 8, i);
  }

  /** Xoring twice with the same byte gives the byte back. */
  lemma XorTwice(a: byte, b: byte)
    ensures Xor(Xor(a, b), b) == a
  {
    Pow2Of8();
    XorBitsTwice(a, b, 8);
  }

  /** Different key bytes give different results. */
  lemma {:induction false} XorBitsInjective(a: nat, b: nat, c: nat, k: nat)
    requires b < Pow2(k) && c < Pow2(k)
    requires XorBits(a, b, k) == XorBits(a, c, k)
    ensures b == c
  {
    if k > 0 {
      XorBitsInjective(a / 2, b / 2, c / 2, k - 1);
    }
  }

  lemma XorInjective(a: byte, b: byte, c: byte)
    requires Xor(a, b) == Xor(a, c)
    ensures b == c
  {
    Pow2Of8();
    XorBitsInjective(a, b, c, 8);
  }
}
