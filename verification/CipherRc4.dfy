/** The RC4 state machine (Python/socks5/socks5_c-master/rc4.c:41-101). */
module CipherRc4 {
  import opened CipherBytes

  datatype Rc4 = Rc4(perm: seq<byte>, index1: byte, index2: byte)

  predicate Sized(s: Rc4) {
    |s.perm| == 256
  }

  /** The table is a permutation of 0..255: 256 entries in range, no two alike. */
  ghost predicate IsPerm(p: seq<byte>) {
    |p| == 256 && forall x, y :: 0 <= x < y < 256 ==> p[x] != p[y]
  }

  function Swap(p: seq<byte>, x: byte, y: byte): (r: seq<byte>)
    requires |p| == 256
    ensures |r| == 256
  {
    p[x := p[y]][y := p[x]]
  }

  /** One round of the generator: what `rc4_crypt` does to the state for each byte. */
  function Next(s: Rc4): (r: Rc4)
    requires Sized(s)
    ensures Sized(r)
  {
    var i := Add8(s.index1, 1);
    var j := Add8(s.index2, s.perm[i]);
    Rc4(Swap(s.perm, i, j), i, j)
  }

  /** The key byte that the state yields after its round. */
  function KeyByte(s: Rc4): byte
    requires Sized(s)
  {
    s.perm[Add8(s.perm[s.index1], s.perm[s.index2])]
  }

  /** The state before the last round. */
  function Prev(s: Rc4): (r: Rc4)
    requires Sized(s)
    ensures Sized(r)
  {
    var p := Swap(s.perm, s.index1, s.index2);
    Rc4(p, Sub8(s.index1, 1), Sub8(s.index2, p[s.index1]))
  }

  lemma SwapTwice(p: seq<byte>, x: byte, y: byte)
    requires |p| == 256
    ensures Swap(Swap(p, x, y), x, y) == p
  {
  }

  lemma SwapKeepsPerm(p: seq<byte>, x: byte, y: byte)
    requires IsPerm(p)
    ensures IsPerm(Swap(p, x, y))
  {
  }

  /** The round is a bijection on states: `Prev` undoes it on both sides. */
  lemma RoundIsBijective(s: Rc4)
    requires Sized(s)
    ensures Prev(Next(s)) == s && Next(Prev(s)) == s
  {
    var i := Add8(s.index1, 1);
    SwapTwice(s.perm, i, Add8(s.index2, s.perm[i]));
    SwapTwice(s.perm, s.index1, s.index2);
  }

  function Rounds(s: Rc4, n: nat): (r: Rc4)
    requires Sized(s)
    ensures Sized(r)
    decreases n
  {
    if n == 0 then s else Rounds(Next(s), n - 1)
  }

  /** Two distinct states never merge, however many bytes are produced. */
  lemma {:induction false} NeverMerge(s: Rc4, s': Rc4, n: nat)
    requires Sized(s) && Sized(s') && Rounds(s, n) == Rounds(s', n)
    ensures s == s'
    decreases n
  {
    if n > 0 {
      NeverMerge(Next(s), Next(s'), n - 1);
      RoundIsBijective(s);
      RoundIsBijective(s');
    }
  }

  lemma {:induction false} RoundsKeepPerm(s: Rc4, n: nat)
    requires IsPerm(s.perm)
    ensures IsPerm(Rounds(s, n).perm)
    decreases n
  {
    if n > 0 {
      SwapKeepsPerm(s.perm, Add8(s.index1, 1), Add8(s.index2, s.perm[Add8(s.index1, 1)]));
      RoundsKeepPerm(Next(s), n - 1);
    }
  }

  // ----- key scheduling

  function Identity(): seq<byte> {
    seq(256, x requires 0 <= x < 256 => x)
  }

  /** The key-scheduling loop from position `i` on. */
  function Schedule(p: seq<byte>, j: byte, i: nat, key: seq<byte>): (r: seq<byte>)
    requires |p| == 256 && i <= 256 && key != []
    ensures |r| == 256
    decreases 256 - i
  {
    if i == 256 then p
    else
      var j' := Add8(Add8(j, p[i]), key[i % |key|]);
      Schedule(Swap(p, i, j'), j', i + 1, key)
  }

  function Initial(key: seq<byte>): (s: Rc4)
    requires key != []
    ensures Sized(s)
  {
    Rc4(Schedule(Identity(), 0, 0, key), 0, 0)
  }

  lemma {:induction false} ScheduleKeepsPerm(p: seq<byte>, j: byte, i: nat, key: seq<byte>)
    requires IsPerm(p) && i <= 256 && key != []
    ensures IsPerm(Schedule(p, j, i, key))
    decreases 256 - i
  {
    if i < 256 {
      var j' := Add8(Add8(j, p[i]), key[i % |key|]);
      SwapKeepsPerm(p, i, j');
      ScheduleKeepsPerm(Swap(p, i, j'), j', i + 1, key);
    }
  }

  // ----- the schedule and the round without the functions that compute them

  /** The entries at two places have changed places, and all others are the same. */
  ghost predicate Exchanged(p: seq<byte>, q: seq<byte>, x: int, y: int) {
    && |p| == 256 && |q| == 256 && 0 <= x < 256 && 0 <= y < 256
    && q[x] == p[y] && q[y] == p[x]
    && forall z :: 0 <= z < 256 && z != x && z != y ==> q[z] == p[z]
  }

  /** A table and the second index, in the course of the key schedule. */
  datatype Stage = Stage(perm: seq<byte>, j: byte)

  /** One step of the schedule: the index moves by the table's entry and the key's byte, modulo 256. */
  ghost predicate Mixes(a: Stage, b: Stage, i: nat, key: seq<byte>)
    requires key != []
  {
    && i < 256 && Exchanged(a.perm, b.perm, i, b.j)
    && (b.j - a.j - a.perm[i] - key[i % |key|]) % 256 == 0
  }

  /** The stages of the schedule from step `i` on. */
  ghost predicate IsSchedule(stages: seq<Stage>, i: nat, key: seq<byte>)
    requires key != []
  {
    && i <= 256 && |stages| == 257 - i
    && forall n :: 0 <= n < |stages| - 1 ==> Mixes(stages[n], stages[n + 1], i + n, key)
  }

  lemma Add8Mod(a: byte, b: byte)
    ensures Add8(a, b) == (a + b) % 256
  {
  }

  /** A byte is determined by its residue. */
  lemma SameResidue(x: byte, y: byte, d: int)
    requires (x - d) % 256 == 0 && (y - d) % 256 == 0
    ensures x == y
  {
  }

  lemma MixIndex(j: byte, a: byte, k: byte)
    ensures (Add8(Add8(j, a), k) - j - a - k) % 256 == 0
  {
  }

  lemma MixesExactly(a: Stage, b: Stage, i: nat, key: seq<byte>)
    requires key != [] && i < 256 && |a.perm| == 256
    ensures Mixes(a, b, i, key) <==>
            b.j == Add8(Add8(a.j, a.perm[i]), key[i % |key|]) && b.perm == Swap(a.perm, i, b.j)
  {
    var k := key[i % |key|];
    MixIndex(a.j, a.perm[i], k);
    if Mixes(a, b, i, key) {
      SameResidue(b.j, Add8(Add8(a.j, a.perm[i]), k), a.j + a.perm[i] + k);
      assert b.perm == Swap(a.perm, i, b.j);
    }
  }

  /** Any such stages end in the table that the schedule computes. */
  lemma {:induction false} ScheduleEnds(stages: seq<Stage>, i: nat, key: seq<byte>)
    requires key != [] && IsSchedule(stages, i, key) && |stages[0].perm| == 256
    ensures stages[256 - i].perm == Schedule(stages[0].perm, stages[0].j, i, key)
    decreases 256 - i
  {
    if i < 256 {
      MixesExactly(stages[0], stages[1], i, key);
      var rest := stages[1..];
      assert forall n :: 0 <= n < |rest| ==> rest[n] == stages[n + 1];
      ScheduleEnds(rest, i + 1, key);
    }
  }

  lemma {:induction false} ScheduleStages(a: Stage, i: nat, key: seq<byte>) returns (stages: seq<Stage>)
    requires key != [] && i <= 256 && |a.perm| == 256
    ensures IsSchedule(stages, i, key) && stages[0] == a
    decreases 256 - i
  {
    if i == 256 {
      return [a];
    }
    var j := Add8(Add8(a.j, a.perm[i]), key[i % |key|]);
    var b := Stage(Swap(a.perm, i, j), j);
    MixesExactly(a, b, i, key);
    var rest := ScheduleStages(b, i + 1, key);
    stages := [a] + rest;
    forall n | 0 <= n < |stages| - 1
      ensures Mixes(stages[n], stages[n + 1], i + n, key)
    {
      if n > 0 {
        assert Mixes(rest[n - 1], rest[n - 1 + 1], i + 1 + (n - 1), key);
      }
    }
  }

  /** The stages start at the identity and 0, and end in the table. */
  ghost predicate SchedulesTo(stages: seq<Stage>, key: seq<byte>, perm: seq<byte>)
    requires key != []
  {
    && IsSchedule(stages, 0, key) && |stages[0].perm| == 256
    && (forall x :: 0 <= x < 256 ==> stages[0].perm[x] == x) && stages[0].j == 0
    && stages[256].perm == perm
  }

  /** The table that a key starts with is the one at the end of 256 mixing steps, and no other. */
  lemma InitialExactly(key: seq<byte>, perm: seq<byte>)
    requires key != []
    ensures (exists stages :: SchedulesTo(stages, key, perm)) <==> perm == Initial(key).perm
    ensures Initial(key).index1 == 0 && Initial(key).index2 == 0
  {
    forall stages: seq<Stage> | SchedulesTo(stages, key, perm)
      ensures perm == Initial(key).perm
    {
      assert stages[0].perm == Identity();
      ScheduleEnds(stages, 0, key);
    }
    if perm == Initial(key).perm {
      var stages := ScheduleStages(Stage(Identity(), 0), 0, key);
      ScheduleEnds(stages, 0, key);
      assert SchedulesTo(stages, key, perm);
    }
  }

  /** One round: the first index moves by one, the second by the entry there, and the two entries change
      places. */
  ghost predicate IsRound(s: Rc4, s': Rc4) {
    && (s'.index1 - s.index1 - 1) % 256 == 0
    && Exchanged(s.perm, s'.perm, s'.index1, s'.index2)
    && (s'.index2 - s.index2 - s.perm[s'.index1]) % 256 == 0
  }

  lemma RoundExactly(s: Rc4, s': Rc4)
    requires Sized(s)
    ensures IsRound(s, s') <==> s' == Next(s)
  {
    Add8Mod(s.index1, 1);
    Add8Mod(s.index2, s.perm[Next(s).index1]);
    if IsRound(s, s') {
      SameResidue(s'.index1, Next(s).index1, s.index1 + 1);
      SameResidue(s'.index2, Next(s).index2, s.index2 + s.perm[s'.index1]);
      assert s'.perm == Next(s).perm;
    }
  }

  /** The key byte stands where the sum of the two exchanged entries points. */
  lemma KeyByteAt(s: Rc4)
    requires Sized(s)
    ensures KeyByte(s) == s.perm[(s.perm[s.index1] as int + s.perm[s.index2] as int) % 256]
  {
    Add8Mod(s.perm[s.index1], s.perm[s.index2]);
  }

  /** For every key and after any number of bytes the table is a permutation. */
  lemma AlwaysPerm(key: seq<byte>, n: nat)
    requires key != []
    ensures IsPerm(Rounds(Initial(key), n).perm)
  {
    assert IsPerm(Identity());
    ScheduleKeepsPerm(Identity(), 0, 0, key);
    RoundsKeepPerm(Initial(key), n);
  }

  // ----- a set of states that is never entered

  /** The short-cycle states: index2 is one ahead of index1 and points at the value 1. */
  predicate ShortCycle(s: Rc4)
    requires Sized(s)
  {
    s.index2 == Add8(s.index1, 1) && s.perm[Add8(s.index1, 1)] == 1
  }

  /** The set is closed under a round forwards and backwards. */
  lemma ShortCycleClosed(s: Rc4)
    requires Sized(s)
    ensures ShortCycle(Next(s)) <==> ShortCycle(s)
  {
  }

  lemma {:induction false} ShortCycleRounds(s: Rc4, n: nat)
    requires Sized(s)
    ensures ShortCycle(Rounds(s, n)) <==> ShortCycle(s)
    decreases n
  {
    if n > 0 {
      ShortCycleClosed(s);
      ShortCycleRounds(Next(s), n - 1);
    }
  }

  /** No key and no number of bytes leads into the short-cycle states. */
  lemma ShortCycleUnreachable(key: seq<byte>, n: nat)
    requires key != []
    ensures !ShortCycle(Rounds(Initial(key), n))
  {
    ShortCycleRounds(Initial(key), n);
  }

  // ----- the code

  class Rc4State {
    const perm: array<byte>
    var index1: byte
    var index2: byte

    ghost predicate Valid()
      reads this
    {
      perm.Length == 256
    }

    ghost function Value(): (s: Rc4)
      requires Valid()
      reads this, perm
      ensures Sized(s)
    {
      Rc4(perm[..], index1, index2)
    }

    constructor ()
      ensures Valid() && fresh(perm)
    {
      perm := new byte[256](_ => 0);
      index1, index2 := 0, 0;
    }

    method SwapBytes(x: byte, y: byte)
      requires Valid()
      modifies perm
      ensures perm[..] == Swap(old(perm[..]), x, y)
    {
      var temp := perm[x];
      perm[x] := perm[y];
      perm[y] := temp;
    }

    /** `rc4_init` */
    method Init(key: seq<byte>)
      requires Valid() && key != []
      modifies this, perm
      ensures Value() == Initial(key)
      ensures index1 == 0 && index2 == 0 && exists stages :: SchedulesTo(stages, key, perm[..])
    {
      var i := 0;
      while i < 256
        invariant i <= 256
        invariant forall x :: 0 <= x < i ==> perm[x] == x
      {
        perm[i] := i;
        i := i + 1;
      }
      index1, index2 := 0, 0;
      assert perm[..] == Identity();
      var j: byte := 0;
      i := 0;
      while i < 256
        invariant i <= 256 && index1 == 0 && index2 == 0
        invariant Schedule(perm[..], j, i, key) == Schedule(Identity(), 0, 0, key)
      {
        j := Add8(Add8(j, perm[i]), key[i % |key|]);
        SwapBytes(i, j);
        i := i + 1;
      }
      InitialExactly(key, perm[..]);
    }

    /** The state update of `rc4_crypt` for one byte. */
    method Round() returns (k: byte)
      requires Valid()
      modifies this, perm
      ensures Value() == Next(old(Value())) && IsRound(old(Value()), Value())
      ensures k == KeyByte(Value()) == perm[(perm[index1] as int + perm[index2] as int) % 256]
    {
      index1 := Add8(index1, 1);
      index2 := Add8(index2, perm[index1]);
      SwapBytes(index1, index2);
      k := perm[Add8(perm[index1], perm[index2])];
      RoundExactly(old(Value()), Value());
      KeyByteAt(Value());
    }
  }
}
