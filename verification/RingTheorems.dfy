/** Every interleaving of the ring: it is finite, it prints the numbers in order, and it ends with all
    goroutines gone exactly when the number of blocks is a multiple of 3. */
module RingTheorems {
  import opened Arithmetic
  import opened Options
  import opened Ring

  // ----- every step makes progress

  function NotDone(g: seq<Pc>): nat
    requires |g| == 3
  {
    (if g[0].Done? then 0 else 1) + (if g[1].Done? then 0 else 1) + (if g[2].Done? then 0 else 1)
  }

  /** The steps the holder of the token still needs before it hands it on. */
  function HolderWork(cfg: Config, pc: Pc): int {
    match pc
    case Print(_, i) => cfg.step - i + 2
    case Send(_, _) => 1
    case _ => 0
  }

  /** The work of the goroutines where they are. */
  function LocalWork(cfg: Config, g: seq<Pc>): int
    requires |g| == 3
  {
    HolderWork(cfg, g[0]) + HolderWork(cfg, g[1]) + HolderWork(cfg, g[2]) + NotDone(g)
  }

  /** Work left over with `c` receives done: a bound on the number of steps still to come. */
  function Work(cfg: Config, k: nat, s: State, c: nat): int
    requires |s.g| == 3
  {
    Rounds(cfg, k + 3 - c) + LocalWork(cfg, s.g)
  }

  function Rounds(cfg: Config, n: int): int
    decreases n
  {
    if n <= 0 then 0 else Rounds(cfg, n - 1) + cfg.step + 6
  }

  /** The step of goroutine `t` hands the token to a receiver. */
  predicate Receives(s: State, t: nat)
    requires |s.g| == 3 && t < 3
  {
    s.g[t] == Recv || (t < 2 && s.g[t].Send?)
  }

  /** One step of one goroutine: the new state has a shape again and less work left. */
  lemma StepProgress(cfg: Config, k: nat, s: State, c: nat, t: nat) returns (c': nat)
    requires IsBlocks(cfg, k) && Shape(cfg, k, s, c) && t < 3 && Move(cfg, s, t).Some?
    ensures Shape(cfg, k, Move(cfg, s, t).value, c')
    ensures 0 <= Work(cfg, k, Move(cfg, s, t).value, c') < Work(cfg, k, s, c)
  {
    c' := MoveKeepsShape(cfg, k, s, c, t);
    MoveReducesWork(cfg, k, s, c, t, c');
    WorkBounded(cfg, k, Move(cfg, s, t).value, c');
  }

  lemma MoveKeepsShape(cfg: Config, k: nat, s: State, c: nat, t: nat) returns (c': nat)
    requires IsBlocks(cfg, k) && Shape(cfg, k, s, c) && t < 3 && Move(cfg, s, t).Some?
    ensures Shape(cfg, k, Move(cfg, s, t).value, c')
    ensures c' == if Receives(s, t) then c + 1 else c
  {
    if s.g[t] == Finishing {
      FinishKeepsShape(cfg, k, s, c, t);
      return c;
    }
    if InBuffer(cfg, k, s, c) {
      BufferRecvKeepsShape(cfg, k, s, c);
      return c + 1;
    }
    assert t == (c - 1) % 3;
    if s.g[t].Print? {
      PrintKeepsShape(cfg, k, s, c);
      return c;
    }
    if t == 2 {
      BufferSendKeepsShape(cfg, k, s, c);
      return c;
    }
    HandOverKeepsShape(cfg, k, s, c);
    return c + 1;
  }

  ghost predicate PrintsOk(cfg: Config, g: seq<Pc>) {
    forall t :: 0 <= t < |g| && g[t].Print? ==> g[t].i <= cfg.step
  }

  /** A receive adds at most one block to the work; every other step reduces it. */
  lemma MoveChangesWork(cfg: Config, s: State, t: nat)
    requires |s.g| == 3 && t < 3 && Move(cfg, s, t).Some? && PrintsOk(cfg, s.g)
    ensures var w, w' := LocalWork(cfg, s.g), LocalWork(cfg, Move(cfg, s, t).value.g);
            && w' <= w + cfg.step + 5
            && ((s.g[t] != Recv && !(t < 2 && s.g[t].Send?)) ==> w' < w)
  {
  }

  lemma MoveReducesWork(cfg: Config, k: nat, s: State, c: nat, t: nat, c': nat)
    requires |s.g| == 3 && t < 3 && Move(cfg, s, t).Some? && c' <= k + 3 && PrintsOk(cfg, s.g)
    requires c' == if Receives(s, t) then c + 1 else c
    ensures Work(cfg, k, Move(cfg, s, t).value, c') < Work(cfg, k, s, c)
  {
    MoveChangesWork(cfg, s, t);
    if Receives(s, t) {
      assert Rounds(cfg, k + 3 - c) == Rounds(cfg, k + 3 - c - 1) + cfg.step + 6;
    }
  }

  lemma {:induction false} RoundsPositive(cfg: Config, n: int)
    ensures Rounds(cfg, n) >= 0
    decreases n
  {
    if n > 0 {
      RoundsPositive(cfg, n - 1);
    }
  }

  lemma WorkBounded(cfg: Config, k: nat, s: State, c: nat)
    requires Shape(cfg, k, s, c)
    ensures Work(cfg, k, s, c) >= 0
  {
    RoundsPositive(cfg, k + 3 - c);
  }

  // ----- runs

  /** Every run is shorter than the work at its start, and every state in it has a shape. */
  lemma {:induction false} RunShape(cfg: Config, k: nat, run: seq<State>) returns (c: nat)
    requires IsBlocks(cfg, k) && IsRun(cfg, run)
    ensures Shape(cfg, k, run[|run| - 1], c)
    ensures |run| - 1 + Work(cfg, k, run[|run| - 1], c) <= Work(cfg, k, START, 0)
    ensures 0 <= Work(cfg, k, run[|run| - 1], c)
    decreases |run|
  {
    if |run| == 1 {
      StartShape(cfg, k);
      WorkBounded(cfg, k, START, 0);
      return 0;
    }
    var before := run[..|run| - 1];
    var s := before[|before| - 1];
    assert Next(cfg, run[|run| - 2], run[|run| - 1]);
    forall i | 0 <= i < |before| - 1
      ensures Next(cfg, before[i], before[i + 1])
    {
      assert Next(cfg, run[i], run[i + 1]);
    }
    c := RunShape(cfg, k, before);
    var t: nat :| t < 3 && Move(cfg, s, t) == Some(run[|run| - 1]);
    c := StepProgress(cfg, k, s, c, t);
  }

  predicate AllDone(s: State)
    requires |s.g| == 3
  {
    s.g[0].Done? && s.g[1].Done? && s.g[2].Done?
  }

  /** Goroutine `t` wants to send on an unbuffered channel, the other two are gone. */
  predicate Blocked(s: State, t: nat)
    requires |s.g| == 3
  {
    t < 2 && s.g[t].Send? && s.g[t].last && s.g[(t + 1) % 3].Done? && s.g[(t + 2) % 3].Done?
  }

  /** Where a run can end. */
  lemma StuckShape(cfg: Config, k: nat, s: State, c: nat)
    requires IsBlocks(cfg, k) && Shape(cfg, k, s, c) && Stuck(cfg, s)
    ensures c == k + 3
    ensures k % 3 == 0 ==> AllDone(s)
    ensures k % 3 != 0 ==> Blocked(s, (k + 2) % 3)
    ensures Numbers(s.out) == Printed(cfg, k)
  {
    assert Move(cfg, s, 0).None? && Move(cfg, s, 1).None? && Move(cfg, s, 2).None?;
    if InBuffer(cfg, k, s, c) {
      assert s.g[0] != Recv;
      assert Retired(k, c, 0);
    } else {
      assert !s.g[(c - 1) % 3].Print?;
      assert (c - 1) % 3 != 2;
      assert s.g[c % 3] != Recv;
      assert Retired(k, c - 1, c % 3);
    }
  }

  /** The ring ends well in every interleaving exactly when the number of blocks is a multiple of 3;
      otherwise every interleaving ends with one goroutine blocked forever on a send to a peer that is
      gone. Either way the same numbers have been printed. */
  lemma RingOutcome(cfg: Config, k: nat, run: seq<State>)
    requires IsBlocks(cfg, k) && IsRun(cfg, run)
    ensures |run[|run| - 1].g| == 3
    ensures |run| <= Work(cfg, k, START, 0) + 1
    ensures Stuck(cfg, run[|run| - 1]) ==>
              && (AllDone(run[|run| - 1]) <==> k % 3 == 0)
              && (Blocked(run[|run| - 1], (k + 2) % 3) <==> k % 3 != 0)
              && Numbers(run[|run| - 1].out) == Printed(cfg, k)
  {
    var c := RunShape(cfg, k, run);
    if Stuck(cfg, run[|run| - 1]) {
      StuckShape(cfg, k, run[|run| - 1], c);
    }
  }

  /** How often a goroutine says that it is finished. */
  function Farewells(out: seq<Line>, t: nat): nat {
    if out == [] then 0
    else Farewells(out[..|out| - 1], t) + (if out[|out| - 1] == Finished(t) then 1 else 0)
  }

  lemma FarewellsSnoc(out: seq<Line>, l: Line, t: nat)
    ensures Farewells(out + [l], t) == Farewells(out, t) + (if l == Finished(t) then 1 else 0)
  {
    assert (out + [l])[..|out|] == out;
  }

  predicate FarewellsOk(s: State)
    requires |s.g| == 3
  {
    forall t: nat :: t < 3 ==> Farewells(s.out, t) == if s.g[t].Done? then 1 else 0
  }

  lemma MoveKeepsFarewells(cfg: Config, s: State, u: nat)
    requires |s.g| == 3 && u < 3 && FarewellsOk(s) && Move(cfg, s, u).Some?
    ensures |Move(cfg, s, u).value.g| == 3 && FarewellsOk(Move(cfg, s, u).value)
  {
    var s' := Move(cfg, s, u).value;
    forall t: nat | t < 3
      ensures Farewells(s'.out, t) == if s'.g[t].Done? then 1 else 0
    {
      MoveCountsFarewell(cfg, s, u, s', t);
    }
  }

  lemma MoveCountsFarewell(cfg: Config, s: State, u: nat, s': State, t: nat)
    requires |s.g| == 3 && u < 3 && t < 3 && Move(cfg, s, u) == Some(s')
    ensures |s'.g| == 3
    ensures Farewells(s'.out, t) - Farewells(s.out, t)
            == (if s'.g[t].Done? then 1 else 0) - (if s.g[t].Done? then 1 else 0)
  {
    match s.g[u]
    case Print(a, i) =>
      if i < cfg.step {
        FarewellsSnoc(s.out, Num(u, a + i), t);
      }
    case Finishing => FarewellsSnoc(s.out, Finished(u), t);
    case _ =>
  }

  /** In every interleaving a goroutine says that it is finished once, and only when it goes. */
  lemma {:induction false} FarewellsExactly(cfg: Config, run: seq<State>)
    requires IsRun(cfg, run)
    ensures |run[|run| - 1].g| == 3 && FarewellsOk(run[|run| - 1])
    decreases |run|
  {
    if |run| > 1 {
      var before := run[..|run| - 1];
      forall i | 0 <= i < |before| - 1
        ensures Next(cfg, before[i], before[i + 1])
      {
        assert Next(cfg, run[i], run[i + 1]);
      }
      FarewellsExactly(cfg, before);
      var s := run[|run| - 2];
      assert Next(cfg, s, run[|run| - 2 + 1]);
      var u: nat :| u < 3 && Move(cfg, s, u) == Some(run[|run| - 1]);
      MoveKeepsFarewells(cfg, s, u);
    }
  }

  // ----- the number of blocks and the numbers printed

  lemma {:induction false} TokenIs(cfg: Config, n: nat)
    ensures Token(cfg, n) == 1 + n * cfg.step
  {
    if n > 0 {
      TokenIs(cfg, n - 1);
      assert n * cfg.step == (n - 1) * cfg.step + cfg.step;
    }
  }

  /** With a positive step there is exactly one number of blocks. */
  lemma BlocksUnique(cfg: Config, k: nat, k': nat)
    requires IsBlocks(cfg, k) && IsBlocks(cfg, k')
    ensures k == k'
  {
    if k < k' {
      TokenBelow(cfg, k', k);
    } else if k' < k {
      TokenBelow(cfg, k, k');
    }
  }

  lemma BlocksExist(cfg: Config) returns (k: nat)
    requires cfg.step >= 1
    ensures IsBlocks(cfg, k)
  {
    k := 0;
    while Token(cfg, k) < cfg.finish
      invariant k > 0 ==> Token(cfg, k - 1) < cfg.finish
      decreases cfg.finish - Token(cfg, k)
    {
      k := k + 1;
    }
  }

  /** With a positive step every ring has its number of blocks, and so every interleaving is finite and
      ends as `RingOutcome` says. */
  lemma RingEnds(cfg: Config, run: seq<State>) returns (k: nat)
    requires cfg.step >= 1 && IsRun(cfg, run)
    ensures 1 + k * cfg.step >= cfg.finish && (k > 0 ==> 1 + (k - 1) * cfg.step < cfg.finish)
    ensures |run[|run| - 1].g| == 3 && |run| <= Work(cfg, k, START, 0) + 1
    ensures Stuck(cfg, run[|run| - 1]) ==>
              && (AllDone(run[|run| - 1]) <==> k % 3 == 0)
              && (Blocked(run[|run| - 1], (k + 2) % 3) <==> k % 3 != 0)
  {
    k := BlocksExist(cfg);
    TokenIs(cfg, k);
    if k > 0 {
      TokenIs(cfg, k - 1);
    }
    RingOutcome(cfg, k, run);
  }

  function Values(lines: seq<Line>): seq<int> {
    if lines == [] then []
    else
      var last := lines[|lines| - 1];
      Values(lines[..|lines| - 1]) + (if last.Num? then [last.value] else [])
  }

  function UpTo(n: nat): seq<int> {
    seq(n, i requires 0 <= i < n => i + 1)
  }

  lemma {:induction false} BlockValues(cfg: Config, n: nat, front: seq<Line>, m: nat, i: nat)
    requires Values(front) == UpTo(m) && Token(cfg, n) == m + 1 && i <= cfg.step
    ensures Values(front + BlockLines(cfg, n)[..i]) == UpTo(m + i)
    decreases i
  {
    var b := BlockLines(cfg, n);
    if i == 0 {
      assert front + b[..0] == front;
    } else {
      BlockValues(cfg, n, front, m, i - 1);
      ValuesSnoc(front + b[..i - 1], b[i - 1], front + b[..i]);
      UpToNext(m + i - 1);
    }
  }

  lemma ValuesSnoc(lines: seq<Line>, l: Line, longer: seq<Line>)
    requires longer == lines + [l] && l.Num?
    ensures Values(longer) == Values(lines) + [l.value]
  {
    assert longer[..|longer| - 1] == lines;
  }

  lemma UpToNext(n: nat)
    ensures UpTo(n + 1) == UpTo(n) + [n + 1]
  {
  }

  /** The blocks print 1, 2, 3, ... each once and in order. */
  lemma {:induction false} PrintedValues(cfg: Config, n: nat)
    ensures Token(cfg, n) >= 1
    ensures Values(Printed(cfg, n)) == UpTo(Token(cfg, n) - 1)
  {
    if n > 0 {
      PrintedValues(cfg, n - 1);
      var b := BlockLines(cfg, n - 1);
      BlockValues(cfg, n - 1, Printed(cfg, n - 1), Token(cfg, n - 1) - 1, cfg.step);
      assert b[..cfg.step] == b;
    }
  }

  /** A finish that is reached exactly: with a step of at least 2 it takes finish / step blocks. */
  lemma ExactBlocks(cfg: Config, m: nat)
    requires cfg.step >= 2 && cfg.finish == m * cfg.step && m > 0
    ensures IsBlocks(cfg, m)
  {
    TokenIs(cfg, m);
    TokenIs(cfg, m - 1);
    assert (m - 1) * cfg.step == m * cfg.step - cfg.step;
  }

  /** A step of 1 stops one short of finish. */
  lemma StepOneBlocks(cfg: Config, k: nat)
    requires cfg.step == 1 && cfg.finish >= 1 && IsBlocks(cfg, k)
    ensures k == cfg.finish - 1
  {
    TokenIs(cfg, k);
    if k > 0 {
      TokenIs(cfg, k - 1);
    }
  }

  /** The blocks end exactly at finish if and only if it is a multiple of a step of at least 2. */
  lemma BlocksEndAtFinish(cfg: Config, k: nat)
    requires cfg.step >= 1 && cfg.finish >= 1 && IsBlocks(cfg, k)
    ensures k * cfg.step == cfg.finish <==> cfg.step >= 2 && cfg.finish % cfg.step == 0
  {
    if cfg.step == 1 {
      StepOneBlocks(cfg, k);
    } else if cfg.finish % cfg.step == 0 {
      var m := cfg.finish / cfg.step;
      ExactQuotient(cfg.finish, cfg.step);
      ExactBlocks(cfg, m);
      BlocksUnique(cfg, k, m);
    } else if k * cfg.step == cfg.finish {
      MultipleMod(k, cfg.step);
    }
  }

  /** The numbers 1 to finish are printed if and only if finish is a multiple of a step of at least 2. */
  lemma PrintsToFinish(cfg: Config, k: nat)
    requires cfg.step >= 1 && cfg.finish >= 1 && IsBlocks(cfg, k)
    ensures Values(Printed(cfg, k)) == UpTo(cfg.finish)
            <==> cfg.step >= 2 && cfg.finish % cfg.step == 0
  {
    PrintedValues(cfg, k);
    TokenIs(cfg, k);
    BlocksEndAtFinish(cfg, k);
    assert |UpTo(cfg.finish)| == cfg.finish && |UpTo(Token(cfg, k) - 1)| == Token(cfg, k) - 1;
  }

  /** When finish is a positive multiple of 3 * step and step is at least 2, every interleaving ends with
      all goroutines gone and the numbers 1 to finish printed in order. */
  lemma ThreeStepMultiple(cfg: Config, m: nat, k: nat, run: seq<State>)
    requires cfg.step >= 2 && m > 0 && cfg.finish == (3 * m) * cfg.step
    requires IsBlocks(cfg, k) && IsRun(cfg, run)
    ensures |run[|run| - 1].g| == 3
    ensures Stuck(cfg, run[|run| - 1]) ==>
              AllDone(run[|run| - 1]) && Values(Numbers(run[|run| - 1].out)) == UpTo(cfg.finish)
  {
    ExactBlocks(cfg, 3 * m);
    BlocksUnique(cfg, k, 3 * m);
    RingOutcome(cfg, k, run);
    PrintedValues(cfg, k);
    TokenIs(cfg, k);
  }

  /** With a step of 1 the same finish is never printed, and every interleaving that comes to its end
      is a deadlock. */
  lemma StepOneFallsShort(m: nat, k: nat, run: seq<State>)
    requires m > 0 && IsBlocks(Config(1, 3 * m), k) && IsRun(Config(1, 3 * m), run)
    ensures k == 3 * m - 1 && k % 3 == 2
    ensures |run[|run| - 1].g| == 3
    ensures Stuck(Config(1, 3 * m), run[|run| - 1]) ==>
              && Blocked(run[|run| - 1], 1) && !AllDone(run[|run| - 1])
              && Values(Numbers(run[|run| - 1].out)) == UpTo(3 * m - 1)
  {
    var cfg := Config(1, 3 * m);
    TokenIs(cfg, 3 * m - 1);
    TokenIs(cfg, 3 * m - 2);
    BlocksUnique(cfg, k, 3 * m - 1);
    PrintedValues(cfg, k);
    RingOutcome(cfg, k, run);
  }
}
