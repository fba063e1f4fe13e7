/** The three goroutines that pass a token around a ring of one buffered and two unbuffered channels
    (go_test/channel/channel.go:8-48). Goroutines are numbered 0, 1, 2 here. Goroutine 0 reads the
    buffered channel, on which goroutine 2 sends. */
module Ring {
  import opened Options

  datatype Config = Config(step: nat, finish: int)

  /** Where a goroutine is: waiting for the token, printing the i-th number of a block, sending (its last
      time or not), about to print that it is finished, or gone. */
  datatype Pc = Recv | Print(a: int, i: nat) | Send(token: int, last: bool) | Finishing | Done

  datatype Line = Num(thread: nat, value: int) | Finished(thread: nat)

  datatype State = State(g: seq<Pc>, buffer: Option<int>, out: seq<Line>)

  const START := State([Recv, Recv, Recv], Some(1), [])

  function Received(cfg: Config, a: int): Pc {
    if a >= cfg.finish then Send(a, true) else Print(a, 0)
  }

  function Sent(last: bool): Pc {
    if last then Finishing else Recv
  }

  /** The step that goroutine `t` can take, if any. A send on an unbuffered channel is one step with the
      peer that receives it. */
  function Move(cfg: Config, s: State, t: nat): Option<State>
    requires |s.g| == 3 && t < 3
  {
    match s.g[t]
    case Recv =>
      if t == 0 && s.buffer.Some? then
        Some(s.(g := s.g[0 := Received(cfg, s.buffer.value)], buffer := None))
      else None
    case Print(a, i) =>
      if i < cfg.step then Some(s.(g := s.g[t := Print(a, i + 1)], out := s.out + [Num(t, a + i)]))
      else Some(s.(g := s.g[t := Send(a + cfg.step, false)]))
    case Send(a, last) =>
      if t == 2 then
        if s.buffer.None? then Some(s.(g := s.g[2 := Sent(last)], buffer := Some(a))) else None
      else if s.g[t + 1] == Recv then
        Some(s.(g := s.g[t := Sent(last)][t + 1 := Received(cfg, a)]))
      else None
    case Finishing => Some(s.(g := s.g[t := Done], out := s.out + [Finished(t)]))
    case Done => None
  }

  /** One step of some goroutine: every interleaving is a sequence of these. */
  ghost predicate Next(cfg: Config, s: State, s': State) {
    |s.g| == 3 && exists t: nat :: t < 3 && Move(cfg, s, t) == Some(s')
  }

  ghost predicate IsRun(cfg: Config, run: seq<State>) {
    && run != [] && run[0] == START
    && forall i :: 0 <= i < |run| - 1 ==> Next(cfg, run[i], run[i + 1])
  }

  ghost predicate Stuck(cfg: Config, s: State)
    requires |s.g| == 3
  {
    forall t: nat :: t < 3 ==> Move(cfg, s, t).None?
  }

  // ----- the token

  /** The token after `n` blocks. */
  function Token(cfg: Config, n: nat): int {
    if n == 0 then 1 else Token(cfg, n - 1) + cfg.step
  }

  /** `k` is the number of blocks: the first token that is not below `finish` is the k-th. */
  ghost predicate IsBlocks(cfg: Config, k: nat) {
    Token(cfg, k) >= cfg.finish && (k > 0 ==> Token(cfg, k - 1) < cfg.finish)
  }

  lemma {:induction false} TokenBelow(cfg: Config, k: nat, n: nat)
    requires IsBlocks(cfg, k) && n < k
    ensures Token(cfg, n) < cfg.finish
    decreases k - n
  {
    if n < k - 1 {
      TokenBelow(cfg, k, n + 1);
    }
  }

  // ----- what is printed

  function BlockLines(cfg: Config, n: nat): (r: seq<Line>)
    ensures |r| == cfg.step
  {
    seq(cfg.step, i requires 0 <= i < cfg.step => Num(n % 3, Token(cfg, n) + i))
  }

  /** The number lines of the first `n` blocks. */
  function Printed(cfg: Config, n: nat): seq<Line> {
    if n == 0 then [] else Printed(cfg, n - 1) + BlockLines(cfg, n - 1)
  }

  /** The lines without the farewells. */
  function Numbers(out: seq<Line>): seq<Line> {
    if out == [] then []
    else
      var last := out[|out| - 1];
      var rest := Numbers(out[..|out| - 1]);
      if last.Num? then rest + [last] else rest
  }

  lemma NumbersSnoc(out: seq<Line>, l: Line)
    ensures Numbers(out + [l]) == if l.Num? then Numbers(out) + [l] else Numbers(out)
  {
    assert (out + [l])[..|out|] == out;
  }

  // ----- the shape of every reachable state

  function Min(a: nat, b: nat): nat {
    if a < b then a else b
  }

  /** With `h` hand-overs of the token done, goroutine `t` has made its last one. */
  predicate Retired(k: nat, h: nat, t: nat) {
    || (h > k && t == k % 3)
    || (h > k + 1 && t == (k + 1) % 3)
    || (h > k + 2 && t == (k + 2) % 3)
  }

  predicate OthersOk(k: nat, h: nat, g: seq<Pc>, holder: int)
    requires |g| == 3
  {
    forall t: nat :: t < 3 && t != holder ==>
      if Retired(k, h, t) then g[t] == Finishing || g[t] == Done else g[t] == Recv
  }

  /** The token is in the buffer after `c` receives. */
  ghost predicate InBuffer(cfg: Config, k: nat, s: State, c: nat) {
    && |s.g| == 3 && c <= k + 3 && c % 3 == 0
    && s.buffer == Some(Token(cfg, Min(c, k)))
    && OthersOk(k, c, s.g, -1)
    && Numbers(s.out) == Printed(cfg, Min(c, k))
  }

  /** The c-th receiver has the token. */
  ghost predicate Held(cfg: Config, k: nat, s: State, c: nat) {
    && |s.g| == 3 && 1 <= c <= k + 3
    && s.buffer.None?
    && OthersOk(k, c - 1, s.g, (c - 1) % 3)
    && var pc := s.g[(c - 1) % 3];
       if c <= k then
         || (pc == Send(Token(cfg, c), false) && Numbers(s.out) == Printed(cfg, c))
         || (pc.Print? && pc.a == Token(cfg, c - 1) && pc.i <= cfg.step
             && Numbers(s.out) == Printed(cfg, c - 1) + BlockLines(cfg, c - 1)[..pc.i])
       else
         pc == Send(Token(cfg, k), true) && Numbers(s.out) == Printed(cfg, k)
  }

  ghost predicate Shape(cfg: Config, k: nat, s: State, c: nat) {
    InBuffer(cfg, k, s, c) || Held(cfg, k, s, c)
  }

  lemma StartShape(cfg: Config, k: nat)
    requires IsBlocks(cfg, k)
    ensures InBuffer(cfg, k, START, 0)
  {
  }

  /** A farewell changes neither the token nor the numbers. */
  lemma FinishKeepsShape(cfg: Config, k: nat, s: State, c: nat, t: nat)
    requires Shape(cfg, k, s, c) && t < 3 && s.g[t] == Finishing
    ensures Shape(cfg, k, Move(cfg, s, t).value, c)
  {
    NumbersSnoc(s.out, Finished(t));
  }

  lemma PrintNumber(cfg: Config, k: nat, s: State, c: nat, t: nat)
    requires Held(cfg, k, s, c) && t == (c - 1) % 3 && s.g[t].Print? && s.g[t].i < cfg.step
    ensures Move(cfg, s, t).Some? && Held(cfg, k, Move(cfg, s, t).value, c)
  {
    var i := s.g[t].i;
    var lines := BlockLines(cfg, c - 1);
    NumbersSnoc(s.out, Num(t, s.g[t].a + i));
    assert lines[..i + 1] == lines[..i] + [lines[i]];
  }

  lemma PrintEnds(cfg: Config, k: nat, s: State, c: nat, t: nat)
    requires Held(cfg, k, s, c) && t == (c - 1) % 3 && s.g[t].Print? && s.g[t].i >= cfg.step
    ensures Move(cfg, s, t).Some? && Held(cfg, k, Move(cfg, s, t).value, c)
  {
    var lines := BlockLines(cfg, c - 1);
    assert lines[..s.g[t].i] == lines;
  }

  lemma PrintKeepsShape(cfg: Config, k: nat, s: State, c: nat)
    requires Held(cfg, k, s, c) && s.g[(c - 1) % 3].Print?
    ensures Move(cfg, s, (c - 1) % 3).Some? && Held(cfg, k, Move(cfg, s, (c - 1) % 3).value, c)
  {
    var t := (c - 1) % 3;
    if s.g[t].i < cfg.step {
      PrintNumber(cfg, k, s, c, t);
    } else {
      PrintEnds(cfg, k, s, c, t);
    }
  }

  lemma BufferSendKeepsShape(cfg: Config, k: nat, s: State, c: nat)
    requires Held(cfg, k, s, c) && s.g[(c - 1) % 3].Send? && (c - 1) % 3 == 2
    ensures Move(cfg, s, 2).Some? && InBuffer(cfg, k, Move(cfg, s, 2).value, c)
  {
  }

  lemma BufferRecvKeepsShape(cfg: Config, k: nat, s: State, c: nat)
    requires IsBlocks(cfg, k) && InBuffer(cfg, k, s, c) && s.g[0] == Recv
    ensures Move(cfg, s, 0).Some? && Held(cfg, k, Move(cfg, s, 0).value, c + 1)
  {
    if c < k {
      TokenBelow(cfg, k, c);
      assert BlockLines(cfg, c)[..0] == [];
    }
  }

  lemma HandOverKeepsShape(cfg: Config, k: nat, s: State, c: nat)
    requires IsBlocks(cfg, k) && Held(cfg, k, s, c) && s.g[(c - 1) % 3].Send? && (c - 1) % 3 != 2
    requires s.g[c % 3] == Recv
    ensures Move(cfg, s, (c - 1) % 3).Some? && Held(cfg, k, Move(cfg, s, (c - 1) % 3).value, c + 1)
  {
    if c < k {
      TokenBelow(cfg, k, c);
      assert BlockLines(cfg, c)[..0] == [];
    }
  }
}
