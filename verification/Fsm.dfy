/** The client and server protocol machines (C/FSM/src/cfio3_FSM.cpp:39-76, 117-167, 170-209, 275-309,
    352-355; C/FSM/src/cfio3_FSM.h:12-44). */
module Fsm {

  /** The messages, and any other number. */
  datatype Msg =
    | CreateFileBegin | CreateFileEnd | Data | DataGetEnd | DataWriteBegin | DataWriteEnd | Exit | Other(code: int)

  /** The states of both machines share one byte in the source. */
  datatype State =
    | CInit | CWork | CWait | CFinish | CError
    | SInit | SWait | SWork | SFinish | SError

  predicate IsBegin(m: Msg) {
    m == Data || m == CreateFileBegin || m == DataWriteBegin
  }

  predicate IsEnd(m: Msg) {
    m == CreateFileEnd || m == DataGetEnd || m == DataWriteEnd
  }

  function ClientNext(s: State, m: Msg): State {
    match s
    case CInit => if m == Exit then CFinish else CWait
    case CWait => if IsEnd(m) then CWork else CError
    case CWork => if IsBegin(m) then CWait else if m == Exit then CFinish else CError
    case _ => s
  }

  function ServerNext(s: State, m: Msg): State {
    match s
    case SInit => if m == Exit then SFinish else SWait
    case SWait => if m == Exit then SFinish else if IsBegin(m) then SWork else SError
    case SWork => if IsEnd(m) then SWait else SError
    case _ => s
  }

  // ----- the code

  /** `SM_VAR`; a negative rank makes the state unreadable and the inputs ineffective. */
  class Machine {
    const rank: int
    var state: State

    constructor (rank: int, state: State)
      ensures this.rank == rank && this.state == state
    {
      this.rank, this.state := rank, state;
    }

    /** The transition helpers: from the expected state to the next one, or into the error state. */
    method Transition(from: State, to: State, error: State)
      modifies this
      ensures state == if old(state) == from then to else error
    {
      if state == from {
        state := to;
      } else {
        state := error;
      }
    }

    /** `SM_C_input` */
    method ClientInput(m: Msg)
      modifies this
      ensures state == if rank >= 0 then ClientNext(old(state), m) else old(state)
    {
      if rank < 0 {
        return;
      }
      match state
      case CInit =>
        Transition(CInit, CWait, CError);
        if m == Exit {
          Transition(CWait, CWork, CError);
          Transition(CWork, CFinish, CError);
        }
      case CWait =>
        if m == CreateFileEnd || m == DataGetEnd || m == DataWriteEnd {
          Transition(CWait, CWork, CError);
        } else {
          state := CError;
        }
      case CWork =>
        if m == Data || m == CreateFileBegin || m == DataWriteBegin {
          Transition(CWork, CWait, CError);
        } else if m == Exit {
          Transition(CWork, CFinish, CError);
        } else {
          state := CError;
        }
      case _ =>
    }

    /** `SM_S_input` */
    method ServerInput(m: Msg)
      modifies this
      ensures state == if rank >= 0 then ServerNext(old(state), m) else old(state)
    {
      if rank < 0 {
        return;
      }
      match state
      case SInit =>
        Transition(SInit, SWait, SError);
        if m == Exit {
          Transition(SWait, SFinish, SError);
        }
      case SWait =>
        if m == Exit {
          Transition(SWait, SFinish, SError);
        } else if m == Data || m == CreateFileBegin || m == DataWriteBegin {
          Transition(SWait, SWork, SError);
        } else {
          state := SError;
        }
      case SWork =>
        if m == CreateFileEnd || m == DataGetEnd || m == DataWriteEnd {
          Transition(SWork, SWait, SError);
        } else {
          state := SError;
        }
      case _ =>
    }
  }

  // ----- streams

  function ClientRun(s: State, ms: seq<Msg>): State
    decreases |ms|
  {
    if ms == [] then s else ClientRun(ClientNext(s, ms[0]), ms[1..])
  }

  function ServerRun(s: State, ms: seq<Msg>): State
    decreases |ms|
  {
    if ms == [] then s else ServerRun(ServerNext(s, ms[0]), ms[1..])
  }

  /** One waits while the other works, and they finish and fail together. */
  predicate Dual(c: State, s: State) {
    (c == CWait && s == SWork) || (c == CWork && s == SWait) || (c == CFinish && s == SFinish)
    || (c == CError && s == SError)
  }

  lemma {:induction false} DualKept(c: State, s: State, ms: seq<Msg>)
    requires Dual(c, s)
    ensures Dual(ClientRun(c, ms), ServerRun(s, ms))
    decreases |ms|
  {
    if ms != [] {
      DualKept(ClientNext(c, ms[0]), ServerNext(s, ms[0]), ms[1..]);
    }
  }

  /** The machines read one stream; the server has first been given one message that is not exit. They are
      dual after every nonempty prefix if and only if the stream starts with a begin message or exit. */
  lemma DualExactly(first: Msg, ms: seq<Msg>)
    requires first != Exit && ms != []
    ensures (forall n :: 1 <= n <= |ms| ==>
               Dual(ClientRun(CInit, ms[..n]), ServerRun(SInit, [first] + ms[..n])))
            <==> ms[0] in BEGINS || ms[0] == Exit
  {
    AfterFirst(first, ms, 1);
    if IsBegin(ms[0]) || ms[0] == Exit {
      forall n | 1 <= n <= |ms|
        ensures Dual(ClientRun(CInit, ms[..n]), ServerRun(SInit, [first] + ms[..n]))
      {
        AfterFirst(first, ms, n);
        DualKept(ClientNext(CInit, ms[0]), ServerNext(SWait, ms[0]), ms[1..n]);
      }
    }
  }

  lemma AfterFirst(first: Msg, ms: seq<Msg>, n: nat)
    requires first != Exit && 1 <= n <= |ms|
    ensures ClientRun(CInit, ms[..n]) == ClientRun(ClientNext(CInit, ms[0]), ms[1..n])
    ensures ServerRun(SInit, [first] + ms[..n]) == ServerRun(ServerNext(SWait, ms[0]), ms[1..n])
  {
    var p := ms[..n];
    assert p[1..] == ms[1..n];
    assert ([first] + p)[1..] == p;
    assert ServerRun(SInit, [first] + p) == ServerRun(SWait, p);
  }

  // ----- which streams finish

  const BEGINS := {CreateFileBegin, Data, DataWriteBegin}
  const ENDS := {CreateFileEnd, DataGetEnd, DataWriteEnd}

  /** The stream begins with a complete session: pairs of a begin and an end message, then exit. */
  predicate Session(ms: seq<Msg>)
    decreases |ms|
  {
    ms != [] && (ms[0] == Exit || (|ms| >= 2 && ms[0] in BEGINS && ms[1] in ENDS && Session(ms[2..])))
  }

  /** The stream is a number of pairs of a begin and an end message. */
  predicate Pairs(ms: seq<Msg>)
    decreases |ms|
  {
    ms == [] || (|ms| >= 2 && ms[0] in BEGINS && ms[1] in ENDS && Pairs(ms[2..]))
  }

  /** The stream is a number of pairs and one more begin message. */
  predicate OpenPairs(ms: seq<Msg>)
    decreases |ms|
  {
    (|ms| == 1 && ms[0] in BEGINS) || (|ms| >= 2 && ms[0] in BEGINS && ms[1] in ENDS && OpenPairs(ms[2..]))
  }

  /** The first message takes the server out of its initial state: exit finishes it, whatever follows, and
      any other message only makes it wait. */
  lemma ServerFirst(m: Msg, ms: seq<Msg>)
    ensures ServerRun(SInit, [m] + ms) == if m == Exit then SFinish else ServerRun(SWait, ms)
  {
    assert ([m] + ms)[1..] == ms;
    if m == Exit {
      Stays(SFinish, ms);
    }
  }

  lemma {:induction false} Stays(s: State, ms: seq<Msg>)
    requires s == SFinish || s == SError
    ensures ServerRun(s, ms) == s
    decreases |ms|
  {
    if ms != [] {
      Stays(s, ms[1..]);
    }
  }

  /** Where a waiting server stands after a stream: finished on a session, waiting after pairs, working
      after pairs and a begin message, and in error after anything else. */
  lemma {:induction false} StandsExactly(ms: seq<Msg>)
    ensures ServerRun(SWait, ms)
            == if Session(ms) then SFinish else if Pairs(ms) then SWait else if OpenPairs(ms) then SWork else SError
    decreases |ms|
  {
    if ms != [] {
      var s1 := ServerNext(SWait, ms[0]);
      if s1 != SWork {
        Stays(s1, ms[1..]);
      } else if |ms| == 1 {
        assert ServerRun(s1, ms[1..]) == SWork;
      } else {
        var s2 := ServerNext(SWork, ms[1]);
        assert ms[1..][1..] == ms[2..];
        assert ServerRun(SWait, ms) == ServerRun(s2, ms[2..]);
        if s2 == SWait {
          StandsExactly(ms[2..]);
        } else {
          Stays(s2, ms[2..]);
        }
      }
    }
  }

  /** A waiting server finishes exactly on the streams that begin with a complete session. */
  lemma FinishesExactly(ms: seq<Msg>)
    ensures ServerRun(SWait, ms) == SFinish <==> Session(ms)
  {
    StandsExactly(ms);
  }

  /** The client finishes on the same streams, given that they start with a begin message or exit. */
  lemma ClientFinishesExactly(ms: seq<Msg>)
    requires ms != [] && (ms[0] in BEGINS || ms[0] == Exit)
    ensures ClientRun(CInit, ms) == CFinish <==> Session(ms)
  {
    FinishesExactly(ms);
    DualKept(ClientNext(CInit, ms[0]), ServerNext(SWait, ms[0]), ms[1..]);
  }
}
