/**
 Two channels at the ends of one line, and what their users have been told so far.
 */
module TwoEnds {
  import opened Signals
  import opened Protocol
  import opened RunInvariants

  /** The ends of the line, a being the one that calls when only one of them does. */
  datatype Pair = Pair(a: Chan, b: Chan)

  datatype Configs = Configs(a: Config, b: Config)

  /**
   What can happen at one end: it samples the bits or the tone the other end transmits now, one of its
   timers expires, or its user asks for something. Signals in between samples are missed, and a sample
   that shows nothing new may be repeated.
   */
  datatype Action =
    | Sample | Listen(reply: Reply) | Expire(id: int)
    | Drop(cause: Cause) | AcceptAs(mode: CallMode) | Pick

  datatype Move = Move(onA: bool, action: Action)

  function Act(cfg: Config, x: Chan, y: Chan, action: Action): Chan {
    match action
    case Sample => HandleCas(cfg, x, BitsOf(y.casTx))
    case Listen(reply) => HandleMedia(cfg, x, y.writeTone, reply)
    case Expire(id) => TimerFires(cfg, x, id)
    case Drop(cause) => DisconnectCall(cfg, x, cause)
    case AcceptAs(mode) => AcceptCall(cfg, x, mode)
    case Pick => AnswerCall(x, false)
  }

  function Next2(k: Configs, p: Pair, m: Move): Pair {
    if m.onA then p.(a := Act(k.a, p.a, p.b, m.action)) else p.(b := Act(k.b, p.b, p.a, m.action))
  }

  function Run2(k: Configs, p: Pair, moves: seq<Move>): Pair
    decreases |moves|
  {
    if moves == [] then p else Run2(k, Next2(k, p, moves[0]), moves[1..])
  }

  /** Every move of the sequence is admitted in the state in which it is made. */
  ghost predicate Admitted(k: Configs, p: Pair, moves: seq<Move>, ok: (Pair, Move) -> bool)
    decreases |moves|
  {
    moves != [] ==> ok(p, moves[0]) && Admitted(k, Next2(k, p, moves[0]), moves[1..], ok)
  }

  // ---------------------------------------------------------------------------------------
  // Counting what the users are told

  function CountEnds(h: History): nat {
    match h
    case Empty => 0
    case Snoc(prev, e) => CountEnds(prev) + if e.CallEnd? then 1 else 0
  }

  function CountFaults(h: History): nat {
    match h
    case Empty => 0
    case Snoc(prev, e) => CountFaults(prev) + if e.ProtocolFault? then 1 else 0
  }

  // ---------------------------------------------------------------------------------------
  // Calls and timers both ends have in common

  /** What the user of a channel asks for when it places a call. */
  datatype Call = Call(ani: Option<string>, dnis: string, category: Category, restricted: bool)

  function Dialled(cfg: Config, c: Chan, call: Call): Chan {
    MakeCall(cfg, c, call.ani, call.dnis, call.category, call.restricted)
  }

  /** The seize timer alone is running, under the id its field holds. */
  ghost predicate SeizeRunning(tt: TimerTable) {
    tt.lastId >= 1 && 1 <= IdOf(tt, Seize) <= tt.lastId && tt.live == map[IdOf(tt, Seize) := Seize]
  }

  lemma CallDownStarted(tt: TimerTable)
    requires CallDownArmed(tt) || !SlotsFull(tt)
    requires forall id :: id in tt.live ==> id <= tt.lastId
    ensures CallDownArmed(AddTimer(tt, SetCallDown))
  {
    var d := AddTimer(tt, SetCallDown);
    if SlotsFull(tt) {
      var id :| id in tt.live && tt.live[id] == SetCallDown;
      assert d.live[id] == SetCallDown;
    } else {
      assert d.live[tt.lastId + 1] == SetCallDown;
    }
  }

  // ---------------------------------------------------------------------------------------
  // Runs put together

  lemma {:induction false} Run2Concat(k: Configs, p: Pair, first: seq<Move>, rest: seq<Move>)
    ensures Run2(k, p, first + rest) == Run2(k, Run2(k, p, first), rest)
    decreases |first|
  {
    if first == [] {
      assert first + rest == rest;
    } else {
      Run2Concat(k, Next2(k, p, first[0]), first[1..], rest);
      assert (first + rest)[1..] == first[1..] + rest;
    }
  }

  lemma OneMove(k: Configs, p: Pair, m: Move, rest: seq<Move>)
    ensures Run2(k, p, [m] + rest) == Run2(k, Next2(k, p, m), rest)
  {
    assert ([m] + rest)[1..] == rest;
  }

  lemma TwoMoves(k: Configs, p: Pair, m1: Move, m2: Move)
    ensures Run2(k, p, [m1, m2]) == Next2(k, Next2(k, p, m1), m2)
  {
    assert [m1, m2] == [m1] + ([m2] + []);
    OneMove(k, p, m1, [m2] + []);
    OneMove(k, Next2(k, p, m1), m2, []);
  }

  lemma ThreeMoves(k: Configs, p: Pair, m1: Move, m2: Move, m3: Move)
    ensures Run2(k, p, [m1, m2, m3]) == Next2(k, Next2(k, Next2(k, p, m1), m2), m3)
  {
    assert [m1, m2, m3] == [m1] + [m2, m3];
    OneMove(k, p, m1, [m2, m3]);
    TwoMoves(k, Next2(k, p, m1), m2, m3);
  }
}
