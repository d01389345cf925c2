/**
 Glare outside the timing of the recommendation: an end that clears before the other has sampled its seize.
 */
module LateGlare {
  import opened Signals
  import opened Protocol
  import opened RunInvariants
  import opened TwoEnds
  import opened Glare

  // ---------------------------------------------------------------------------------------
  // An end that clears too soon

  /** The end that cleared too soon: its line shows the bits of an idle line for good. */
  ghost predicate Gone(a: Chan, tx: CasSignal, ends: nat, faults: nat) {
    && Side(a, tx, ends, faults)
    && (a.r2State == Idle || (a.r2State == ClearFwdTxd && a.casRead == BITS_SEIZE))
    && (forall id :: id in a.timers.live ==> a.timers.live[id] != Seize)
  }

  /** Only the seize timer and call-down timers run. */
  ghost predicate Insisting(tt: TimerTable) {
    && (forall id :: id in tt.live ==> id <= tt.lastId)
    && (forall id :: id in tt.live ==> tt.live[id] == Seize || tt.live[id] == SetCallDown)
    && CallDownArmed(tt)
  }

  /** The end that has seen nothing; closed counts the calls its user has been told the end of, by end or by fault. */
  ghost predicate Unaware(b: Chan, closed: nat) {
    && !b.inAlarm && b.mfState == MfOff && b.casRead == BITS_IDLE
    && (b.r2State == Idle <==> b.callState == CallIdle)
    && (b.r2State == Idle || (b.direction == Forward && (b.callState == Dialing || b.callState == Disconnected)))
    && CountEnds(b.log) + CountFaults(b.log) == closed + (if b.r2State == Idle then 1 else 0)
    && match b.r2State
       case SeizeTxd => b.casTx == CasSeize && SeizeRunning(b.timers)
       case SeizeTxdClearFwdPending => b.casTx == CasSeize && SeizeRunning(b.timers)
       case ClearFwdTxd => b.casTx == CasClearForward && Insisting(b.timers)
       case Idle => b.casTx == CasIdle && b.timers.live == map[]
       case _ => false
  }

  ghost predicate Late(p: Pair, ea: nat, fa: nat, closed: nat) {
    Gone(p.a, p.b.casTx, ea, fa) && Unaware(p.b, closed)
  }

  lemma GoneStays(cfg: Config, a: Chan, b: Chan, action: Action, ea: nat, fa: nat, closed: nat)
    requires Gone(a, b.casTx, ea, fa) && Unaware(b, closed)
    ensures Gone(Act(cfg, a, b, action), b.casTx, ea, fa)
  {
    match action {
      case Sample => GoneSamples(cfg, a, b, ea, fa, closed);
      case Expire(id) => GoneExpires(cfg, a, b, id, ea, fa, closed);
      case Drop(cause) => GoneDrops(cfg, a, b, cause, ea, fa, closed);
      case _ =>
    }
  }

  lemma GoneSamples(cfg: Config, a: Chan, b: Chan, ea: nat, fa: nat, closed: nat)
    requires Gone(a, b.casTx, ea, fa) && Unaware(b, closed)
    ensures Gone(HandleCas(cfg, a, BitsOf(b.casTx)), b.casTx, ea, fa)
  {
    SampleKeeps(cfg, a, b.casTx, ea, fa);
  }

  lemma GoneExpires(cfg: Config, a: Chan, b: Chan, id: int, ea: nat, fa: nat, closed: nat)
    requires Gone(a, b.casTx, ea, fa) && Unaware(b, closed)
    ensures Gone(TimerFires(cfg, a, id), b.casTx, ea, fa)
  {
    ExpireKeeps(cfg, a, b.casTx, ea, fa, id);
  }

  lemma GoneDrops(cfg: Config, a: Chan, b: Chan, cause: Cause, ea: nat, fa: nat, closed: nat)
    requires Gone(a, b.casTx, ea, fa) && Unaware(b, closed)
    ensures Gone(DisconnectCall(cfg, a, cause), b.casTx, ea, fa)
  {
    DropKeeps(cfg, a, b.casTx, ea, fa, cause);
  }

  lemma UnawareActs(cfg: Config, a: Chan, b: Chan, action: Action, ea: nat, fa: nat, closed: nat)
    requires Gone(a, b.casTx, ea, fa) && Unaware(b, closed)
    ensures var d := Act(cfg, b, a, action); Unaware(d, closed) && Progress(b, d)
  {
    match action {
      case Sample => assert HandleCas(cfg, b, BitsOf(a.casTx)) == b;
      case Expire(id) => UnawareExpires(cfg, b, id, closed);
      case Drop(cause) => UnawareDrops(cfg, b, cause, closed);
      case _ =>
    }
  }

  lemma UnawareExpires(cfg: Config, b: Chan, id: int, closed: nat)
    requires Unaware(b, closed)
    ensures var d := TimerFires(cfg, b, id); Unaware(d, closed) && Progress(b, d)
    ensures var d := TimerFires(cfg, b, id);
            CountFaults(d.log) ==
            CountFaults(b.log) + if id in b.timers.live && b.timers.live[id] == Seize then 1 else 0
  {
  }

  lemma UnawareDrops(cfg: Config, b: Chan, cause: Cause, closed: nat)
    requires Unaware(b, closed)
    ensures var d := DisconnectCall(cfg, b, cause); Unaware(d, closed) && Progress(b, d)
    ensures CountFaults(DisconnectCall(cfg, b, cause).log) == CountFaults(b.log)
  {
    if b.r2State == SeizeTxdClearFwdPending || b.r2State == ClearFwdTxd {
      ClearsForward(Emit(b, UserHangup));
      assert DisconnectCall(cfg, b, cause) == SendClearForward(Emit(b, UserHangup));
      ClearsUnaware(b, Schedule(Emit(b, UserHangup), SetCallDown), closed);
    }
  }

  lemma ClearsUnaware(b: Chan, d: Chan, closed: nat)
    requires Unaware(b, closed) && (b.r2State == SeizeTxdClearFwdPending || b.r2State == ClearFwdTxd)
    requires d == Schedule(Emit(b, UserHangup), SetCallDown)
    ensures var e := d.(r2State := ClearFwdTxd, casTx := CasClearForward);
            Unaware(e, closed) && CountFaults(e.log) == CountFaults(b.log)
  {
    CallDownStarted(b.timers);
  }

  /**
   Whatever either end does from here on, the end that cleared meets no fault, and the other one does exactly when
   its seize timer expires: also after its user has insisted on clearing, since that does not stop the timer.
   */
  lemma LateFaultsExactly(k: Configs, p: Pair, m: Move, ea: nat, fa: nat, closed: nat)
    requires Late(p, ea, fa, closed)
    ensures var q := Next2(k, p, m);
            && Late(q, ea, fa, closed)
            && CountFaults(q.b.log) == CountFaults(p.b.log) + (if !m.onA && SeizeExpires(p, m) then 1 else 0)
  {
    if m.onA {
      GoneStays(k.a, p.a, p.b, m.action, ea, fa, closed);
    } else {
      UnawareActs(k.b, p.a, p.b, m.action, ea, fa, closed);
      FarSideKept(p.b, Next2(k, p, m).b, p.a, ea, fa);
      LateFaultsOfAction(k.b, p.a, p.b, m.action, ea, fa, closed);
    }
  }

  lemma LateFaultsOfAction(cfg: Config, a: Chan, b: Chan, action: Action, ea: nat, fa: nat, closed: nat)
    requires Gone(a, b.casTx, ea, fa) && Unaware(b, closed)
    ensures CountFaults(Act(cfg, b, a, action).log) ==
            CountFaults(b.log) + if SeizeExpires(Pair(a, b), Move(false, action)) then 1 else 0
  {
    match action {
      case Sample => assert HandleCas(cfg, b, BitsOf(a.casTx)) == b;
      case Expire(id) => UnawareExpires(cfg, b, id, closed);
      case Drop(cause) => UnawareDrops(cfg, b, cause, closed);
      case _ =>
    }
  }

  /** The unaware end goes on waiting exactly until its seize timer expires or its user insists. */
  lemma LateIsStuck(k: Configs, p: Pair, m: Move, ea: nat, fa: nat, closed: nat)
    requires Late(p, ea, fa, closed) && AwaitsAck(p.b)
    ensures AwaitsAck(Next2(k, p, m).b) <==>
              m.onA || (!SeizeExpires(p, m) && !(m.action.Drop? && p.b.r2State == SeizeTxdClearFwdPending))
  {
    if !m.onA && m.action.Sample? { assert HandleCas(k.b, p.b, BitsOf(p.a.casTx)) == p.b; }
    if !m.onA && m.action.Drop? && p.b.r2State == SeizeTxdClearFwdPending { ClearsForward(Emit(p.b, UserHangup)); }
  }

  predicate SeizeExpiresIn(k: Configs, p: Pair, moves: seq<Move>)
    decreases |moves|
  {
    moves != [] && ((!moves[0].onA && SeizeExpires(p, moves[0])) ||
        SeizeExpiresIn(k, Next2(k, p, moves[0]), moves[1..]))
  }

  lemma {:induction false} NoSeizeWhenIdle(k: Configs, p: Pair, moves: seq<Move>, ea: nat, fa: nat, closed: nat)
    requires Late(p, ea, fa, closed) && p.b.r2State == Idle
    ensures !SeizeExpiresIn(k, p, moves)
    decreases |moves|
  {
    if moves != [] {
      LateFaultsExactly(k, p, moves[0], ea, fa, closed);
      IdleStays(k, p, moves[0], ea, fa, closed);
      NoSeizeWhenIdle(k, Next2(k, p, moves[0]), moves[1..], ea, fa, closed);
    }
  }

  lemma IdleStays(k: Configs, p: Pair, m: Move, ea: nat, fa: nat, closed: nat)
    requires Late(p, ea, fa, closed) && p.b.r2State == Idle
    ensures Next2(k, p, m).b.r2State == Idle
  {
    if !m.onA && m.action.Sample? { assert HandleCas(k.b, p.b, BitsOf(p.a.casTx)) == p.b; }
  }

  /**
   Over any run at all: the only fault is the seize timeout of the unaware end, once, if its timer expires; and
   each end is closed exactly once, when it is idle.
   */
  lemma {:induction false} LateRun(k: Configs, p: Pair, moves: seq<Move>, ea: nat, fa: nat, closed: nat)
    requires Late(p, ea, fa, closed)
    ensures var q := Run2(k, p, moves);
            && Late(q, ea, fa, closed)
            && CountFaults(q.b.log) == CountFaults(p.b.log) + (if SeizeExpiresIn(k, p, moves) then 1 else 0)
    decreases |moves|
  {
    if moves != [] {
      var q := Next2(k, p, moves[0]);
      LateFaultsExactly(k, p, moves[0], ea, fa, closed);
      if !moves[0].onA && SeizeExpires(p, moves[0]) {
        ExpiryIdles(k, p, moves[0], ea, fa, closed);
        NoSeizeWhenIdle(k, q, moves[1..], ea, fa, closed);
      }
      LateRun(k, q, moves[1..], ea, fa, closed);
    }
  }

  lemma ExpiryIdles(k: Configs, p: Pair, m: Move, ea: nat, fa: nat, closed: nat)
    requires Late(p, ea, fa, closed) && !m.onA && SeizeExpires(p, m)
    ensures Next2(k, p, m).b.r2State == Idle
  {
  }

  /** Such a pair is reached from a collision when one end sees it, hangs up, and its persist timer expires at once. */
  lemma LateIsReached(k: Configs, p: Pair, callA: Call, callB: Call, cause: Cause) returns (moves: seq<Move>)
    requires ReadyToDial(p.a) && ReadyToDial(p.b)
    ensures var q := Run2(k, Collide(k, p, callA, callB), moves);
            && Late(q, CountEnds(p.a.log), CountFaults(p.a.log), CountEnds(p.b.log) + CountFaults(p.b.log))
            && q.b == Collide(k, p, callA, callB).b && AwaitsAck(q.b)
  {
    var p0 := Collide(k, p, callA, callB);
    var ea, fa, eb, fb := CountEnds(p.a.log), CountFaults(p.a.log), CountEnds(p.b.log), CountFaults(p.b.log);
    CollisionStarts(k, p, callA, callB);
    SeizedSide(k.a, p.a, callA);
    SeizedSide(k.b, p.b, callB);
    var p2 := Next2(k, Next2(k, p0, Move(true, Sample)), Move(true, Drop(cause)));
    SeesAndDrops(k, p0, cause, ea, fa, eb, fb);
    var last := Move(true, Expire(IdOf(p2.a.timers, SeizePersist)));
    PersistExpiresEarly(k, p2, ea, fa, eb, fb);
    ThreeMoves(k, p0, Move(true, Sample), Move(true, Drop(cause)), last);
    moves := [Move(true, Sample), Move(true, Drop(cause)), last];
  }

  lemma SeesAndDrops(k: Configs, p: Pair, cause: Cause, ea: nat, fa: nat, eb: nat, fb: nat)
    requires GlareInv(p, ea, fa, eb, fb) && AwaitsAck(p.a) && p.b.casTx == CasSeize
    ensures var q := Next2(k, Next2(k, p, Move(true, Sample)), Move(true, Drop(cause)));
            GlareInv(q, ea, fa, eb, fb) && q.a.r2State == DoubleSeizureClearFwdPending && q.b == p.b
  {
    var p1 := Next2(k, p, Move(true, Sample));
    MoveKeeps(k, p, Move(true, Sample), ea, fa, eb, fb);
    assert p1.a.r2State == DoubleSeizure by { SampleDescends(k.a, p.a, p.b.casTx, ea, fa); }
    MoveKeeps(k, p1, Move(true, Drop(cause)), ea, fa, eb, fb);
    DropsIntoPersist(k.a, p1.a, p1.b.casTx, ea, fa, cause);
  }

  lemma PersistExpiresEarly(k: Configs, p: Pair, ea: nat, fa: nat, eb: nat, fb: nat)
    requires GlareInv(p, ea, fa, eb, fb) && p.a.r2State == DoubleSeizureClearFwdPending && AwaitsAck(p.b)
    ensures var q := Next2(k, p, Move(true, Expire(IdOf(p.a.timers, SeizePersist))));
            Late(q, ea, fa, eb + fb) && q.b == p.b
  {
    var m := Move(true, Expire(IdOf(p.a.timers, SeizePersist)));
    assert Side(Next2(k, p, m).a, p.b.casTx, ea, fa) by { MoveKeeps(k, p, m, ea, fa, eb, fb); }
    PersistEnds(k.a, p.a, p.b.casTx, ea, fa);
    assert Unaware(p.b, eb + fb) by { WaitingIsUnaware(p.b, p.a.casTx, eb, fb); }
  }

  lemma DropsIntoPersist(cfg: Config, x: Chan, tx: CasSignal, ends: nat, faults: nat, cause: Cause)
    requires Side(x, tx, ends, faults) && x.r2State == DoubleSeizure
    ensures DisconnectCall(cfg, x, cause).r2State == DoubleSeizureClearFwdPending
  {
  }

  lemma PersistEnds(cfg: Config, x: Chan, tx: CasSignal, ends: nat, faults: nat)
    requires Side(x, tx, ends, faults) && x.r2State == DoubleSeizureClearFwdPending
    ensures var d := TimerFires(cfg, x, IdOf(x.timers, SeizePersist));
            && d.r2State == ClearFwdTxd && d.casRead == BITS_SEIZE
            && forall id :: id in d.timers.live ==> d.timers.live[id] != Seize
  {
  }

  lemma WaitingIsUnaware(b: Chan, tx: CasSignal, ends: nat, faults: nat)
    requires Side(b, tx, ends, faults) && AwaitsAck(b)
    ensures Unaware(b, ends + faults)
  {
  }
}
