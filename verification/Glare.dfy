/**
 Two ends of one line seize it at once (section 3.2.7.1 of ITU-T Q.400 to Q.490). Each end samples the
 bits the other transmits now, in any interleaving and with any number of samples skipped or repeated.
 */
module Glare {
  import opened Signals
  import opened Protocol
  import opened RunInvariants
  import opened TwoEnds

  /**
   What an end has to keep to while the far end transmits tx: its seize timer does not expire, and its call-down timer
   does not give the channel back while the seize of the far end is on the line unread.
   */
  predicate Heeds(x: Chan, tx: CasSignal, action: Action) {
    action.Expire? && action.id in x.timers.live ==>
      x.timers.live[action.id] != Seize &&
      !(x.timers.live[action.id] == SetCallDown && x.casRead == BITS_IDLE && tx == CasSeize)
  }

  /**
   The timing the recommendation relies on besides: an end holds its seize, neither letting its persist timer
   expire nor insisting on clearing, until the far end has seen it.
   */
  predicate InTime(x: Chan, y: Chan, action: Action) {
    && Heeds(x, y.casTx, action)
    && match action
       case Expire(id) => AwaitsAck(y) ==> !(id in x.timers.live && x.timers.live[id] == SeizePersist)
       case Drop(_) =>
         AwaitsAck(y) ==> x.r2State != DoubleSeizureClearFwdPending && x.r2State != SeizeTxdClearFwdPending
       case _ => true
  }

  predicate Heeding(p: Pair, m: Move) {
    if m.onA then Heeds(p.a, p.b.casTx, m.action) else Heeds(p.b, p.a.casTx, m.action)
  }

  predicate Allowed(p: Pair, m: Move) {
    if m.onA then InTime(p.a, p.b, m.action) else InTime(p.b, p.a, m.action)
  }

  // ---------------------------------------------------------------------------------------
  // The invariant, one side at a time

  /**
   Only clearing timers run, or the seize timer of an end that cleared unanswered; ids are not ahead of the counter.
   */
  ghost predicate Clearing(tt: TimerTable) {
    && tt.lastId >= 1
    && |tt.live| <= MAX_SCHED_TIMERS
    && (forall id :: id in tt.live ==> id <= tt.lastId)
    && (forall id :: id in tt.live ==>
                       tt.live[id] == SetCallDown || tt.live[id] == SeizePersist || tt.live[id] == Seize)
  }

  /**
   x seized an idle line whose far end now transmits tx; ends and faults are the counts in its log then.
   Whoever has seen the far end clear knows that it stays cleared.
   */
  ghost predicate Side(x: Chan, tx: CasSignal, ends: nat, faults: nat) {
    && !x.inAlarm && x.mfState == MfOff
    && (x.r2State == Idle <==> x.callState == CallIdle)
    && (x.r2State == Idle || (x.direction == Forward && (x.callState == Dialing || x.callState == Disconnected)))
    && CountFaults(x.log) == faults
    && CountEnds(x.log) == ends + (if x.r2State == Idle then 1 else 0)
    && SeenBySide(x, tx)
    && match x.r2State
       case SeizeTxd => x.casRead == BITS_IDLE && x.casTx == CasSeize && SeizeRunning(x.timers)
       case SeizeTxdClearFwdPending => x.casRead == BITS_IDLE && x.casTx == CasSeize && SeizeRunning(x.timers)
       case DoubleSeizure =>
         x.casRead == BITS_SEIZE && x.casTx == CasSeize && x.timers.live == map[] && x.timers.lastId >= 1
       case DoubleSeizureClearFwdPending =>
         x.casRead == BITS_SEIZE && x.casTx == CasSeize && Clearing(x.timers) && !SlotsFull(x.timers) &&
         IdOf(x.timers, SeizePersist) in x.timers.live &&
         (forall id :: id in x.timers.live ==> x.timers.live[id] == SeizePersist)
       case ClearFwdTxd =>
         && (x.casRead == BITS_SEIZE || x.casRead == BITS_IDLE)
         && x.casTx == CasClearForward && Clearing(x.timers) && CallDownArmed(x.timers)
       case ClearBackAfterClearFwdRxd =>
         x.casRead == BITS_SEIZE && x.casTx == CasClearForward && Clearing(x.timers) && CallDownArmed(x.timers)
       case ClearFwdRxd => x.casRead == BITS_IDLE && x.casTx == CasSeize && x.timers.live == map[]
       case Idle =>
         (x.casRead == BITS_IDLE || x.casRead == BITS_SEIZE) && x.casTx == CasIdle && x.timers.live == map[]
       case _ => false
  }

  /** The part of a side that depends on what the far end transmits. */
  predicate SeenBySide(x: Chan, tx: CasSignal) {
    && (tx == CasSeize || tx == CasClearForward || tx == CasIdle)
    && (x.casRead == BITS_IDLE && !AwaitsAck(x) && x.r2State != ClearFwdTxd ==> tx != CasSeize)
  }

  /** The far end still shows the seize an end has not seen. */
  predicate CanNotice(x: Chan, tx: CasSignal) { AwaitsAck(x) ==> tx == CasSeize }

  /** What one action of x may do to the signal the far end sees. */
  predicate Progress(x: Chan, d: Chan) { d.casTx == x.casTx || d.casTx == CasClearForward || d.casTx == CasIdle }

  lemma CallDownAdded(tt: TimerTable)
    requires Clearing(tt) && (CallDownArmed(tt) || !SlotsFull(tt))
    ensures Clearing(AddTimer(tt, SetCallDown)) && CallDownArmed(AddTimer(tt, SetCallDown))
  {
    CallDownStarted(tt);
  }

  lemma ClearsForward(x: Chan)
    requires x.mfState == MfOff
    ensures SendClearForward(x) == Schedule(x, SetCallDown).(r2State := ClearFwdTxd, casTx := CasClearForward)
  {
  }

  /** A call in progress, whatever its state and timers. */
  ghost predicate Collided(x: Chan, tx: CasSignal, ends: nat, faults: nat) {
    && !x.inAlarm && x.mfState == MfOff && x.direction == Forward &&
        (x.callState == Dialing || x.callState == Disconnected)
    && (x.casRead == BITS_SEIZE || x.casRead == BITS_IDLE)
    && (tx == CasSeize || tx == CasClearForward || tx == CasIdle)
    && CountEnds(x.log) == ends && CountFaults(x.log) == faults
  }

  lemma ClearingSide(x: Chan, tx: CasSignal, ends: nat, faults: nat)
    requires Collided(x, tx, ends, faults)
    requires Clearing(x.timers) && (CallDownArmed(x.timers) || !SlotsFull(x.timers))
    ensures Side(SendClearForward(x), tx, ends, faults)
    ensures SendClearForward(x).casTx == CasClearForward
  {
    CallDownAdded(x.timers);
    ClearsForward(x);
  }

  lemma EndedSide(x: Chan, tx: CasSignal, ends: nat, faults: nat)
    requires !x.inAlarm && (x.casRead == BITS_IDLE || x.casRead == BITS_SEIZE) &&
        (x.casRead == BITS_IDLE ==> tx != CasSeize)
    requires tx == CasSeize || tx == CasClearForward || tx == CasIdle
    requires CountEnds(x.log) == ends && CountFaults(x.log) == faults
    ensures Side(ReportCallEnd(x), tx, ends, faults)
    ensures ReportCallEnd(x).casTx == CasIdle
  {
  }

  // ---------------------------------------------------------------------------------------
  // Every allowed action keeps both sides

  lemma PersistSide(x: Chan, tx: CasSignal, ends: nat, faults: nat)
    requires Side(x, tx, ends, faults) && x.r2State == DoubleSeizure
    ensures var d := Schedule(Emit(x, UserHangup).(r2State := DoubleSeizureClearFwdPending), SeizePersist);
            Side(d, tx, ends, faults) && d.casTx == x.casTx
  {
    assert x.timers.live[x.timers.lastId + 1 := SeizePersist] == map[x.timers.lastId + 1 := SeizePersist];
  }

  lemma DropKeeps(cfg: Config, x: Chan, tx: CasSignal, ends: nat, faults: nat, cause: Cause)
    requires Side(x, tx, ends, faults)
    ensures var d := DisconnectCall(cfg, x, cause); Side(d, tx, ends, faults) && Progress(x, d)
  {
    if x.r2State != Idle {
      assert DisconnectCall(cfg, x, cause) == ForwardHangup(Emit(x, UserHangup));
      HangupSide(x, tx, ends, faults);
    }
  }

  lemma HangupSide(x: Chan, tx: CasSignal, ends: nat, faults: nat)
    requires Side(x, tx, ends, faults) && x.r2State != Idle
    ensures var d := ForwardHangup(Emit(x, UserHangup));
            && Side(d, tx, ends, faults)
            && (x.r2State == SeizeTxd || x.r2State == DoubleSeizure ==> d.casTx == x.casTx)
            && (d.casTx == x.casTx || d.casTx == CasClearForward || d.casTx == CasIdle)
  {
    var e := Emit(x, UserHangup);
    match x.r2State
    case SeizeTxd => PostponedSide(x, tx, ends, faults);
    case SeizeTxdClearFwdPending => SeizeLeavesRoom(x.timers); ClearingSide(e, tx, ends, faults);
    case DoubleSeizure => PersistSide(x, tx, ends, faults);
    case ClearFwdRxd => EndedSide(e, tx, ends, faults);
    case _ => ClearingSide(e, tx, ends, faults);
  }

  lemma SeizeLeavesRoom(tt: TimerTable)
    requires SeizeRunning(tt)
    ensures Clearing(tt) && !SlotsFull(tt)
  {
  }

  lemma PostponedSide(x: Chan, tx: CasSignal, ends: nat, faults: nat)
    requires Side(x, tx, ends, faults) && x.r2State == SeizeTxd
    ensures Side(Emit(x, UserHangup).(r2State := SeizeTxdClearFwdPending), tx, ends, faults)
  {
  }

  lemma CollisionSide(x: Chan, tx: CasSignal, ends: nat, faults: nat)
    requires Side(x, tx, ends, faults) && AwaitsAck(x)
    ensures var d := ReportDisconnection(Cancel(x.(casRead := BITS_SEIZE, r2State := DoubleSeizure), Seize), Glare);
            Side(d, tx, ends, faults) && d.casTx == x.casTx
  {
    var tt := x.timers;
    assert tt.live - {IdOf(tt, Seize)} == map[];
  }

  lemma ClearSeenSide(x: Chan, tx: CasSignal, ends: nat, faults: nat)
    requires Side(x, tx, ends, faults) && x.r2State == DoubleSeizure && BitsOf(tx) == BITS_IDLE
    ensures Side(x.(casRead := BITS_IDLE, r2State := ClearFwdRxd), tx, ends, faults)
  {
  }

  lemma SampleKeeps(cfg: Config, x: Chan, tx: CasSignal, ends: nat, faults: nat)
    requires Side(x, tx, ends, faults)
    ensures var d := HandleCas(cfg, x, BitsOf(tx)); Side(d, tx, ends, faults) && Progress(x, d)
  {
    if BitsOf(tx) == x.casRead {
    } else if x.r2State == Idle {
      IdleSeesIdle(cfg, x, tx, ends, faults);
    } else if AwaitsAck(x) || x.r2State == DoubleSeizure {
      SeesFarEnd(cfg, x, tx, ends, faults);
    } else if x.casRead == BITS_IDLE {
      SeizeReadLate(cfg, x, tx, ends, faults);
    } else {
      EndedSide(x.(casRead := BITS_IDLE), tx, ends, faults);
      assert HandleCas(cfg, x, BitsOf(tx)) == ReportCallEnd(x.(casRead := BITS_IDLE));
    }
  }

  lemma IdleSeesIdle(cfg: Config, x: Chan, tx: CasSignal, ends: nat, faults: nat)
    requires Side(x, tx, ends, faults) && x.r2State == Idle && BitsOf(tx) != x.casRead
    ensures var d := HandleCas(cfg, x, BitsOf(tx)); Side(d, tx, ends, faults) && d.casTx == x.casTx
  {
    assert HandleCas(cfg, x, BitsOf(tx)) == Emit(x.(casRead := BITS_IDLE), LineIdle);
  }

  lemma SeesFarEnd(cfg: Config, x: Chan, tx: CasSignal, ends: nat, faults: nat)
    requires Side(x, tx, ends, faults) && (AwaitsAck(x) || x.r2State == DoubleSeizure) && BitsOf(tx) != x.casRead
    ensures var d := HandleCas(cfg, x, BitsOf(tx)); Side(d, tx, ends, faults) && d.casTx == x.casTx
  {
    if AwaitsAck(x) { CollisionSide(x, tx, ends, faults); } else { ClearSeenSide(x, tx, ends, faults); }
  }

  /** An end that cleared unanswered reads the seize of the far end as a release. */
  lemma SeizeReadLate(cfg: Config, x: Chan, tx: CasSignal, ends: nat, faults: nat)
    requires Side(x, tx, ends, faults) && x.r2State == ClearFwdTxd && x.casRead == BITS_IDLE && BitsOf(tx) != BITS_IDLE
    ensures var d := HandleCas(cfg, x, BitsOf(tx));
            d == x.(casRead := BITS_SEIZE, r2State := ClearBackAfterClearFwdRxd) && Side(d, tx, ends, faults)
  {
  }

  lemma ExpireKeeps(cfg: Config, x: Chan, tx: CasSignal, ends: nat, faults: nat, id: int)
    requires Side(x, tx, ends, faults) && Heeds(x, tx, Expire(id))
    ensures var d := TimerFires(cfg, x, id); Side(d, tx, ends, faults) && Progress(x, d)
  {
    if id in x.timers.live {
      var tt := x.timers.(live := x.timers.live - {id});
      if x.timers.live[id] == SetCallDown {
        EndedSide(x.(timers := tt), tx, ends, faults);
      } else {
        FreesSlot(x.timers, id);
        ClearingSide(x.(timers := tt), tx, ends, faults);
      }
    }
  }

  lemma FreesSlot(tt: TimerTable, id: int)
    requires Clearing(tt) && id in tt.live
    ensures Clearing(tt.(live := tt.live - {id})) && !SlotsFull(tt.(live := tt.live - {id}))
  {
    var rest := tt.live - {id};
    assert tt.live.Keys == rest.Keys + {id};
    assert |tt.live.Keys| == |rest.Keys| + 1;
  }

  // ---------------------------------------------------------------------------------------
  // Runs

  /** The state of a collision, with the counts its logs started from. */
  ghost predicate GlareInv(p: Pair, endsA: nat, faultsA: nat, endsB: nat, faultsB: nat) {
    Side(p.a, p.b.casTx, endsA, faultsA) && Side(p.b, p.a.casTx, endsB, faultsB)
  }

  /** No end has cleared before the other noticed. */
  predicate Noticeable(p: Pair) { CanNotice(p.a, p.b.casTx) && CanNotice(p.b, p.a.casTx) }

  lemma ActKeeps(cfg: Config, x: Chan, y: Chan, action: Action, ex: nat, fx: nat, ey: nat, fy: nat)
    requires Side(x, y.casTx, ex, fx) && Side(y, x.casTx, ey, fy) && Heeds(x, y.casTx, action)
    ensures var d := Act(cfg, x, y, action); Side(d, y.casTx, ex, fx) && Side(y, d.casTx, ey, fy)
  {
    match action {
      case Sample => SampleKeeps(cfg, x, y.casTx, ex, fx);
      case Expire(id) => ExpireKeeps(cfg, x, y.casTx, ex, fx, id);
      case Drop(cause) => DropKeeps(cfg, x, y.casTx, ex, fx, cause);
      case _ =>
    }
    FarSideKept(x, Act(cfg, x, y, action), y, ey, fy);
  }

  lemma FarSideKept(x: Chan, d: Chan, y: Chan, ends: nat, faults: nat)
    requires Side(y, x.casTx, ends, faults) && Progress(x, d)
    ensures Side(y, d.casTx, ends, faults)
  {
  }

  lemma MoveKeeps(k: Configs, p: Pair, m: Move, ea: nat, fa: nat, eb: nat, fb: nat)
    requires GlareInv(p, ea, fa, eb, fb) && Heeding(p, m)
    ensures GlareInv(Next2(k, p, m), ea, fa, eb, fb)
  {
    if m.onA { ActKeeps(k.a, p.a, p.b, m.action, ea, fa, eb, fb); }
    else { ActKeeps(k.b, p.b, p.a, m.action, eb, fb, ea, fa); }
  }

  /** An end in time keeps showing its seize to a far end that has not seen it. */
  lemma HoldsSeize(cfg: Config, x: Chan, y: Chan, action: Action, ends: nat, faults: nat)
    requires Side(x, y.casTx, ends, faults) && CanNotice(y, x.casTx) && CanNotice(x, y.casTx) && InTime(x, y, action)
    requires AwaitsAck(y) ==> y.casTx == CasSeize
    ensures var d := Act(cfg, x, y, action); CanNotice(y, d.casTx) && CanNotice(d, y.casTx)
  {
    match action {
      case Sample => HoldsOnSample(cfg, x, y, ends, faults);
      case Drop(cause) => HoldsOnDrop(cfg, x, y, ends, faults, cause);
      case _ =>
    }
  }

  lemma HoldsOnDrop(cfg: Config, x: Chan, y: Chan, ends: nat, faults: nat, cause: Cause)
    requires Side(x, y.casTx, ends, faults) && CanNotice(y, x.casTx) && CanNotice(x, y.casTx) &&
        InTime(x, y, Drop(cause))
    requires AwaitsAck(y) ==> y.casTx == CasSeize
    ensures var d := DisconnectCall(cfg, x, cause); CanNotice(y, d.casTx) && CanNotice(d, y.casTx)
  {
    if x.r2State != Idle {
      assert DisconnectCall(cfg, x, cause) == ForwardHangup(Emit(x, UserHangup));
      HangupSide(x, y.casTx, ends, faults);
    }
  }

  lemma HoldsOnSample(cfg: Config, x: Chan, y: Chan, ends: nat, faults: nat)
    requires Side(x, y.casTx, ends, faults) && CanNotice(y, x.casTx) && CanNotice(x, y.casTx)
    requires AwaitsAck(y) ==> y.casTx == CasSeize
    ensures var d := HandleCas(cfg, x, BitsOf(y.casTx)); CanNotice(y, d.casTx) && CanNotice(d, y.casTx)
  {
    if AwaitsAck(x) {
      CollisionSide(x, y.casTx, ends, faults);
    } else if AwaitsAck(y) {
      assert HandleCas(cfg, x, BitsOf(y.casTx)) == x;
    } else {
      SampleDescends(cfg, x, y.casTx, ends, faults);
    }
  }

  lemma MoveHolds(k: Configs, p: Pair, m: Move, ea: nat, fa: nat, eb: nat, fb: nat)
    requires GlareInv(p, ea, fa, eb, fb) && Noticeable(p) && Allowed(p, m)
    ensures Noticeable(Next2(k, p, m))
  {
    if m.onA { HoldsSeize(k.a, p.a, p.b, m.action, ea, fa); } else { HoldsSeize(k.b, p.b, p.a, m.action, eb, fb); }
  }

  /** An idle channel on an idle line, ready to dial. */
  ghost predicate ReadyToDial(c: Chan) {
    && c.r2State == Idle && c.callState == CallIdle && c.direction == Stopped && c.mfState == MfOff
    && !c.inAlarm && c.casRead == BITS_IDLE && c.casTx == CasIdle && c.timers == NO_TIMERS
  }

  /** Both ends of an idle line place a call before either sees the other's seize. */
  function Collide(k: Configs, p: Pair, callA: Call, callB: Call): Pair {
    Pair(Dialled(k.a, p.a, callA), Dialled(k.b, p.b, callB))
  }

  lemma SeizedSide(cfg: Config, c: Chan, call: Call)
    requires ReadyToDial(c)
    ensures Side(Dialled(cfg, c, call), CasSeize, CountEnds(c.log), CountFaults(c.log))
    ensures Dialled(cfg, c, call).casTx == CasSeize && Dialled(cfg, c, call).r2State == SeizeTxd
  {
  }

  lemma CollisionStarts(k: Configs, p: Pair, callA: Call, callB: Call)
    requires ReadyToDial(p.a) && ReadyToDial(p.b)
    ensures var q := Collide(k, p, callA, callB);
            GlareInv(q, CountEnds(p.a.log), CountFaults(p.a.log), CountEnds(p.b.log), CountFaults(p.b.log)) &&
                Noticeable(q)
  {
    SeizedSide(k.a, p.a, callA);
    SeizedSide(k.b, p.b, callB);
  }

  lemma {:induction false} GlareRun(k: Configs, p: Pair, moves: seq<Move>, ea: nat, fa: nat, eb: nat, fb: nat)
    requires GlareInv(p, ea, fa, eb, fb) && Admitted(k, p, moves, Heeding)
    ensures GlareInv(Run2(k, p, moves), ea, fa, eb, fb)
    decreases |moves|
  {
    if moves != [] {
      MoveKeeps(k, p, moves[0], ea, fa, eb, fb);
      GlareRun(k, Next2(k, p, moves[0]), moves[1..], ea, fa, eb, fb);
    }
  }

  /**
   Glare is resolved without a protocol error, and each user hears exactly one end of call, at the moment its channel
   is idle again, however often and whenever they disconnect and whatever is sampled or missed.
   */
  lemma GlareIsSafe(k: Configs, p: Pair, callA: Call, callB: Call, moves: seq<Move>)
    requires ReadyToDial(p.a) && ReadyToDial(p.b)
    requires Admitted(k, Collide(k, p, callA, callB), moves, Heeding)
    ensures var q := Run2(k, Collide(k, p, callA, callB), moves);
            && CountFaults(q.a.log) == CountFaults(p.a.log) && CountFaults(q.b.log) == CountFaults(p.b.log)
            && CountEnds(q.a.log) == CountEnds(p.a.log) + (if q.a.r2State == Idle then 1 else 0)
            && CountEnds(q.b.log) == CountEnds(p.b.log) + (if q.b.r2State == Idle then 1 else 0)
            && (q.a.r2State == Idle <==> q.a.callState == CallIdle)
            && (q.b.r2State == Idle <==> q.b.callState == CallIdle)
  {
    CollisionStarts(k, p, callA, callB);
    GlareRun(k, Collide(k, p, callA, callB), moves,
             CountEnds(p.a.log), CountFaults(p.a.log), CountEnds(p.b.log), CountFaults(p.b.log));
  }

  // ---------------------------------------------------------------------------------------
  // The condition is exact

  /** A fault at either end, or a call at either end that nobody placed. */
  predicate Spoiled(p: Pair, fa: nat, fb: nat) {
    CountFaults(p.a.log) > fa || CountFaults(p.b.log) > fb || p.a.callState == Collecting || p.b.callState == Collecting
  }

  /**
   A move keeps the invariant exactly when its end heeds the condition; any other is a fault, or is followed by a call
   nobody placed with the next sample of that end.
   */
  lemma HeedingExactly(k: Configs, p: Pair, m: Move, ea: nat, fa: nat, eb: nat, fb: nat)
    requires GlareInv(p, ea, fa, eb, fb)
    ensures Heeding(p, m) <==> GlareInv(Next2(k, p, m), ea, fa, eb, fb)
    ensures Heeding(p, m) <==> !Spoiled(Next2(k, Next2(k, p, m), Move(m.onA, Sample)), fa, fb)
  {
    if Heeding(p, m) {
      MoveKeeps(k, p, m, ea, fa, eb, fb);
      MoveKeeps(k, Next2(k, p, m), Move(m.onA, Sample), ea, fa, eb, fb);
    } else if m.onA {
      HeedlessExpiry(k.a, p.a, p.b.casTx, m.action.id, ea, fa);
    } else {
      HeedlessExpiry(k.b, p.b, p.a.casTx, m.action.id, eb, fb);
    }
  }

  lemma HeedlessExpiry(cfg: Config, x: Chan, tx: CasSignal, id: int, ends: nat, faults: nat)
    requires Side(x, tx, ends, faults) && !Heeds(x, tx, Expire(id))
    ensures var d := TimerFires(cfg, x, id); var e := HandleCas(cfg, d, BitsOf(tx));
            && !Side(d, tx, ends, faults)
            && (CountFaults(e.log) > faults || e.callState == Collecting)
  {
    var c := x.(timers := x.timers.(live := x.timers.live - {id}));
    if x.timers.live[id] == Seize {
      assert TimerFires(cfg, x, id) == ProtocolError(c, SeizeTimeout);
      assert CountFaults(TimerFires(cfg, x, id).log) == faults + 1;
      SamplesAfterIdle(cfg, TimerFires(cfg, x, id), BitsOf(tx));
    } else {
      assert TimerFires(cfg, x, id) == ReportCallEnd(c);
    }
  }

  lemma SamplesAfterIdle(cfg: Config, c: Chan, bits: Bits)
    requires c.r2State == Idle
    ensures CountFaults(HandleCas(cfg, c, bits).log) >= CountFaults(c.log)
  {
  }

  function Faults(p: Pair): nat { CountFaults(p.a.log) + CountFaults(p.b.log) }

  /** The seize timer of the end that moves expires. */
  predicate SeizeExpires(p: Pair, m: Move) {
    var x := if m.onA then p.a else p.b;
    m.action.Expire? && m.action.id in x.timers.live && x.timers.live[m.action.id] == Seize
  }

  /**
   Wherever a collision has got to, the next move is itself a fault exactly when it is the expiry of a seize timer.
   */
  lemma GlareFaultsExactly(k: Configs, p: Pair, callA: Call, callB: Call, moves: seq<Move>, m: Move)
    requires ReadyToDial(p.a) && ReadyToDial(p.b)
    requires Admitted(k, Collide(k, p, callA, callB), moves, Heeding)
    ensures var q := Run2(k, Collide(k, p, callA, callB), moves); Faults(Next2(k, q, m)) != Faults(q) <==>
        SeizeExpires(q, m)
  {
    var q := Run2(k, Collide(k, p, callA, callB), moves);
    var ea, fa, eb, fb := CountEnds(p.a.log), CountFaults(p.a.log), CountEnds(p.b.log), CountFaults(p.b.log);
    CollisionStarts(k, p, callA, callB);
    GlareRun(k, Collide(k, p, callA, callB), moves, ea, fa, eb, fb);
    if Heeding(q, m) { MoveKeeps(k, q, m, ea, fa, eb, fb); }
    else if m.onA { ExpiryFaults(k.a, q.a, q.b.casTx, m.action.id, ea, fa); }
    else { ExpiryFaults(k.b, q.b, q.a.casTx, m.action.id, eb, fb); }
  }

  lemma ExpiryFaults(cfg: Config, x: Chan, tx: CasSignal, id: int, ends: nat, faults: nat)
    requires Side(x, tx, ends, faults) && !Heeds(x, tx, Expire(id))
    ensures CountFaults(TimerFires(cfg, x, id).log) == faults + if x.timers.live[id] == Seize then 1 else 0
  {
  }

  // ---------------------------------------------------------------------------------------
  // Convergence

  function Rank(x: Chan): nat {
    match x.r2State
    case SeizeTxd => 5
    case SeizeTxdClearFwdPending => 4
    case DoubleSeizure => 3
    case DoubleSeizureClearFwdPending => 2
    case ClearBackAfterClearFwdRxd => 2
    case ClearFwdTxd => if x.casRead == BITS_IDLE then 3 else 1
    case ClearFwdRxd => 1
    case _ => 0
  }

  function Distance(p: Pair): nat { Rank(p.a) + Rank(p.b) }

  /** d is x one action on: closer to idle, or in the same state and no further from it. */
  predicate Descends(x: Chan, d: Chan) { Rank(d) < Rank(x) || (d.r2State == x.r2State && Rank(d) == Rank(x)) }

  lemma SampleDescends(cfg: Config, x: Chan, tx: CasSignal, ends: nat, faults: nat)
    requires Side(x, tx, ends, faults)
    ensures var d := HandleCas(cfg, x, BitsOf(tx));
            && Descends(x, d)
            && (x.r2State == ClearFwdTxd && x.casRead == BITS_IDLE && tx == CasSeize ==> Rank(d) < Rank(x))
            && (AwaitsAck(x) && tx == CasSeize ==> d.r2State == DoubleSeizure)
  {
    if x.r2State == ClearFwdTxd && x.casRead == BITS_IDLE && tx == CasSeize { SeizeReadLate(cfg, x, tx, ends, faults); }
  }

  lemma ExpireDescends(cfg: Config, x: Chan, tx: CasSignal, ends: nat, faults: nat, id: int)
    requires Side(x, tx, ends, faults) && Heeds(x, tx, Expire(id))
    ensures var d := TimerFires(cfg, x, id);
            && Descends(x, d)
            && (id in x.timers.live && (x.timers.live[id] == SetCallDown ||
                x.r2State == DoubleSeizureClearFwdPending) ==>
                  Rank(d) < Rank(x))
  {
  }

  lemma DropDescends(cfg: Config, x: Chan, tx: CasSignal, ends: nat, faults: nat, cause: Cause)
    requires Side(x, tx, ends, faults)
    ensures var d := DisconnectCall(cfg, x, cause);
            && Descends(x, d)
            && (x.r2State != Idle && x.r2State != ClearFwdTxd ==> Rank(d) < Rank(x))
  {
  }

  predicate SameStates(p: Pair, q: Pair) { p.a.r2State == q.a.r2State && p.b.r2State == q.b.r2State }

  /** A move either leaves the states of both ends alone or brings the pair strictly closer to idle; none leads away. */
  lemma MovesDescend(k: Configs, p: Pair, m: Move, ea: nat, fa: nat, eb: nat, fb: nat)
    requires GlareInv(p, ea, fa, eb, fb) && Heeding(p, m)
    ensures SameStates(p, Next2(k, p, m)) || Distance(Next2(k, p, m)) < Distance(p)
    ensures Distance(Next2(k, p, m)) <= Distance(p)
  {
    if m.onA { ActDescends(k.a, p.a, p.b, m.action, ea, fa); } else { ActDescends(k.b, p.b, p.a, m.action, eb, fb); }
  }

  lemma ActDescends(cfg: Config, x: Chan, y: Chan, action: Action, ends: nat, faults: nat)
    requires Side(x, y.casTx, ends, faults) && Heeds(x, y.casTx, action)
    ensures Descends(x, Act(cfg, x, y, action))
  {
    match action {
      case Sample => SampleDescends(cfg, x, y.casTx, ends, faults);
      case Expire(id) => ExpireDescends(cfg, x, y.casTx, ends, faults, id);
      case Drop(cause) => DropDescends(cfg, x, y.casTx, ends, faults, cause);
      case _ =>
    }
  }

  /** The number of moves of a run that change the state of an end. */
  function Changes(k: Configs, p: Pair, moves: seq<Move>): nat
    decreases |moves|
  {
    if moves == [] then 0
    else (if SameStates(p, Next2(k, p, moves[0])) then 0 else 1) + Changes(k, Next2(k, p, moves[0]), moves[1..])
  }

  lemma {:induction false} ChangesBounded(k: Configs, p: Pair, moves: seq<Move>, ea: nat, fa: nat, eb: nat, fb: nat)
    requires GlareInv(p, ea, fa, eb, fb) && Admitted(k, p, moves, Heeding)
    ensures Changes(k, p, moves) + Distance(Run2(k, p, moves)) <= Distance(p)
    decreases |moves|
  {
    if moves != [] {
      MoveKeeps(k, p, moves[0], ea, fa, eb, fb);
      MovesDescend(k, p, moves[0], ea, fa, eb, fb);
      ChangesBounded(k, Next2(k, p, moves[0]), moves[1..], ea, fa, eb, fb);
    }
  }

  /** From the collision on, at most ten moves of any run change the state of an end. */
  lemma GlareTakesTenChanges(k: Configs, p: Pair, callA: Call, callB: Call, moves: seq<Move>)
    requires ReadyToDial(p.a) && ReadyToDial(p.b)
    requires Admitted(k, Collide(k, p, callA, callB), moves, Heeding)
    ensures Changes(k, Collide(k, p, callA, callB), moves) <= 10
  {
    CollisionStarts(k, p, callA, callB);
    SeizedSide(k.a, p.a, callA);
    SeizedSide(k.b, p.b, callB);
    ChangesBounded(k, Collide(k, p, callA, callB), moves,
                   CountEnds(p.a.log), CountFaults(p.a.log), CountEnds(p.b.log), CountFaults(p.b.log));
  }

  /**
   What brings an end closer to idle that waits no more: a sample, a timer, or its user who has been told to clear.
   */
  lemma WindsDown(cfg: Config, x: Chan, y: Chan, ends: nat, faults: nat) returns (action: Action)
    requires Side(x, y.casTx, ends, faults) && !AwaitsAck(x) && x.r2State != Idle
    ensures Heeds(x, y.casTx, action) && Rank(Act(cfg, x, y, action)) < Rank(x)
    ensures action.Sample? || action.Expire? || (action.Drop? &&
        (x.r2State == DoubleSeizure || x.r2State == ClearFwdRxd))
  {
    if x.r2State == DoubleSeizureClearFwdPending {
      action := Expire(IdOf(x.timers, SeizePersist));
      ExpireDescends(cfg, x, y.casTx, ends, faults, action.id);
    } else if x.r2State == ClearFwdTxd && x.casRead == BITS_IDLE && y.casTx == CasSeize {
      action := Sample;
      SampleDescends(cfg, x, y.casTx, ends, faults);
    } else if x.r2State == ClearFwdTxd || x.r2State == ClearBackAfterClearFwdRxd {
      var id :| id in x.timers.live && x.timers.live[id] == SetCallDown;
      action := Expire(id);
      ExpireDescends(cfg, x, y.casTx, ends, faults, id);
    } else {
      action := Drop(NormalClearing);
      DropDescends(cfg, x, y.casTx, ends, faults, NormalClearing);
    }
  }

  /** Wherever a run has got to, some move brings the pair closer until both ends are idle: none gets stuck. */
  lemma GlareConverges(k: Configs, p: Pair, ea: nat, fa: nat, eb: nat, fb: nat) returns (m: Move)
    requires GlareInv(p, ea, fa, eb, fb) && Distance(p) > 0
    ensures Heeding(p, m) && Distance(Next2(k, p, m)) < Distance(p)
  {
    var onA := p.a.r2State != Idle;
    var x, y := if onA then p.a else p.b, if onA then p.b else p.a;
    var ends, faults, cfg := if onA then ea else eb, if onA then fa else fb, if onA then k.a else k.b;
    if AwaitsAck(x) {
      m := Move(onA, Drop(NormalClearing));
      DropDescends(cfg, x, y.casTx, ends, faults, NormalClearing);
    } else {
      var action := WindsDown(cfg, x, y, ends, faults);
      m := Move(onA, action);
    }
  }

  /**
   In time no user has to disconnect who has not been told of the collision or of the end of the call: as long as each
   end holds its seize until the other has seen it, every other move closer to idle is a sample or an expiry.
   */
  lemma GlareClearsItself(k: Configs, p: Pair, ea: nat, fa: nat, eb: nat, fb: nat) returns (m: Move)
    requires GlareInv(p, ea, fa, eb, fb) && Noticeable(p) && Distance(p) > 0
    ensures Allowed(p, m) && Distance(Next2(k, p, m)) < Distance(p)
    ensures GlareInv(Next2(k, p, m), ea, fa, eb, fb) && Noticeable(Next2(k, p, m))
    ensures m.action.Drop? ==>
              var x := if m.onA then p.a else p.b; x.r2State == DoubleSeizure || x.r2State == ClearFwdRxd
    ensures m.action.Sample? || m.action.Expire? || m.action.Drop?
  {
    if AwaitsAck(p.b) {
      SampleDescends(k.b, p.b, p.a.casTx, eb, fb);
      m := Move(false, Sample);
    } else if AwaitsAck(p.a) {
      SampleDescends(k.a, p.a, p.b.casTx, ea, fa);
      m := Move(true, Sample);
    } else if p.a.r2State != Idle {
      var action := WindsDown(k.a, p.a, p.b, ea, fa);
      m := Move(true, action);
    } else {
      var action := WindsDown(k.b, p.b, p.a, eb, fb);
      m := Move(false, action);
    }
    MoveKeeps(k, p, m, ea, fa, eb, fb);
    MoveHolds(k, p, m, ea, fa, eb, fb);
  }
}
