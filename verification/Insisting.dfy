/**
 An end that disconnects twice before its seize is answered clears the line at once, with its seize timer still running.
 When its call-down timer gives the channel back before the far end has cleared, it takes the seize of the far end for a
 new call. This needs a call-down timer that is due in a pass in which the older seize timer is not: which clocks and
 settings allow that, exactly, and the run in which it happens.
 */
module Insisting {
  import opened Signals
  import opened Scheduler
  import opened TwoEnds
  import opened Glare
  import opened LatePasses
  import Passes
  import P = Protocol

  // ---------------------------------------------------------------------------------------
  // The clocks

  function SeizeEntry(cfg: Config, placed: TimeVal): Entry { Entry(Expiry(placed, Duration(cfg, Seize)), Seize, 2) }

  function CallDownEntry(cfg: Config, dropped: TimeVal): Entry {
    Entry(Expiry(dropped, Duration(cfg, SetCallDown)), SetCallDown, 3)
  }

  /** The timers of the end that insists: its seize was placed at one time and given up at another. */
  function InsistedTimers(cfg: Config, placed: TimeVal, dropped: TimeVal): seq<Entry> {
    Inserted(Inserted([], SeizeEntry(cfg, placed)), CallDownEntry(cfg, dropped))
  }

  /** A timer that expires at t can be due in a pass in which one that expires at u is not. */
  predicate CanComeAlone(t: TimeVal, u: TimeVal) {
    t.sec < u.sec || (t.sec == u.sec && t.usec < u.usec && 1000 <= u.usec)
  }

  ghost predicate SomePassFinds(x: Entry, y: Entry) {
    exists now: TimeVal :: IsClock(now) && Due(x, now) && !Due(y, now)
  }

  lemma DueAloneExactly(x: Entry, y: Entry)
    requires IsDeadline(x.time) && IsDeadline(y.time)
    ensures SomePassFinds(x, y) <==> CanComeAlone(x.time, y.time)
  {
    if CanComeAlone(x.time, y.time) {
      var now := if x.time.sec < y.time.sec then TimeVal(x.time.sec, 999999)
          else TimeVal(x.time.sec, y.time.usec - 1000);
      PassBetween(x, y, now);
    }
    forall now: TimeVal | IsClock(now) && Due(x, now) && !Due(y, now) ensures CanComeAlone(x.time, y.time) {
      FoundBetween(x, y, now);
    }
  }

  lemma PassBetween(x: Entry, y: Entry, now: TimeVal)
    requires IsDeadline(x.time) && IsDeadline(y.time) && CanComeAlone(x.time, y.time)
    requires now == if x.time.sec < y.time.sec then TimeVal(x.time.sec, 999999)
        else TimeVal(x.time.sec, y.time.usec - 1000)
    ensures IsClock(now) && Due(x, now) && !Due(y, now)
  {
    DueExactly(x, now);
    DueExactly(y, now);
  }

  lemma FoundBetween(x: Entry, y: Entry, now: TimeVal)
    requires IsClock(now) && IsDeadline(x.time) && IsDeadline(y.time) && Due(x, now) && !Due(y, now)
    ensures CanComeAlone(x.time, y.time)
  {
    DueExactly(x, now);
    DueExactly(y, now);
  }

  /** What a pass finds due, by what is due of the two timers. */
  lemma DueOfTwo(cfg: Config, placed: TimeVal, dropped: TimeVal, now: TimeVal)
    ensures var due := DueCallbacks(InsistedTimers(cfg, placed, dropped), now);
            var seize, callDown := SeizeEntry(cfg, placed), CallDownEntry(cfg, dropped);
            if Due(seize, now) && Due(callDown, now) then
              due == if Sooner(callDown.time, seize.time) then [SetCallDown, Seize] else [Seize, SetCallDown]
            else if Due(callDown, now) then due == [SetCallDown]
            else due == if Due(seize, now) then [Seize] else []
  {
    var seize, callDown := SeizeEntry(cfg, placed), CallDownEntry(cfg, dropped);
    InsertedBySoonest(seize, callDown);
    DueOfPair(seize, callDown, now);
    DueOfPair(callDown, seize, now);
  }

  lemma DueOfPair(x: Entry, y: Entry, now: TimeVal)
    ensures DueCallbacks([x, y], now) ==
            (if Due(x, now) then [x.callback] else []) + (if Due(y, now) then [y.callback] else [])
  {
    assert [x, y][1..] == [y] && [y][1..] == [];
    assert DueIn([y], now) == if Due(y, now) then [y] else [];
    assert DueIn([x, y], now) == (if Due(x, now) then [x] else []) + (if Due(y, now) then [y] else []);
  }

  /** The call-down timer is found due without the seize timer, in some pass, exactly for these clocks. */
  lemma CallDownFirstExactly(cfg: Config, placed: TimeVal, dropped: TimeVal)
    requires IsClock(placed) && IsClock(dropped) && 0 <= Duration(cfg, Seize) && 0 <= Duration(cfg, SetCallDown)
    ensures (exists now ::
               IsClock(now) && DueCallbacks(InsistedTimers(cfg, placed, dropped), now) == [SetCallDown]) <==>
            CanComeAlone(CallDownEntry(cfg, dropped).time, SeizeEntry(cfg, placed).time)
  {
    var seize, callDown := SeizeEntry(cfg, placed), CallDownEntry(cfg, dropped);
    ExpiryIsDeadline(placed, Duration(cfg, Seize));
    ExpiryIsDeadline(dropped, Duration(cfg, SetCallDown));
    DueAloneExactly(callDown, seize);
    forall now | IsClock(now)
      ensures DueCallbacks(InsistedTimers(cfg, placed, dropped), now) == [SetCallDown] <==>
              Due(callDown, now) && !Due(seize, now)
    {
      DueOfTwo(cfg, placed, dropped, now);
    }
  }

  ghost predicate SomeClocksAllow(cfg: Config) {
    exists placed, dropped ::
      && IsClock(placed) && IsClock(dropped) && Micros(placed) <= Micros(dropped)
      && CanComeAlone(CallDownEntry(cfg, dropped).time, SeizeEntry(cfg, placed).time)
  }

  /** There are such clocks exactly for settings in which the call-down time is the shorter one. */
  lemma ShorterCallDownExactly(cfg: Config)
    requires 0 <= Duration(cfg, Seize) && 0 <= Duration(cfg, SetCallDown)
    ensures SomeClocksAllow(cfg) <==> Duration(cfg, SetCallDown) < Duration(cfg, Seize)
  {
    var zero := TimeVal(0, 0);
    forall placed: TimeVal, dropped: TimeVal | IsClock(placed) && IsClock(dropped) && Micros(placed) <= Micros(dropped)
      ensures CanComeAlone(CallDownEntry(cfg, dropped).time, SeizeEntry(cfg, placed).time) ==>
                Duration(cfg, SetCallDown) < Duration(cfg, Seize)
    {
      if CanComeAlone(CallDownEntry(cfg, dropped).time, SeizeEntry(cfg, placed).time) {
        AloneIsShorter(placed, dropped, Duration(cfg, Seize), Duration(cfg, SetCallDown));
      }
    }
    if Duration(cfg, SetCallDown) < Duration(cfg, Seize) {
      ShorterIsAlone(Duration(cfg, Seize), Duration(cfg, SetCallDown));
      assert IsClock(zero) && Micros(zero) <= Micros(zero);
    }
  }

  lemma AloneIsShorter(placed: TimeVal, dropped: TimeVal, seize: int, callDown: int)
    requires IsClock(placed) && IsClock(dropped) && Micros(placed) <= Micros(dropped) && 0 <= seize && 0 <= callDown
    requires CanComeAlone(Expiry(dropped, callDown), Expiry(placed, seize))
    ensures callDown < seize
  {
    ExpiryIsDeadline(placed, seize);
    ExpiryIsDeadline(dropped, callDown);
  }

  lemma ShorterIsAlone(seize: int, callDown: int)
    requires 0 <= callDown < seize
    ensures CanComeAlone(Expiry(TimeVal(0, 0), callDown), Expiry(TimeVal(0, 0), seize))
  {
  }

  /** The variants have none: whenever the call-down timer is due the seize timer is too, and is called back first. */
  lemma VariantsSeizeFirst(v: Variant, maxAni: int, maxDnis: int, placed: TimeVal, dropped: TimeVal, now: TimeVal)
    requires IsClock(placed) && IsClock(dropped) && IsClock(now) && Micros(placed) <= Micros(dropped)
    ensures var due := DueCallbacks(InsistedTimers(Configure(v, maxAni, maxDnis), placed, dropped), now);
            due == [] || due == [Seize] || due == [Seize, SetCallDown]
  {
    var cfg := Configure(v, maxAni, maxDnis);
    VariantTimers(v, maxAni, maxDnis);
    ExpiryIsDeadline(placed, 2000);
    ExpiryIsDeadline(dropped, 3000);
    SoonerIsEarlier(CallDownEntry(cfg, dropped).time, SeizeEntry(cfg, placed).time);
    DueOfTwo(cfg, placed, dropped, now);
    if Due(CallDownEntry(cfg, dropped), now) && !Due(SeizeEntry(cfg, placed), now) {
      FoundBetween(CallDownEntry(cfg, dropped), SeizeEntry(cfg, placed), now);
    }
  }

  lemma VariantTimers(v: Variant, maxAni: int, maxDnis: int)
    ensures var cfg := Configure(v, maxAni, maxDnis); Duration(cfg, Seize) == 2000 && Duration(cfg, SetCallDown) == 3000
  {
  }

  // ---------------------------------------------------------------------------------------
  // The run

  /** The far end sees a collision, and the user of this end disconnects twice without having seen it. */
  function Insisted(k: Configs, p: Pair, callA: Call, callB: Call, cause: Cause): Pair {
    Run2(k, Collide(k, p, callA, callB), [Move(false, Sample), Move(true, Drop(cause)), Move(true, Drop(cause))])
  }

  /** This end, whose user has disconnected twice, and the far end, which has seen the collision. */
  ghost predicate InsistedBeside(p: Pair, faults: nat) {
    && p.a.r2State == ClearFwdTxd && p.a.casRead == BITS_IDLE && !p.a.inAlarm
    && p.a.timers.live == map[2 := Seize, 3 := SetCallDown]
    && p.b.r2State == DoubleSeizure && p.b.casTx == CasSeize && p.b.casRead == BITS_SEIZE && !p.b.inAlarm
    && CountFaults(p.b.log) == faults
  }

  lemma InsistsBesideCollision(k: Configs, p: Pair, callA: Call, callB: Call, cause: Cause)
    requires ReadyToDial(p.a) && ReadyToDial(p.b)
    ensures InsistedBeside(Insisted(k, p, callA, callB, cause), CountFaults(p.b.log))
  {
    var p0 := Collide(k, p, callA, callB);
    var p1 := Next2(k, p0, Move(false, Sample));
    FarEndSeesCollision(k, p, callA, callB);
    InsistsAlone(k.a, p0.a, cause);
    DropsTwice(k, p1, cause);
    ThreeMoves(k, p0, Move(false, Sample), Move(true, Drop(cause)), Move(true, Drop(cause)));
  }

  lemma DropsTwice(k: Configs, p: Pair, cause: Cause)
    ensures Next2(k, Next2(k, p, Move(true, Drop(cause))), Move(true, Drop(cause))) ==
            p.(a := P.DisconnectCall(k.a, P.DisconnectCall(k.a, p.a, cause), cause))
  {
    var q := Next2(k, p, Move(true, Drop(cause)));
    assert q == p.(a := P.DisconnectCall(k.a, p.a, cause));
    assert Next2(k, q, Move(true, Drop(cause))) == q.(a := P.DisconnectCall(k.a, q.a, cause));
  }

  lemma FarEndSeesCollision(k: Configs, p: Pair, callA: Call, callB: Call)
    requires ReadyToDial(p.a) && ReadyToDial(p.b)
    ensures var p0 := Collide(k, p, callA, callB); var p1 := Next2(k, p0, Move(false, Sample));
            && p1.a == p0.a && p0.a.timers == P.AddTimer(P.NO_TIMERS, Seize)
            && p0.a.r2State == SeizeTxd && p0.a.mfState == MfOff && p0.a.direction == Forward &&
                p0.a.callState == Dialing
            && p0.a.casRead == BITS_IDLE && !p0.a.inAlarm
            && p1.b.r2State == DoubleSeizure && p1.b.casTx == CasSeize && p1.b.casRead == BITS_SEIZE && !p1.b.inAlarm
            && CountFaults(p1.b.log) == CountFaults(p.b.log)
  {
    SeizedSide(k.a, p.a, callA);
    SeizedSide(k.b, p.b, callB);
    CollisionSide(Collide(k, p, callA, callB).b, CasSeize, CountEnds(p.b.log), CountFaults(p.b.log));
  }

  lemma InsistsAlone(cfg: Config, x: P.Chan, cause: Cause)
    requires x.r2State == SeizeTxd && x.mfState == MfOff && x.direction == Forward && x.callState == Dialing
    requires x.timers == P.AddTimer(P.NO_TIMERS, Seize)
    ensures var d := P.DisconnectCall(cfg, P.DisconnectCall(cfg, x, cause), cause);
            && d.r2State == ClearFwdTxd && d.casRead == x.casRead && d.inAlarm == x.inAlarm
            && d.timers.live == map[2 := Seize, 3 := SetCallDown]
  {
    var d1 := P.DisconnectCall(cfg, x, cause);
    assert d1 == P.Emit(x, P.UserHangup).(r2State := SeizeTxdClearFwdPending);
    var e := P.Emit(d1, P.UserHangup);
    assert P.DisconnectCall(cfg, d1, cause) == P.SendClearForward(e);
    ClearsForward(e);
    assert x.timers.live == map[2 := Seize];
  }

  /**
   In a pass in which its call-down timer is due alone the end that insists becomes idle, takes the seize of the far end
   for a call, and acknowledges it, which is a fault there.
   */
  lemma InsistingCausesFault(k: Configs, p: Pair, callA: Call, callB: Call, cause: Cause,
                             placed: TimeVal, dropped: TimeVal, now: TimeVal)
    requires ReadyToDial(p.a) && ReadyToDial(p.b) && k.a.autoSeizeAck
    requires DueCallbacks(InsistedTimers(k.a, placed, dropped), now) == [SetCallDown]
    ensures var q := InsistedTimers(k.a, placed, dropped);
            var p3 := Insisted(k, p, callA, callB, cause);
            var p4 := p3.(a := Passes.CallBack(k.a, AfterTake(p3.a, q, now), DueCallbacks(q, now)));
            && p3.a.timers.live == LiveOf(q) && p4 == Next2(k, p3, Move(true, Expire(3)))
            && CountFaults(Run2(k, p4, [Move(true, Sample), Move(false, Sample)]).b.log) == CountFaults(p.b.log) + 1
  {
    var q, p3 := InsistedTimers(k.a, placed, dropped), Insisted(k, p, callA, callB, cause);
    InsistsBesideCollision(k, p, callA, callB, cause);
    TwoTimersLive(k.a, placed, dropped);
    OnlyCallDownDue(k.a, placed, dropped, now);
    OneDuePass(k.a, p3.a, q, now);
    var p4 := Next2(k, p3, Move(true, Expire(3)));
    TakesFarSeize(k, p3, CountFaults(p.b.log));
    TwoMoves(k, p4, Move(true, Sample), Move(false, Sample));
  }

  lemma TwoTimersLive(cfg: Config, placed: TimeVal, dropped: TimeVal)
    ensures var q := InsistedTimers(cfg, placed, dropped);
            LiveOf(q) == map[2 := Seize, 3 := SetCallDown] && DistinctIds(q)
  {
    var seize, callDown := SeizeEntry(cfg, placed), CallDownEntry(cfg, dropped);
    InsertedBySoonest(seize, callDown);
    TwoLive(seize, callDown);
    TwoLive(callDown, seize);
  }

  lemma OnlyCallDownDue(cfg: Config, placed: TimeVal, dropped: TimeVal, now: TimeVal)
    requires DueCallbacks(InsistedTimers(cfg, placed, dropped), now) == [SetCallDown]
    ensures var due := DueIn(InsistedTimers(cfg, placed, dropped), now); |due| == 1 && due[0].id == 3
  {
    var q := InsistedTimers(cfg, placed, dropped);
    var due := DueIn(q, now);
    InsertedBySoonest(SeizeEntry(cfg, placed), CallDownEntry(cfg, dropped));
    assert |DueCallbacks(q, now)| == |due| && DueCallbacks(q, now)[0] == due[0].callback;
    DueIsDue(q, now, 0);
  }

  lemma TakesFarSeize(k: Configs, p: Pair, faults: nat)
    requires InsistedBeside(p, faults) && k.a.autoSeizeAck
    ensures var q := Next2(k, p, Move(true, Expire(3)));
            CountFaults(Next2(k, Next2(k, q, Move(true, Sample)), Move(false, Sample)).b.log) == faults + 1
  {
    var q := Next2(k, p, Move(true, Expire(3)));
    assert q.a.r2State == Idle && q.a.casRead == BITS_IDLE && !q.a.inAlarm && q.b == p.b;
    var r := Next2(k, q, Move(true, Sample));
    assert r.a.casTx == CasSeizeAck && r.b == p.b;
  }
}
