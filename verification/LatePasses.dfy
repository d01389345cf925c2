/**
 Passes of the array scheduler as passes of the protocol, and two runs in which a late pass finds two timers due whose
 callbacks do not go together.
 */
module LatePasses {
  import opened Signals
  import opened Scheduler
  import opened Passes
  import P = Protocol

  // ---------------------------------------------------------------------------------------
  // From entries to callbacks

  /** The channel when the first callback of a pass is made: the due timers are no longer live. */
  function AfterTake(c: P.Chan, q: seq<Entry>, now: TimeVal): P.Chan {
    c.(timers := c.timers.(live := LiveOf(NotDueIn(q, now))))
  }

  function Callbacks(q: seq<Entry>): seq<Timer> { seq(|q|, i requires 0 <= i < |q| => q[i].callback) }

  /** The callbacks a pass makes, in order. */
  function DueCallbacks(q: seq<Entry>, now: TimeVal): seq<Timer> { Callbacks(DueIn(q, now)) }

  lemma {:induction false} EntryIsLive(q: seq<Entry>, e: Entry)
    requires DistinctIds(q) && e in q
    ensures e.id in LiveOf(q) && LiveOf(q)[e.id] == e.callback
  {
    if e != q[0] { EntryIsLive(q[1..], e); }
  }

  lemma DueEntryIsLive(q: seq<Entry>, now: TimeVal, k: nat)
    requires DistinctIds(q) && k < |DueIn(q, now)|
    ensures var e := DueIn(q, now)[k];
            e.id in LiveOf(q) && LiveOf(q)[e.id] == e.callback && e.id !in LiveOf(NotDueIn(q, now))
  {
    var e := DueIn(q, now)[k];
    DueIsDue(q, now, k);
    EntryIsLive(q, e);
    PassTakesDue(q, now, e.id);
  }

  /** A pass takes off the timers it calls back, and no others. */
  lemma PassTakes(c: P.Chan, q: seq<Entry>, now: TimeVal)
    requires DistinctIds(q) && c.timers.live == LiveOf(q)
    ensures Takes(c, AfterTake(c, q, now), DueCallbacks(q, now))
  {
    var d, due := AfterTake(c, q, now), DueIn(q, now);
    forall id | id in d.timers.live ensures id in c.timers.live && d.timers.live[id] == c.timers.live[id] {
      PassTakesDue(q, now, id);
    }
    forall id | id in c.timers.live && id !in d.timers.live ensures c.timers.live[id] in Callbacks(due) {
      PassTakesDue(q, now, id);
      DueEntryIsLive(q, now, SlotOf(due, id));
      assert Callbacks(due)[SlotOf(due, id)] == c.timers.live[id];
    }
    forall t | t in Callbacks(due) ensures Taken(c, d, t) {
      var k :| 0 <= k < |due| && due[k].callback == t;
      DueEntryIsLive(q, now, k);
    }
  }

  lemma OneDueTaken(q: seq<Entry>, now: TimeVal)
    requires DistinctIds(q) && |DueIn(q, now)| == 1
    ensures var e := DueIn(q, now)[0];
            e.id in LiveOf(q) && LiveOf(q)[e.id] == e.callback && LiveOf(NotDueIn(q, now)) == LiveOf(q) - {e.id}
  {
    var e := DueIn(q, now)[0];
    DueEntryIsLive(q, now, 0);
    CancelNextDue(q, now, 0);
    AllDueCancelled(q, now);
    LiveRemoved(q, e.id);
    assert WithoutDue(q, now, 0) == q;
  }

  /** With one timer due, a pass of the scheduler is the step in which that timer fires. */
  lemma OneDuePass(cfg: Config, c: P.Chan, q: seq<Entry>, now: TimeVal)
    requires DistinctIds(q) && c.timers.live == LiveOf(q) && |DueIn(q, now)| == 1
    ensures CallBack(cfg, AfterTake(c, q, now), DueCallbacks(q, now)) == P.TimerFires(cfg, c, DueIn(q, now)[0].id)
  {
    OneDueTaken(q, now);
    var t := DueIn(q, now)[0].callback;
    assert DueCallbacks(q, now) == [t];
    assert [t][..0] == [];
  }

  // ---------------------------------------------------------------------------------------
  // Two timers, the first of which expires sooner

  lemma BothDue(first: Entry, second: Entry, now: TimeVal)
    requires IsClock(now) && IsDeadline(first.time) && IsDeadline(second.time) && first.id != second.id
    requires Micros(first.time) <= Micros(now) && Micros(second.time) <= Micros(now)
    ensures var q := [first, second];
            DueIn(q, now) == q && NotDueIn(q, now) == [] && DueCallbacks(q, now) == [first.callback, second.callback]
  {
    DueExactly(first, now);
    DueExactly(second, now);
    assert [first, second][1..] == [second] && [second][1..] == [];
    assert DueIn([second], now) == [second] && NotDueIn([second], now) == [];
    assert Callbacks([first, second]) == [first.callback, second.callback];
  }

  /** The array after two additions, whatever their order in time. */
  lemma InsertedBySoonest(earlier: Entry, later: Entry)
    ensures Inserted(Inserted([], earlier), later) ==
            if Sooner(later.time, earlier.time) then [later, earlier] else [earlier, later]
  {
    assert SlotFor([], earlier.time) == 0 && Inserted([], earlier) == [] + [earlier] + [];
    assert Inserted([], earlier) == [earlier];
    SlotBesideOne(earlier, later.time);
    if Sooner(later.time, earlier.time) {
      assert Inserted([earlier], later) == [] + [later] + [earlier];
    } else {
      assert Inserted([earlier], later) == [earlier] + [later] + [];
    }
  }

  lemma SlotBesideOne(e: Entry, t: TimeVal)
    ensures SlotFor([e], t) == if Sooner(t, e.time) then 0 else 1
  {
    assert [e][1..] == [];
  }

  lemma SoonerIsEarlier(x: TimeVal, y: TimeVal)
    requires IsDeadline(x) && IsDeadline(y)
    ensures Micros(x) < Micros(y) ==> Sooner(x, y)
    ensures Sooner(x, y) ==> Micros(x) <= Micros(y)
  {
  }

  // ---------------------------------------------------------------------------------------
  // A run to an answer timer and a call-down timer

  const ITU: Config := Configure(Itu, 10, 10)

  /** Reset, idle line, a call, its acknowledgement, change to group II, acceptance, and the user hangs up. */
  const ACCEPTED_AND_DROPPED: seq<P.Step> :=
    [P.ResetIdle, P.CasSample(BITS_IDLE), P.Place(None, "1", NationalSubscriber, false), P.CasSample(BITS_SEIZE_ACK)] +
    [P.MfSample('3', P.Reply(true, false)), P.MfSample(NO_TONE, P.Reply(true, false)),
     P.MfSample('6', P.Reply(true, false)), P.MfSample(NO_TONE, P.Reply(true, false)), P.Hangup(NormalClearing)]

  /** Reset, idle line, a call, and a user who hangs up twice before the acknowledgement. */
  const DROPPED_TWICE: seq<P.Step> :=
    [P.ResetIdle, P.CasSample(BITS_IDLE), P.Place(None, "1", NationalSubscriber, false),
     P.Hangup(NormalClearing), P.Hangup(NormalClearing)]

  /** A channel that has just placed the call. */
  predicate Placed(c: P.Chan) {
    && c.r2State == SeizeTxd && c.callState == Dialing && c.direction == Forward && !c.inAlarm
    && c.casRead == BITS_IDLE && c.casTx == CasSeize
    && c.mfState == MfOff && c.writeTone == NO_TONE && c.readTone == NO_TONE
    && c.num == P.Numbers("1", 0, "", None, false, '1', false)
    && c.timers.live == map[2 := Seize] && c.timers.lastId == 2 && P.IdOf(c.timers, Seize) == 2
    && P.IdOf(c.timers, BackCycle) == 0 && P.IdOf(c.timers, FwdSafety) == 0
  }

  lemma PlacesCall()
    ensures Placed(P.Run(ITU, P.NEW_CHAN, DROPPED_TWICE[..3]))
  {
    var s := DROPPED_TWICE;
    assert s[..3] == [s[0], s[1], s[2]];
    P.ThreeSteps(ITU, P.NEW_CHAN, s[0], s[1], s[2]);
    var c1 := P.Next(ITU, P.NEW_CHAN, P.ResetIdle);
    var c2 := P.Next(ITU, c1, P.CasSample(BITS_IDLE));
    assert c2.timers == P.NO_TIMERS && c2.casRead == BITS_IDLE && P.CanMakeCall(c2);
    assert AllDigits("1") && P.Truncated("1") == "1";
  }

  /** A channel whose call was accepted and is being cleared, with both timers running. */
  predicate Dropped(c: P.Chan) { c.timers.live == map[3 := Answer, 4 := SetCallDown] }

  /** A channel in register signalling with its category to come, or sent. */
  predicate Registering(c: P.Chan, group: MfGroup, state: MfState, sent: bool) {
    && c.r2State == SeizeAckRxd && c.callState == Dialing && c.direction == Forward
    && c.mfGroup == group && c.mfState == state && c.readTone == NO_TONE
    && c.num.category == '1' && c.num.categorySent == sent
    && c.timers.live == map[] && c.timers.lastId == 2
    && P.IdOf(c.timers, BackCycle) == 0 && P.IdOf(c.timers, FwdSafety) == 0
  }

  lemma Acknowledged(c: P.Chan)
    requires Placed(c)
    ensures Registering(P.Next(ITU, c, P.CasSample(BITS_SEIZE_ACK)), GI, DnisTxd, false)
  {
    assert c.timers.live - {2} == map[];
  }

  /** The request to change to group II and, after the silence, the category. */
  lemma SendsCategory(c: P.Chan, u: P.Reply)
    requires Registering(c, GI, DnisTxd, false)
    ensures Registering(P.Next(ITU, P.Next(ITU, c, P.MfSample('3', u)), P.MfSample(NO_TONE, u)), GII, CategoryTxd, true)
  {
    var d := P.Next(ITU, c, P.MfSample('3', u));
    assert d == c.(readTone := '3', writeTone := NO_TONE);
  }

  /** The acceptance with charge and, after the silence, the answer timer. */
  lemma HearsAcceptance(c: P.Chan, u: P.Reply)
    requires Registering(c, GII, CategoryTxd, true) && !u.dropOnAccept
    ensures var d := P.Next(ITU, P.Next(ITU, c, P.MfSample('6', u)), P.MfSample(NO_TONE, u));
            && d.r2State == AcceptRxd && d.direction == Forward && d.callState == Dialing
            && d.timers.live == map[3 := Answer] && d.timers.lastId == 3 && P.IdOf(d.timers, BackCycle) == 0
  {
    var d := P.Next(ITU, c, P.MfSample('6', u));
    assert d == c.(readTone := '6', writeTone := NO_TONE);
    assert P.HandleMedia(ITU, d, NO_TONE, u) == P.HandleAcceptTone(ITU, d, WithCharge, u).(readTone := NO_TONE);
  }

  lemma DropsCall(c: P.Chan)
    requires c.r2State == AcceptRxd && c.direction == Forward && c.callState == Dialing
    requires c.timers.live == map[3 := Answer] && c.timers.lastId == 3 && P.IdOf(c.timers, BackCycle) == 0
    ensures Dropped(P.Next(ITU, c, P.Hangup(NormalClearing)))
  {
    var tt := P.AddTimer(c.timers, SetCallDown);
    assert P.CancelTimer(tt, BackCycle) == tt;
    assert P.Next(ITU, c, P.Hangup(NormalClearing)) == P.SendClearForward(P.Emit(c, P.UserHangup));
  }

  lemma ToCategory(c: P.Chan, u: P.Reply)
    requires Placed(c)
    ensures Registering(P.Run(ITU, c, [P.CasSample(BITS_SEIZE_ACK), P.MfSample('3', u), P.MfSample(NO_TONE, u)]),
                        GII, CategoryTxd, true)
  {
    Acknowledged(c);
    SendsCategory(P.Next(ITU, c, P.CasSample(BITS_SEIZE_ACK)), u);
    P.ThreeSteps(ITU, c, P.CasSample(BITS_SEIZE_ACK), P.MfSample('3', u), P.MfSample(NO_TONE, u));
  }

  lemma ToDropped(c: P.Chan, u: P.Reply)
    requires Registering(c, GII, CategoryTxd, true) && !u.dropOnAccept
    ensures Dropped(P.Run(ITU, c, [P.MfSample('6', u), P.MfSample(NO_TONE, u), P.Hangup(NormalClearing)]))
  {
    HearsAcceptance(c, u);
    DropsCall(P.Next(ITU, P.Next(ITU, c, P.MfSample('6', u)), P.MfSample(NO_TONE, u)));
    P.ThreeSteps(ITU, c, P.MfSample('6', u), P.MfSample(NO_TONE, u), P.Hangup(NormalClearing));
  }

  /** An acceptance starts the answer timer, and clearing starts the call-down timer beside it. */
  lemma AcceptedAndDropped()
    ensures Dropped(P.Run(ITU, P.NEW_CHAN, ACCEPTED_AND_DROPPED))
  {
    var u := P.Reply(true, false);
    var first := DROPPED_TWICE[..3];
    var second := [P.CasSample(BITS_SEIZE_ACK), P.MfSample('3', u), P.MfSample(NO_TONE, u)];
    var third := [P.MfSample('6', u), P.MfSample(NO_TONE, u), P.Hangup(NormalClearing)];
    PlacesCall();
    ToCategory(P.Run(ITU, P.NEW_CHAN, first), u);
    P.RunConcat(ITU, P.NEW_CHAN, first, second);
    ToDropped(P.Run(ITU, P.NEW_CHAN, first + second), u);
    P.RunConcat(ITU, P.NEW_CHAN, first + second, third);
    assert ACCEPTED_AND_DROPPED == first + second + third;
  }

  /**
   After that run, a call-down timer that expires before the answer timer ends the call, but if the pass comes only
   after both the answer timeout is called back all the same: the user hears of a disconnection with no call, and the
   channel, at rest in every other respect, refuses to make another.
   */
  lemma LatePassStrandsChannel(accepted: TimeVal, dropped: TimeVal, now: TimeVal)
    requires IsClock(accepted) && IsClock(dropped) && IsClock(now)
    requires Micros(dropped) + 1000 * Duration(ITU, SetCallDown) < Micros(accepted) + 1000 * Duration(ITU, Answer)
    requires Micros(accepted) + 1000 * Duration(ITU, Answer) <= Micros(now)
    ensures var c := P.Run(ITU, P.NEW_CHAN, ACCEPTED_AND_DROPPED);
            var q := Inserted(Inserted([], Entry(Expiry(accepted, Duration(ITU, Answer)), Answer, 3)),
                              Entry(Expiry(dropped, Duration(ITU, SetCallDown)), SetCallDown, 4));
            var d := CallBack(ITU, AfterTake(c, q, now), DueCallbacks(q, now));
            && c.timers.live == LiveOf(q) && DueCallbacks(q, now) == [SetCallDown, Answer]
            && d.log == P.Snoc(P.Snoc(c.log, P.CallEnd), P.CallDisconnect(NoAnswer))
            && d.r2State == Idle && d.direction == Stopped && d.callState == Disconnected && !P.CanMakeCall(d)
  {
    var c := P.Run(ITU, P.NEW_CHAN, ACCEPTED_AND_DROPPED);
    var answer := Entry(Expiry(accepted, Duration(ITU, Answer)), Answer, 3);
    var callDown := Entry(Expiry(dropped, Duration(ITU, SetCallDown)), SetCallDown, 4);
    AcceptedAndDropped();
    ExpiryIsDeadline(accepted, Duration(ITU, Answer));
    ExpiryIsDeadline(dropped, Duration(ITU, SetCallDown));
    SoonerIsEarlier(callDown.time, answer.time);
    InsertedBySoonest(answer, callDown);
    BothDue(callDown, answer, now);
    TwoLive(callDown, answer);
    CallDownThenAnswer(ITU, AfterTake(c, [callDown, answer], now));
  }

  lemma TwoLive(first: Entry, second: Entry)
    requires first.id != second.id
    ensures LiveOf([first, second]) == map[first.id := first.callback, second.id := second.callback]
  {
    assert [first, second][1..] == [second] && [second][1..] == [];
    assert LiveOf([second]) == map[second.id := second.callback];
  }

  lemma CallDownThenAnswer(cfg: Config, c: P.Chan)
    ensures var d := CallBack(cfg, c, [SetCallDown, Answer]);
            && d.log == P.Snoc(P.Snoc(c.log, P.CallEnd), P.CallDisconnect(NoAnswer))
            && d.r2State == Idle && d.direction == Stopped && d.callState == Disconnected && !P.CanMakeCall(d)
  {
    assert [SetCallDown, Answer][..1] == [SetCallDown] && [SetCallDown][..0] == [];
    assert CallBack(cfg, c, [SetCallDown]) == P.ReportCallEnd(c);
  }

  // ---------------------------------------------------------------------------------------
  // A run to a seize timer and a call-down timer

  lemma DroppedTwice()
    ensures P.Run(ITU, P.NEW_CHAN, DROPPED_TWICE).timers.live == map[2 := Seize, 3 := SetCallDown]
  {
    var s := DROPPED_TWICE;
    var c3 := P.Run(ITU, P.NEW_CHAN, s[..3]);
    PlacesCall();
    var c4 := P.Next(ITU, c3, s[3]);
    assert c4 == P.Emit(c3, P.UserHangup).(r2State := SeizeTxdClearFwdPending);
    var c5 := P.Next(ITU, c4, s[4]);
    assert c5 == P.SendClearForward(P.Emit(c4, P.UserHangup));
    assert s == s[..3] + [s[3]] + [s[4]];
    P.RunSnoc(ITU, P.NEW_CHAN, s[..3] + [s[3]], s[4]);
    P.RunSnoc(ITU, P.NEW_CHAN, s[..3], s[3]);
  }

  /**
   The second disconnect clears without stopping the seize timer. A pass that finds both due reports a protocol error
   and then the end of a call that is closed already.
   */
  lemma LatePassClosesTwice(placed: TimeVal, dropped: TimeVal, now: TimeVal)
    requires IsClock(placed) && IsClock(dropped) && IsClock(now) && Micros(placed) <= Micros(dropped)
    requires Micros(dropped) + 1000 * Duration(ITU, SetCallDown) <= Micros(now)
    ensures var c := P.Run(ITU, P.NEW_CHAN, DROPPED_TWICE);
            var q := Inserted(Inserted([], Entry(Expiry(placed, Duration(ITU, Seize)), Seize, 2)),
                              Entry(Expiry(dropped, Duration(ITU, SetCallDown)), SetCallDown, 3));
            var d := CallBack(ITU, AfterTake(c, q, now), DueCallbacks(q, now));
            && c.timers.live == LiveOf(q) && DueCallbacks(q, now) == [Seize, SetCallDown]
            && d.log == P.Snoc(P.Snoc(c.log, P.ProtocolFault(SeizeTimeout)), P.CallEnd)
  {
    var c := P.Run(ITU, P.NEW_CHAN, DROPPED_TWICE);
    var seize := Entry(Expiry(placed, Duration(ITU, Seize)), Seize, 2);
    var callDown := Entry(Expiry(dropped, Duration(ITU, SetCallDown)), SetCallDown, 3);
    DroppedTwice();
    ExpiryIsDeadline(placed, Duration(ITU, Seize));
    ExpiryIsDeadline(dropped, Duration(ITU, SetCallDown));
    SoonerIsEarlier(callDown.time, seize.time);
    InsertedBySoonest(seize, callDown);
    BothDue(seize, callDown, now);
    TwoLive(seize, callDown);
    SeizeThenCallDown(ITU, AfterTake(c, [seize, callDown], now));
  }

  lemma SeizeThenCallDown(cfg: Config, c: P.Chan)
    ensures CallBack(cfg, c, [Seize, SetCallDown]).log ==
            P.Snoc(P.Snoc(c.log, P.ProtocolFault(SeizeTimeout)), P.CallEnd)
  {
    assert [Seize, SetCallDown][..1] == [Seize] && [Seize][..0] == [];
    assert CallBack(cfg, c, [Seize]) == P.ProtocolError(c, SeizeTimeout);
  }
}
