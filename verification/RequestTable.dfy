/**
 The table of the timers, the requests of the user and the alarms: what each of them does to a channel, written apart
 from the handlers.
 */
module RequestTable {
  import opened Signals
  import opened Protocol
  import opened LineTable
  import opened RegisterTable
  import opened CalleeTable

  // ---------------------------------------------------------------------------------------
  // Timers

  /** Clear forward, with the call-down timer running. */
  function ClearsForward(c: Chan): Chan {
    MfStopped(Timed(c, None, Some(SetCallDown))).(r2State := ClearFwdTxd, casTx := CasClearForward)
  }

  /** The callee has waited in vain: without a tone for the end of a number it takes that for the end. */
  function CycleExpires(cfg: Config, c: Chan): Chan {
    if cfg.g1.noMoreDnis == '\0' && c.mfGroup == GA && (c.mfState == DnisRqTxd || c.mfState == AniRqTxd) then
      Asks(cfg, Timed(c, None, Some(BackResumeCycle)),
           if cfg.getAniFirst || cfg.aniCanComeFirst then Decision else Category)
    else Rested(c, c.casRead, ProtocolFault(BackMfTimeout))
  }

  /** The answer is interrupted once by a clear back. */
  function AnswersTwice(c: Chan): Chan {
    match c.r2State
    case AnswerTxd =>
      Timed(MfStopped(c).(r2State := ExecutingDoubleAnswer, casTx := CasClearBack), None, Some(DoubleAnswer))
    case ExecutingDoubleAnswer => c.(r2State := AnswerTxd, casTx := CasAnswer)
    case _ => c
  }

  function Expires(cfg: Config, c: Chan, t: Timer): Chan {
    match t
    case FwdSafety => Rested(c, c.casRead, ProtocolFault(FwdSafetyTimeout))
    case Seize => Rested(c, c.casRead, ProtocolFault(SeizeTimeout))
    case SetCallDown => Rested(c, c.casRead, CallEnd)
    case SeizePersist => ClearsForward(c)
    case Answer => c.(callState := Disconnected, log := Snoc(c.log, CallDisconnect(NoAnswer)))
    case MeteringPulse =>
      c.(callState := Disconnected,
         log := Snoc(c.log, CallDisconnect(if c.r2State == ForcedReleaseRxd then ForcedRelease else NormalClearing)))
    case AnswerDelay => c.(log := Snoc(c.log, CallAccepted(UnknownMode)))
    case DoubleAnswer => AnswersTwice(c)
    case BackCycle => CycleExpires(cfg, c)
    case BackResumeCycle => c.(writeTone := '\0')
  }

  lemma CycleFollowsTable(cfg: Config, c: Chan)
    requires c.direction == Backward
    ensures MfBackCycleExpired(cfg, c) == CycleExpires(cfg, c)
  {
    var d := Timed(c, None, Some(BackResumeCycle));
    AsksCategory(cfg, d);
    DecidesCall(cfg, d);
  }

  lemma AnswerFollowsTable(cfg: Config, c: Chan)
    ensures DoubleAnswerExpired(c) == AnswersTwice(c)
  {
    if c.r2State == AnswerTxd {
      var d := SendClearBackward(c).(r2State := ExecutingDoubleAnswer);
      assert d == MfStopped(c).(r2State := ExecutingDoubleAnswer, casTx := CasClearBack);
    }
  }

  /** A timer that expires is gone, and its callback does what the table says. The cycle timer is one of the callee. */
  lemma TimerFollowsTable(cfg: Config, c: Chan, id: int)
    requires id in c.timers.live && (c.timers.live[id] == BackCycle ==> c.direction == Backward)
    ensures TimerFires(cfg, c, id) ==
            Expires(cfg, c.(timers := c.timers.(live := c.timers.live - {id})), c.timers.live[id])
  {
    var d := c.(timers := c.timers.(live := c.timers.live - {id}));
    assert TimerFires(cfg, c, id) == Dispatch(cfg, d, c.timers.live[id]);
    match c.timers.live[id] {
      case BackCycle => CycleFollowsTable(cfg, d);
      case DoubleAnswer => AnswerFollowsTable(cfg, d);
      case SeizePersist => assert SendClearForward(d) == ClearsForward(d);
      case BackResumeCycle => assert SetSilence(d) == d.(writeTone := '\0');
      case _ =>
    }
  }

  // ---------------------------------------------------------------------------------------
  // Placing, accepting and answering

  /** Strings are cut to seventy-nine characters. */
  function Cut(s: string): string { if |s| > 79 then s[..79] else s }

  predicate Digits(s: string) { forall i :: 0 <= i < |s| ==> Decimal(s[i]) }

  /** Only on an idle channel without alarm whose far end shows both idle bits. A number that is none is not sent. */
  function Places(cfg: Config, c: Chan, ani: Option<string>, dnis: string, category: Category, restricted: bool): Chan {
    if c.inAlarm || c.callState != CallIdle || c.casRead != 0x8 then c
    else
      var caller := ani.Some? && Digits(ani.value);
      var d := Timed(c, None, Some(Seize));
      d.(r2State := SeizeTxd, casTx := CasSeize, callState := Dialing, direction := Forward, mfGroup := FwdInit,
         num := Numbers(if Digits(dnis) then Cut(dnis) else "", 0,
                        if caller then Cut(ani.value) else "", if caller then Some(0) else None,
                        restricted, CategoryToTone(cfg, category), c.num.categorySent),
         log := Snoc(d.log, CallPlaced))
  }

  lemma DigitsAreDecimal(s: string)
    ensures AllDigits(s) <==> Digits(s)
  {
  }

  lemma PlaceFollowsTable(cfg: Config, c: Chan, ani: Option<string>, dnis: string, category: Category, restricted: bool)
    ensures MakeCall(cfg, c, ani, dnis, category, restricted) == Places(cfg, c, ani, dnis, category, restricted)
  {
    DigitsAreDecimal(dnis);
    if ani.Some? { DigitsAreDecimal(ani.value); }
  }

  /** Only a call that was offered. */
  lemma AcceptFollowsTable(cfg: Config, c: Chan, mode: CallMode)
    requires c.direction == Backward
    ensures AcceptCall(cfg, c, mode) ==
            if c.callState != Offered then c
            else Sounds(c.(mfState := AcceptedTxd),
                        if mode == WithCharge then cfg.gb.acceptCharge
                        else if mode == Special then cfg.gb.specialInfo else cfg.gb.acceptNoCharge)
  {
  }

  /** Only a call that was accepted. */
  lemma PickupFollowsTable(c: Chan, double: bool)
    ensures AnswerCall(c, double) ==
            if c.callState != Accepted then c
            else
              var d := c.(r2State := AnswerTxd, callState := Answered, casTx := CasAnswer, answered := true);
              if double then Timed(d, None, Some(DoubleAnswer)) else d
  {
  }

  // ---------------------------------------------------------------------------------------
  // Hanging up

  /** The tone for a cause. */
  function Rejection(cfg: Config, cause: Cause): Tone {
    if cause == BusyNumber && cfg.gb.busy != '\0' then cfg.gb.busy
    else if cause == UnallocatedNumber && cfg.gb.unallocated != '\0' then cfg.gb.unallocated
    else if cause == OutOfOrder && cfg.gb.outOfOrder != '\0' then cfg.gb.outOfOrder
    else if cause == NumberChanged && cfg.gb.numberChanged != '\0' then cfg.gb.numberChanged
    else if cause == NumberChanged && cfg.gb.unallocated != '\0' then cfg.gb.unallocated
    else cfg.gb.congestion
  }

  /**
   A call that was offered is rejected with a tone, any other is cleared on the line unless the caller has cleared.
   */
  function CalleeDrops(cfg: Config, c: Chan, cause: Cause): Chan {
    if c.callState == Offered then Sounds(c.(mfState := DisconnectTxd), Rejection(cfg, cause))
    else if c.r2State == ClearFwdRxd then Rested(c, c.casRead, CallEnd)
    else if cause == ForcedRelease then MfStopped(c).(r2State := ForcedReleaseTxd, casTx := CasForcedRelease)
    else MfStopped(c).(r2State := ClearBackTxd, casTx := CasClearBack)
  }

  /** A seize is held until it is acknowledged, and after a collision until the persist timer expires. */
  function CallerDrops(c: Chan): Chan {
    match c.r2State
    case SeizeTxd => c.(r2State := SeizeTxdClearFwdPending)
    case DoubleSeizure => Timed(c.(r2State := DoubleSeizureClearFwdPending), None, Some(SeizePersist))
    case ClearFwdRxd => Rested(c, c.casRead, CallEnd)
    case _ => ClearsForward(c)
  }

  lemma RejectionTone(cfg: Config, cause: Cause)
    ensures RejectTone(cfg, cause) == Rejection(cfg, cause)
  {
  }

  lemma CalleeDropsCall(cfg: Config, c: Chan, cause: Cause)
    requires c.direction == Backward
    ensures BackwardHangup(cfg, c, cause) == CalleeDrops(cfg, c, cause)
  {
    RejectionTone(cfg, cause);
    if c.callState == Offered { SoundsPrepared(c.(mfState := DisconnectTxd), Rejection(cfg, cause)); }
  }

  lemma CallerDropsCall(c: Chan)
    ensures ForwardHangup(c) == CallerDrops(c)
  {
    assert SendClearForward(c) == ClearsForward(c);
  }

  /** A request to hang up is told first; without a call there is nothing to hang up. */
  lemma HangupFollowsTable(cfg: Config, c: Chan, cause: Cause)
    ensures DisconnectCall(cfg, c, cause) ==
            if c.callState == CallIdle then c
            else
              var d := c.(log := Snoc(c.log, UserHangup));
              if c.direction == Backward then CalleeDrops(cfg, d, cause) else CallerDrops(d)
  {
    var d := c.(log := Snoc(c.log, UserHangup));
    if c.callState != CallIdle {
      if c.direction == Backward { CalleeDropsCall(cfg, d, cause); } else { CallerDropsCall(d); }
    }
  }

  // ---------------------------------------------------------------------------------------
  // Resets and alarms

  /** A reset to blocked sends the block signal. */
  function Blocks(c: Chan): Chan { Rested(c, c.casRead, Reset).(r2State := Blocked, casTx := CasBlock) }

  lemma ResetsFollowTable(cfg: Config, c: Chan)
    ensures Next(cfg, c, ResetIdle) == Rested(c, c.casRead, Reset)
    ensures Next(cfg, c, ResetBlocked) == Blocks(c)
    ensures Next(cfg, c, Ack) == c.(casTx := CasSeizeAck)
  {
  }

  /** A new channel has no call either, but knows nothing of the line and sends nothing. */
  lemma NewIsAtRest()
    ensures NEW_CHAN == Rested(NEW_CHAN, 0x0, Reset).(r2State := Init, casTx := CasInvalid, log := Empty)
  {
  }

  /** A timer takes the next id and a slot, or none and its field is -1; the call-down timer has no field. */
  lemma TimerStarted(tt: TimerTable, t: Timer)
    ensures var d := AddTimer(tt, t);
            && d.lastId == (if |tt.live| < 10 then tt.lastId + 1 else tt.lastId)
            && d.live == (if |tt.live| < 10 then tt.live[tt.lastId + 1 := t] else tt.live)
            && d.ids == (if t == SetCallDown then tt.ids
                         else tt.ids[t := if |tt.live| < 10 then tt.lastId + 1 else -1])
  {
  }

  /** Stopping a timer frees the slot its field names, if it is in use, and clears the field. */
  lemma TimerStopped(tt: TimerTable, t: Timer)
    ensures var d := CancelTimer(tt, t);
            d == if t in tt.ids && tt.ids[t] > 0 && tt.ids[t] in tt.live then
                   TimerTable(tt.lastId, tt.ids[t := 0], tt.live - {tt.ids[t]})
                 else tt
  {
  }

  /** An alarm is a fault of the call it meets. The bits read are forgotten and none are sent. */
  lemma AlarmFollowsTable(c: Chan)
    ensures var d := c.(inAlarm := true, log := Snoc(c.log, HardwareAlarm(true)));
            AlarmOn(c) == (if c.callState == CallIdle then d else Rested(d, 0x0, ProtocolFault(AlarmRaised)))
                          .(casRead := 0x0, casTx := CasInvalid)
  {
  }

  /** The end of an alarm resets the channel, to blocked if it was, and the bits on the line are read. */
  lemma AlarmEndFollowsTable(cfg: Config, c: Chan, bits: Bits)
    ensures var told := c.(inAlarm := false, log := Snoc(c.log, HardwareAlarm(false)));
            var d := if c.r2State == Blocked then Blocks(told) else Rested(told, c.casRead, Reset);
            AlarmOff(cfg, c, bits) == if bits == c.casRead then d else Carried(d, bits, TableEntry(cfg, d, bits))
  {
    var told := c.(inAlarm := false, log := Snoc(c.log, HardwareAlarm(false)));
    var d := if c.r2State == Blocked then Blocks(told) else Rested(told, c.casRead, Reset);
    assert AlarmOff(cfg, c, bits) == HandleCas(cfg, d, bits);
    if bits != c.casRead { LineFollowsTable(cfg, d, bits); }
  }
}
