/**
 The table of the line signals: for every state of a channel and all bits the line can show, the state that
 follows, what the user is told, and the call state, the signal sent and the timers. It is written by the bits,
 as in sections 2 and 3 of ITU-T Recommendation Q.422, and apart from the handlers; these follow it.
 */
module LineTable {
  import opened Signals
  import opened Protocol

  /** A field of the table: the call is over, or it goes on with these values. */
  datatype Entry =
    | Over(event: Event)
    | Goes(next: R2State, told: Option<Event>, call: CallState, sent: CasSignal,
           stops: Option<Timer>, starts: Option<Timer>)

  /** Nothing is told, or something is, and all the rest stays as it is. */
  function Quiet(c: Chan, next: R2State): Entry { Goes(next, None, c.callState, c.casTx, None, None) }
  function Noted(c: Chan, event: Event): Entry { Goes(c.r2State, Some(event), c.callState, c.casTx, None, None) }

  /** The far end has released the call. */
  function Dropped(c: Chan, next: R2State, cause: Cause): Entry {
    Goes(next, Some(CallDisconnect(cause)), Disconnected, c.casTx, None, None)
  }

  /** The far end has released an answered call, unless it is a metering pulse. */
  function Cleared(c: Chan, next: R2State, cause: Cause, metering: bool): Entry {
    if metering then Goes(next, None, c.callState, c.casTx, None, Some(MeteringPulse)) else Dropped(c, next, cause)
  }

  /** Both bits 0: a seize from the forward end, a forced release from the backward end. */
  function Seized(c: Chan, metering: bool, acks: bool): Option<Entry> {
    match c.r2State
    case Idle =>
      Some(Goes(SeizeAckTxd, Some(CallInit), Collecting, if acks then CasSeizeAck else c.casTx, None, None))
    case SeizeTxd => Some(Goes(DoubleSeizure, Some(CallDisconnect(Glare)), Disconnected, c.casTx, Some(Seize), None))
    case SeizeTxdClearFwdPending =>
      Some(Goes(DoubleSeizure, Some(CallDisconnect(Glare)), Disconnected, c.casTx, Some(Seize), None))
    case SeizeAckRxd => Some(Dropped(c, ForcedReleaseRxd, ForcedRelease))
    case AcceptRxd => Some(Dropped(c, ForcedReleaseRxd, ForcedRelease))
    case AnswerRxdMfPending => Some(Cleared(c, ForcedReleaseRxd, ForcedRelease, metering))
    case AnswerRxd => Some(Cleared(c, ForcedReleaseRxd, ForcedRelease, metering))
    case ClearFwdTxd => Some(Quiet(c, ClearBackAfterClearFwdRxd))
    case _ => None
  }

  /** The first bit 0, the second 1: an answer, or the end of a metering pulse. */
  function Answers(c: Chan, metering: bool): Option<Entry> {
    match c.r2State
    case SeizeAckRxd => Some(Quiet(c, AnswerRxdMfPending))
    case AcceptRxd => Some(Goes(AnswerRxd, Some(CallAnswered), Answered, c.casTx, Some(Answer), None))
    case ClearBackRxd => if metering then Some(Billed(c)) else None
    case ForcedReleaseRxd => if metering then Some(Billed(c)) else None
    case _ => None
  }

  function Billed(c: Chan): Entry {
    Goes(AnswerRxd, Some(BillingPulse), c.callState, c.casTx, Some(MeteringPulse), None)
  }

  /** The first bit 1, the second 0: idle, or cleared by the forward end. */
  function Clears(c: Chan): Option<Entry> {
    match c.r2State
    case Init => Some(Noted(c, LineIdle))
    case Idle => Some(Noted(c, LineIdle))
    case Blocked => Some(Noted(c, LineIdle))
    case SeizeAckTxd => Some(Dropped(c, ClearFwdRxd, NormalClearing))
    case AnswerTxd => Some(Dropped(c, ClearFwdRxd, NormalClearing))
    case ExecutingDoubleAnswer => Some(Dropped(c, ClearFwdRxd, NormalClearing))
    case DoubleSeizure => Some(Quiet(c, ClearFwdRxd))
    case DoubleSeizureClearFwdPending => Some(Over(CallEnd))
    case ClearBackTxd => Some(Over(CallEnd))
    case ForcedReleaseTxd => Some(Over(CallEnd))
    case ClearBackToneRxd => Some(Over(CallEnd))
    case ClearFwdTxd => Some(Over(CallEnd))
    case ClearBackAfterClearFwdRxd => Some(Over(CallEnd))
    case _ => None
  }

  /** Both bits 1: blocked, a seize acknowledged, or cleared by the backward end. */
  function Acknowledges(c: Chan, metering: bool): Option<Entry> {
    match c.r2State
    case Init => Some(Noted(c, LineBlocked))
    case Idle => Some(Noted(c, LineBlocked))
    case SeizeTxd => Some(Goes(SeizeAckRxd, Some(CallProceed), c.callState, c.casTx, Some(Seize), None))
    case SeizeTxdClearFwdPending =>
      Some(Goes(ClearFwdTxd, None, c.callState, CasClearForward, Some(Seize), Some(SetCallDown)))
    case SeizeAckRxd => Some(Dropped(c, ClearBackRxd, NormalClearing))
    case AcceptRxd => Some(Dropped(c, ClearBackRxd, NormalClearing))
    case AnswerRxdMfPending => Some(Cleared(c, ClearBackRxd, NormalClearing, metering))
    case AnswerRxd => Some(Cleared(c, ClearBackRxd, NormalClearing, metering))
    case ClearFwdTxd => Some(Quiet(c, ClearBackAfterClearFwdRxd))
    case _ => None
  }

  /** Everything else is a fault, but for a channel that is blocked and waits for the line to become idle. */
  function Otherwise(c: Chan): Entry {
    match c.r2State
    case Blocked => Quiet(c, Blocked)
    case Init => Over(ProtocolFault(InvalidR2State))
    case ClearFwdRxd => Over(ProtocolFault(InvalidR2State))
    case _ => Over(ProtocolFault(InvalidCasBits))
  }

  function TableEntry(cfg: Config, c: Chan, bits: Bits): Entry {
    var metering := cfg.timers.meteringPulse != 0;
    var e := if bits == 0x0 then Seized(c, metering, cfg.autoSeizeAck)
             else if bits == 0x4 then Answers(c, metering)
             else if bits == 0x8 then Clears(c)
             else if bits == 0xC then Acknowledges(c, metering)
             else None;
    if e.Some? then e.value else Otherwise(c)
  }

  // ---------------------------------------------------------------------------------------
  // The handler follows the table

  /** A channel without a call: everything a call has set is gone, the bits read and the past remain. */
  function Rested(c: Chan, bits: Bits, event: Event): Chan {
    Chan(Idle, CallIdle, Stopped, MfOff, NoGroup, '\0', '\0', bits, CasIdle, c.inAlarm, false,
         Numbers("", 0, "", None, false, '\0', false), TimerTable(1, map[], map[]), Snoc(c.log, event))
  }

  /** A timer is stopped and then one started; a full scheduler refuses it. */
  function Timed(c: Chan, stops: Option<Timer>, starts: Option<Timer>): Chan {
    var tt := if stops.Some? then CancelTimer(c.timers, stops.value) else c.timers;
    if starts.None? then c.(timers := tt)
    else c.(timers := AddTimer(tt, starts.value),
            log := if |tt.live| >= 10 then Snoc(c.log, TimerSlotsExhausted) else c.log)
  }

  /** An answer and a clear forward turn the register signalling off; an incoming call starts it. */
  function Register(c: Chan, next: R2State, told: Option<Event>): Chan {
    if told == Some(CallAnswered) || next == ClearFwdTxd then MfStopped(c)
    else if told == Some(CallInit) then c.(direction := Backward, mfGroup := BackInit, mfState := MfSeizeAckTxd)
    else c
  }

  function MfStopped(c: Chan): Chan {
    if c.mfState == MfOff then c else c.(mfState := MfOff, timers := CancelTimer(c.timers, BackCycle))
  }

  function Carried(c: Chan, bits: Bits, e: Entry): Chan {
    match e
    case Over(event) => Rested(c, bits, event)
    case Goes(next, told, call, sent, stops, starts) =>
      var d := Register(Timed(c, stops, starts), next, told);
      d.(casRead := bits, r2State := next, callState := call, casTx := sent,
         answered := c.answered || told == Some(CallAnswered),
         log := if told.Some? then Snoc(d.log, told.value) else d.log)
  }

  /** The bits read before, or read in alarm, change nothing. */
  lemma NothingNew(cfg: Config, c: Chan, bits: Bits)
    requires c.casRead == bits || c.inAlarm
    ensures HandleCas(cfg, c, bits) == c
  {
  }

  lemma AtRestFollows(cfg: Config, c: Chan, bits: Bits)
    requires c.casRead != bits && !c.inAlarm
    requires c.r2State.Init? || c.r2State.Idle? || c.r2State.Blocked?
    ensures HandleCas(cfg, c, bits) == Carried(c, bits, TableEntry(cfg, c, bits))
  {
  }

  lemma IncomingFollows(cfg: Config, c: Chan, bits: Bits)
    requires c.casRead != bits && !c.inAlarm
    requires c.r2State.SeizeAckTxd? || c.r2State.AnswerTxd? || c.r2State.ExecutingDoubleAnswer?
    ensures HandleCas(cfg, c, bits) == Carried(c, bits, TableEntry(cfg, c, bits))
  {
    var n := c.(casRead := bits);
    assert HandleCas(cfg, c, bits) == ClearForwardOrError(n, bits);
  }

  lemma SeizingFollows(cfg: Config, c: Chan, bits: Bits)
    requires c.casRead != bits && !c.inAlarm
    requires c.r2State.SeizeTxd?
    ensures bits != 0xC ==> HandleCas(cfg, c, bits) == Carried(c, bits, TableEntry(cfg, c, bits))
  {
    var n := c.(casRead := bits);
    assert HandleCas(cfg, c, bits) == SeizeAnswered(cfg, n, bits);
  }

  lemma GivingFollows(cfg: Config, c: Chan, bits: Bits)
    requires c.casRead != bits && !c.inAlarm
    requires c.r2State.SeizeTxdClearFwdPending?
    ensures HandleCas(cfg, c, bits) == Carried(c, bits, TableEntry(cfg, c, bits))
  {
    var n := c.(casRead := bits);
    assert HandleCas(cfg, c, bits) == SeizeAnswered(cfg, n, bits);
    if bits == 0xC {
      var m := Cancel(n, Seize);
      assert SeizeAnswered(cfg, n, bits) == SendClearForward(m);
    }
  }

  lemma CollidingFollows(cfg: Config, c: Chan, bits: Bits)
    requires c.casRead != bits && !c.inAlarm
    requires c.r2State.DoubleSeizure? || c.r2State.DoubleSeizureClearFwdPending? || c.r2State.ClearFwdRxd?
    ensures HandleCas(cfg, c, bits) == Carried(c, bits, TableEntry(cfg, c, bits))
  {
  }

  lemma SetUpFollows(cfg: Config, c: Chan, bits: Bits)
    requires c.casRead != bits && !c.inAlarm
    requires c.r2State.SeizeAckRxd?
    ensures HandleCas(cfg, c, bits) == Carried(c, bits, TableEntry(cfg, c, bits))
  {
  }

  lemma AcceptedFollows(cfg: Config, c: Chan, bits: Bits)
    requires c.casRead != bits && !c.inAlarm
    requires c.r2State.AcceptRxd?
    ensures HandleCas(cfg, c, bits) == Carried(c, bits, TableEntry(cfg, c, bits))
  {
  }

  lemma PendingFollows(cfg: Config, c: Chan, bits: Bits)
    requires c.casRead != bits && !c.inAlarm
    requires c.r2State.AnswerRxdMfPending?
    ensures HandleCas(cfg, c, bits) == Carried(c, bits, TableEntry(cfg, c, bits))
  {
    var n := c.(casRead := bits);
    assert HandleCas(cfg, c, bits) == ReleaseOrError(cfg, n, bits);
  }

  lemma AnsweredFollows(cfg: Config, c: Chan, bits: Bits)
    requires c.casRead != bits && !c.inAlarm
    requires c.r2State.AnswerRxd?
    ensures HandleCas(cfg, c, bits) == Carried(c, bits, TableEntry(cfg, c, bits))
  {
    var n := c.(casRead := bits);
    assert HandleCas(cfg, c, bits) == ReleaseOrError(cfg, n, bits);
  }

  lemma ReleasedFollows(cfg: Config, c: Chan, bits: Bits)
    requires c.casRead != bits && !c.inAlarm
    requires c.r2State.ClearBackRxd? || c.r2State.ForcedReleaseRxd?
    ensures HandleCas(cfg, c, bits) == Carried(c, bits, TableEntry(cfg, c, bits))
  {
    var n := c.(casRead := bits);
    assert HandleCas(cfg, c, bits) == MeteringOrError(cfg, n, bits);
  }

  lemma ReleasingFollows(cfg: Config, c: Chan, bits: Bits)
    requires c.casRead != bits && !c.inAlarm
    requires c.r2State.ClearBackTxd? || c.r2State.ForcedReleaseTxd? || c.r2State.ClearBackToneRxd?
    ensures HandleCas(cfg, c, bits) == Carried(c, bits, TableEntry(cfg, c, bits))
  {
  }

  lemma ClearingFollows(cfg: Config, c: Chan, bits: Bits)
    requires c.casRead != bits && !c.inAlarm
    requires c.r2State.ClearFwdTxd? || c.r2State.ClearBackAfterClearFwdRxd?
    ensures HandleCas(cfg, c, bits) == Carried(c, bits, TableEntry(cfg, c, bits))
  {
  }

  /**
   New bits, in every state: the channel goes on exactly as the table says. Only what the caller sends when its seize is
   acknowledged is left to the register signals.
   */
  lemma LineFollowsTable(cfg: Config, c: Chan, bits: Bits)
    requires c.casRead != bits && !c.inAlarm && !(c.r2State.SeizeTxd? && bits == 0xC)
    ensures HandleCas(cfg, c, bits) == Carried(c, bits, TableEntry(cfg, c, bits))
  {
    match c.r2State
    case Init => AtRestFollows(cfg, c, bits);
    case Idle => AtRestFollows(cfg, c, bits);
    case Blocked => AtRestFollows(cfg, c, bits);
    case SeizeAckTxd => IncomingFollows(cfg, c, bits);
    case AnswerTxd => IncomingFollows(cfg, c, bits);
    case ExecutingDoubleAnswer => IncomingFollows(cfg, c, bits);
    case SeizeTxd => SeizingFollows(cfg, c, bits);
    case SeizeTxdClearFwdPending => GivingFollows(cfg, c, bits);
    case DoubleSeizure => CollidingFollows(cfg, c, bits);
    case DoubleSeizureClearFwdPending => CollidingFollows(cfg, c, bits);
    case ClearFwdRxd => CollidingFollows(cfg, c, bits);
    case SeizeAckRxd => SetUpFollows(cfg, c, bits);
    case AcceptRxd => AcceptedFollows(cfg, c, bits);
    case AnswerRxdMfPending => PendingFollows(cfg, c, bits);
    case AnswerRxd => AnsweredFollows(cfg, c, bits);
    case ClearBackRxd => ReleasedFollows(cfg, c, bits);
    case ForcedReleaseRxd => ReleasedFollows(cfg, c, bits);
    case ClearBackTxd => ReleasingFollows(cfg, c, bits);
    case ForcedReleaseTxd => ReleasingFollows(cfg, c, bits);
    case ClearBackToneRxd => ReleasingFollows(cfg, c, bits);
    case ClearFwdTxd => ClearingFollows(cfg, c, bits);
    case ClearBackAfterClearFwdRxd => ClearingFollows(cfg, c, bits);
  }

  /** The bits of each signal sent. */
  lemma SignalBits()
    ensures BitsOf(CasIdle) == 0x8 && BitsOf(CasBlock) == 0xC && BitsOf(CasSeize) == 0x0 && BitsOf(CasSeizeAck) == 0xC
    ensures BitsOf(CasClearForward) == 0x8 && BitsOf(CasClearBack) == 0xC && BitsOf(CasForcedRelease) == 0x0
    ensures BitsOf(CasAnswer) == 0x4 && BitsOf(CasInvalid) == 0x0
  {
  }

  // ---------------------------------------------------------------------------------------
  // Releases

  /**
   A release before the answer, or after it without metering: the user is told, at once and nothing else, of a normal
   clearing for both bits 1 and of a forced release for both bits 0.
   */
  lemma ReleaseIsTold(cfg: Config, c: Chan, bits: Bits)
    requires c.casRead != bits && !c.inAlarm && (bits == 0xC || bits == 0x0)
    requires c.r2State == SeizeAckRxd || c.r2State == AcceptRxd ||
             (cfg.timers.meteringPulse == 0 && (c.r2State == AnswerRxd || c.r2State == AnswerRxdMfPending))
    ensures var d := HandleCas(cfg, c, bits);
            && d.log == Snoc(c.log, CallDisconnect(if bits == 0xC then NormalClearing else ForcedRelease))
            && d.r2State == (if bits == 0xC then ClearBackRxd else ForcedReleaseRxd) && d.callState == Disconnected
  {
    LineFollowsTable(cfg, c, bits);
  }

  /** The first bits after an answer, with metering: nothing is told yet, and the pulse timer runs. */
  lemma PulseBegins(cfg: Config, c: Chan, bits: Bits)
    requires cfg.timers.meteringPulse != 0 && (c.r2State == AnswerRxd || c.r2State == AnswerRxdMfPending)
    requires c.casRead != bits && !c.inAlarm && (bits == 0xC || bits == 0x0) && |c.timers.live| < 10
    ensures var d := HandleCas(cfg, c, bits);
            && d.log == c.log && d.callState == c.callState && d.casRead == bits && !d.inAlarm
            && d.r2State == (if bits == 0xC then ClearBackRxd else ForcedReleaseRxd)
            && d.timers == AddTimer(c.timers, MeteringPulse)
  {
    LineFollowsTable(cfg, c, bits);
  }

  /** The pulse timer tells the user of a forced release exactly in the state that follows both bits 0. */
  lemma PulseExpires(cfg: Config, c: Chan, id: int)
    requires id in c.timers.live && c.timers.live[id] == MeteringPulse
    ensures var d := TimerFires(cfg, c, id);
            && d.log == Snoc(c.log, CallDisconnect(if c.r2State == ForcedReleaseRxd then ForcedRelease
                else NormalClearing))
            && d.callState == Disconnected && d.r2State == c.r2State
  {
  }

  /** An answered call with metering, both bits 1 or both bits 0, and the pulse timer: the cause is that of the bits. */
  lemma LongPulseIsRelease(cfg: Config, c: Chan, bits: Bits)
    requires cfg.timers.meteringPulse != 0 && (c.r2State == AnswerRxd || c.r2State == AnswerRxdMfPending)
    requires c.casRead != bits && !c.inAlarm && (bits == 0xC || bits == 0x0) && |c.timers.live| < 10
    ensures var d := Run(cfg, c, [CasSample(bits), Fire(c.timers.lastId + 1)]);
            && d.log == Snoc(c.log, CallDisconnect(if bits == 0xC then NormalClearing else ForcedRelease))
            && d.callState == Disconnected
  {
    var d, id := HandleCas(cfg, c, bits), c.timers.lastId + 1;
    assert Run(cfg, c, [CasSample(bits), Fire(id)]) == TimerFires(cfg, d, id) by {
      TwoSteps(cfg, c, CasSample(bits), Fire(id));
    }
    PulseBegins(cfg, c, bits);
    assert d.timers.live == c.timers.live[id := MeteringPulse];
    PulseExpires(cfg, d, id);
  }

  lemma PulseEnds(cfg: Config, c: Chan)
    requires cfg.timers.meteringPulse != 0 && (c.r2State == ClearBackRxd || c.r2State == ForcedReleaseRxd)
    requires c.casRead != 0x4 && !c.inAlarm
    ensures var d := HandleCas(cfg, c, 0x4);
            && d.log == Snoc(c.log, BillingPulse) && d.callState == c.callState && d.r2State == AnswerRxd
            && d.timers == CancelTimer(c.timers, MeteringPulse)
  {
    LineFollowsTable(cfg, c, 0x4);
  }

  /** The same bits followed by those of an answer: a billing pulse and nothing else, and the timer is off. */
  lemma ShortPulseIsBilled(cfg: Config, c: Chan, bits: Bits)
    requires cfg.timers.meteringPulse != 0 && (c.r2State == AnswerRxd || c.r2State == AnswerRxdMfPending)
    requires c.casRead != bits && !c.inAlarm && (bits == 0xC || bits == 0x0)
    requires |c.timers.live| < 10 && 1 <= c.timers.lastId && c.timers.lastId + 1 !in c.timers.live
    ensures var d := Run(cfg, c, [CasSample(bits), CasSample(0x4)]);
            && d.log == Snoc(c.log, BillingPulse) && d.callState == c.callState && d.r2State == AnswerRxd
            && d.timers.live == c.timers.live
  {
    var d := HandleCas(cfg, c, bits);
    assert Run(cfg, c, [CasSample(bits), CasSample(0x4)]) == HandleCas(cfg, d, 0x4) by {
      TwoSteps(cfg, c, CasSample(bits), CasSample(0x4));
    }
    PulseBegins(cfg, c, bits);
    PulseEnds(cfg, d);
    StartedThenStopped(c.timers, MeteringPulse);
  }

  lemma StartedThenStopped(tt: TimerTable, t: Timer)
    requires |tt.live| < 10 && 1 <= tt.lastId && tt.lastId + 1 !in tt.live && t != SetCallDown
    ensures CancelTimer(AddTimer(tt, t), t).live == tt.live
  {
    var id := tt.lastId + 1;
    assert AddTimer(tt, t) == StoreId(tt.(lastId := id, live := tt.live[id := t]), t, id);
    assert tt.live[id := t] - {id} == tt.live;
  }
}
