/**
 The call protocol of one channel as a function from state to state. Every handler of the protocol
 file has a function of the same name here; the class in Channel.dfy is proved against them.
 */
module Protocol {
  import opened Signals

  // ---------------------------------------------------------------------------------------
  // Events and channel state

  /** What a channel tells its user, plus the user requests that start, drop or reset a call. */
  datatype Event =
    | CallInit | CallPlaced | CallProceed
    | CallOffered(ani: string, dnis: string, category: Category, restricted: bool)
    | CallAccepted(mode: CallMode) | CallAnswered | CallDisconnect(cause: Cause) | CallEnd
    | ProtocolFault(reason: ErrorReason)
    | LineIdle | LineBlocked | BillingPulse | DnisDigit(digit: Tone) | AniDigit(digit: Tone)
    | HardwareAlarm(on: bool)
    | UserHangup | Reset
    | TimerSlotsExhausted

  datatype History = Empty | Snoc(prev: History, last: Event)

  /** The scheduler as the protocol sees it: the last id given out, the timer_ids fields, the live entries. */
  datatype TimerTable = TimerTable(lastId: int, ids: map<Timer, int>, live: map<int, Timer>)

  /** The numbers and the category of the call. */
  datatype Numbers = Numbers(
    dnis: string, dnisIndex: int, ani: string, aniPtr: Option<int>,
    restricted: bool, category: Tone, categorySent: bool)

  datatype Chan = Chan(
    r2State: R2State, callState: CallState, direction: Direction,
    mfState: MfState, mfGroup: MfGroup, writeTone: Tone, readTone: Tone,
    casRead: Bits, casTx: CasSignal, inAlarm: bool, answered: bool,
    num: Numbers, timers: TimerTable, log: History)

  const MAX_SCHED_TIMERS: nat := 10

  /** A channel as it is created: no state yet, nothing read or written. */
  const NEW_CHAN: Chan :=
    Chan(Init, CallIdle, Stopped, MfOff, NoGroup, NO_TONE, NO_TONE, 0x0, CasInvalid, false, false,
         NO_NUMBERS, NO_TIMERS, Empty)

  const NO_NUMBERS: Numbers := Numbers("", 0, "", None, false, NO_TONE, false)
  const NO_TIMERS: TimerTable := TimerTable(1, map[], map[])

  /** What the callbacks answer: keep asking for DNIS, and whether on_call_accepted drops the call. */
  datatype Reply = Reply(moreDnis: bool, dropOnAccept: bool)

  function Emit(c: Chan, e: Event): Chan { c.(log := Snoc(c.log, e)) }

  // ---------------------------------------------------------------------------------------
  // Timers

  predicate SlotsFull(tt: TimerTable) { |tt.live| >= MAX_SCHED_TIMERS }

  function IdOf(tt: TimerTable, t: Timer): int { if t in tt.ids then tt.ids[t] else 0 }

  /** Stores the result of openr2_chan_add_timer in the field of its purpose; the call-down timer has none. */
  function StoreId(tt: TimerTable, t: Timer, id: int): TimerTable {
    tt.(ids := if t == SetCallDown then tt.ids else tt.ids[t := id])
  }

  function AddTimer(tt: TimerTable, t: Timer): TimerTable {
    if SlotsFull(tt) then StoreId(tt, t, -1)
    else StoreId(tt.(lastId := tt.lastId + 1, live := tt.live[tt.lastId + 1 := t]), t, tt.lastId + 1)
  }

  /** openr2_chan_cancel_timer on the field of a purpose. A stale id is left in place. */
  function CancelTimer(tt: TimerTable, t: Timer): TimerTable {
    var id := IdOf(tt, t);
    if id < 1 || id !in tt.live then tt
    else tt.(live := tt.live - {id}, ids := tt.ids[t := 0])
  }

  function Schedule(c: Chan, t: Timer): Chan {
    c.(timers := AddTimer(c.timers, t),
       log := if SlotsFull(c.timers) then Snoc(c.log, TimerSlotsExhausted) else c.log)
  }

  function Cancel(c: Chan, t: Timer): Chan { c.(timers := CancelTimer(c.timers, t)) }

  function CancelAll(c: Chan): Chan { c.(timers := NO_TIMERS) }

  // ---------------------------------------------------------------------------------------
  // Reset, error and end of call

  function TurnOffMf(c: Chan): Chan {
    if c.mfState == MfOff then c else Cancel(c, BackCycle).(mfState := MfOff)
  }

  function ProtoInit(c: Chan): Chan {
    c.(timers := NO_TIMERS, num := NO_NUMBERS,
       r2State := Idle, mfState := MfOff, mfGroup := NoGroup, callState := CallIdle, direction := Stopped,
       answered := false, writeTone := NO_TONE, readTone := NO_TONE)
  }

  function SetIdle(c: Chan): Chan { ProtoInit(c).(casTx := CasIdle) }

  function SetBlocked(c: Chan): Chan { ProtoInit(c).(r2State := Blocked, casTx := CasBlock) }

  function ProtocolError(c: Chan, reason: ErrorReason): Chan {
    Emit(SetIdle(c), ProtocolFault(reason))
  }

  function ReportDisconnection(c: Chan, cause: Cause): Chan {
    Emit(c.(callState := Disconnected), CallDisconnect(cause))
  }

  function ReportCallEnd(c: Chan): Chan { Emit(SetIdle(c), CallEnd) }

  // ---------------------------------------------------------------------------------------
  // Tone transmission

  function PrepareTone(c: Chan, tone: Tone): Chan {
    if c.writeTone == tone then c
    else
      var c1 := if tone != NO_TONE && c.direction == Backward then Schedule(c, BackCycle) else c;
      c1.(writeTone := tone)
  }

  function SetSilence(c: Chan): Chan { PrepareTone(c, NO_TONE).(writeTone := NO_TONE) }

  // ---------------------------------------------------------------------------------------
  // Forward side

  /** The DNIS digit at the index, or NUL past the end of the string. */
  function DnisAt(n: Numbers): Tone {
    if 0 <= n.dnisIndex < |n.dnis| then n.dnis[n.dnisIndex] else NO_TONE
  }

  function MoveDnis(n: Numbers, offset: int): Numbers {
    n.(dnisIndex := if offset < 0 && n.dnisIndex < -offset then 0 else n.dnisIndex + offset)
  }

  /** mf_send_dnis; the callers pass offsets from -3 to 1. */
  function SendDnis(cfg: Config, c: Chan, offset: int): Chan {
    var c := c.(num := MoveDnis(c.num, offset));
    if DnisAt(c.num) != NO_TONE then
      PrepareTone(c.(mfState := DnisTxd), DnisAt(c.num))
    else if cfg.g1.noMoreDnis != NO_TONE && c.mfState != DnisEndTxd && c.mfState != WaitingTimeout then
      PrepareTone(c.(mfState := DnisEndTxd), cfg.g1.noMoreDnis)
    else
      Schedule(c.(mfState := WaitingTimeout), FwdSafety)
  }

  function SendCategory(c: Chan): Chan {
    PrepareTone(c.(mfState := CategoryTxd, num := c.num.(categorySent := true)), c.num.category)
  }

  /** The ANI digit under the pointer, or NUL at the end of the string. */
  function AniAt(n: Numbers): Tone {
    if n.aniPtr.Some? && 0 <= n.aniPtr.value < |n.ani| then n.ani[n.aniPtr.value] else NO_TONE
  }

  function SendAni(cfg: Config, c: Chan): Chan {
    if c.mfState == AniEndTxd && (cfg.ga.nextDnis == cfg.ga.nextAni || cfg.ga.nextDnis == cfg.gc.nextAni) then
      SendDnis(cfg, c.(mfGroup := GI), 1)
    else if cfg.g1.restricted != NO_TONE && c.num.aniPtr.None? then
      PrepareTone(c.(mfState := AniEndTxd), cfg.g1.restricted)
    else if AniAt(c.num) != NO_TONE then
      var c1 := PrepareTone(c.(mfState := AniTxd), AniAt(c.num));
      c1.(num := c1.num.(aniPtr := Some(c1.num.aniPtr.value + 1)))
    else if cfg.g1.noMoreAni != NO_TONE && !c.num.restricted then
      PrepareTone(c.(mfState := AniEndTxd), cfg.g1.noMoreAni)
    else if cfg.g1.restricted != NO_TONE && c.num.restricted then
      PrepareTone(c.(mfState := AniEndTxd), cfg.g1.restricted)
    else
      Schedule(c.(mfState := WaitingTimeout), FwdSafety)
  }

  function SendClearForward(c: Chan): Chan {
    TurnOffMf(Schedule(c, SetCallDown).(r2State := ClearFwdTxd)).(casTx := CasClearForward)
  }

  /** get_mode_from_tone: the last two tests look at the table, not at the tone. */
  function ModeFromTone(cfg: Config, tone: Tone): CallMode {
    if tone == cfg.gb.acceptCharge then WithCharge
    else if cfg.gb.acceptNoCharge != NO_TONE then NoCharge
    else if cfg.gb.specialInfo != NO_TONE then Special
    else UnknownMode
  }

  function MarkAnswered(c: Chan): Chan {
    Emit(TurnOffMf(Cancel(c, Answer).(r2State := AnswerRxd, callState := Answered)).(answered := true), CallAnswered)
  }

  /** handle_accept_tone, with the disconnection a user may request from inside on_call_accepted. */
  function HandleAcceptTone(cfg: Config, c: Chan, mode: CallMode, u: Reply): Chan {
    if c.r2State == AnswerRxdMfPending then
      var c1 := AcceptedCallback(cfg, Emit(c.(r2State := AcceptRxd), CallAccepted(mode)), u);
      if c1.r2State != AcceptRxd || c1.mfState != c.mfState || c1.callState != c.callState then c1
      else MarkAnswered(c1)
    else
      AcceptedCallback(cfg, Emit(Schedule(c.(r2State := AcceptRxd), Answer), CallAccepted(mode)), u)
  }

  function AcceptedCallback(cfg: Config, c: Chan, u: Reply): Chan {
    if u.dropOnAccept then DisconnectCall(cfg, c, NormalClearing) else c
  }

  function RejectedByTone(c: Chan, cause: Cause): Chan {
    ReportDisconnection(c.(r2State := ClearBackToneRxd), cause)
  }

  predicate IsDnisRequest(cfg: Config, tone: Tone) {
    tone == cfg.ga.nextDnis || tone == cfg.ga.dnisMinus1 || tone == cfg.ga.dnisMinus2 ||
    tone == cfg.ga.dnisMinus3 || tone == cfg.ga.allDnisAgain
  }

  function HandleDnisRequest(cfg: Config, c: Chan, tone: Tone): Chan
    requires IsDnisRequest(cfg, tone)
  {
    if tone == cfg.ga.nextDnis then SendDnis(cfg, c, 1)
    else if tone == cfg.ga.dnisMinus1 then SendDnis(cfg, c, -1)
    else if tone == cfg.ga.dnisMinus2 then SendDnis(cfg, c, -2)
    else if tone == cfg.ga.dnisMinus3 then SendDnis(cfg, c, -3)
    else SendDnis(cfg, c.(num := c.num.(dnisIndex := 0)), 0)
  }

  function CategoryRequestTone(cfg: Config): Tone {
    if cfg.ga.category != NO_TONE then cfg.ga.category else cfg.ga.categoryAndGc
  }

  function HandleGroupARequest(cfg: Config, c: Chan, tone: Tone, u: Reply): Chan {
    if IsDnisRequest(cfg, tone) then HandleDnisRequest(cfg, c, tone)
    else if c.num.categorySent && tone == cfg.ga.nextAni then SendAni(cfg, c)
    else if tone == CategoryRequestTone(cfg) then
      SendCategory(if CategoryRequestTone(cfg) == cfg.ga.categoryAndGc then c.(mfGroup := GIII) else c)
    else if tone == cfg.ga.changeToG2 then SendCategory(c.(mfGroup := GII))
    else if tone == cfg.ga.addressComplete then HandleAcceptTone(cfg, c, WithCharge, u)
    else if tone == cfg.ga.congestion then RejectedByTone(c, NetworkCongestion)
    else ProtocolError(c, InvalidMfTone)
  }

  function HandleGroupBRequest(cfg: Config, c: Chan, tone: Tone, u: Reply): Chan {
    if tone == cfg.gb.acceptCharge || tone == cfg.gb.acceptNoCharge || tone == cfg.gb.specialInfo then
      HandleAcceptTone(cfg, c, ModeFromTone(cfg, tone), u)
    else if tone == cfg.gb.busy then RejectedByTone(c, BusyNumber)
    else if tone == cfg.gb.congestion then RejectedByTone(c, NetworkCongestion)
    else if tone == cfg.gb.unallocated then RejectedByTone(c, UnallocatedNumber)
    else if tone == cfg.gb.numberChanged then RejectedByTone(c, NumberChanged)
    else if tone == cfg.gb.outOfOrder then RejectedByTone(c, OutOfOrder)
    else ProtocolError(c, InvalidMfTone)
  }

  function HandleGroupCRequest(cfg: Config, c: Chan, tone: Tone): Chan {
    if tone == cfg.gc.nextAni then SendAni(cfg, c)
    else if tone == cfg.gc.changeToG2 then SendCategory(c.(mfGroup := GII))
    else if tone == cfg.gc.nextDnisAndGa then SendDnis(cfg, c.(mfGroup := GI), 1)
    else if tone == cfg.gc.congestion then RejectedByTone(c, NetworkCongestion)
    else ProtocolError(c, InvalidMfTone)
  }

  function HandleBackwardTone(c: Chan): Chan { SetSilence(Cancel(c, FwdSafety)) }

  function HandleBackwardSilence(cfg: Config, c: Chan, tone: Tone, u: Reply): Chan {
    match c.mfGroup
    case GI => HandleGroupARequest(cfg, c, tone, u)
    case GII => HandleGroupBRequest(cfg, c, tone, u)
    case GIII => HandleGroupCRequest(cfg, c, tone)
    case _ => ProtocolError(c, InvalidMfGroup)
  }

  // ---------------------------------------------------------------------------------------
  // Backward side

  function ToneToCategory(cfg: Config, tone: Tone): Category {
    if cfg.g2.national == tone then NationalSubscriber
    else if cfg.g2.nationalPriority == tone then NationalPrioritySubscriber
    else if cfg.g2.international == tone then InternationalSubscriber
    else if cfg.g2.internationalPriority == tone then InternationalPrioritySubscriber
    else if cfg.g2.collect == tone then CollectCall
    else if cfg.g2.testEquipment == tone then TestEquipment
    else if cfg.g2.payPhone == tone then PayPhone
    else UnknownCategory
  }

  function CategoryToTone(cfg: Config, category: Category): Tone {
    match category
    case NationalSubscriber => cfg.g2.national
    case NationalPrioritySubscriber => cfg.g2.nationalPriority
    case InternationalSubscriber => cfg.g2.international
    case InternationalPrioritySubscriber => cfg.g2.internationalPriority
    case CollectCall => cfg.g2.collect
    case TestEquipment => cfg.g2.testEquipment
    case PayPhone => cfg.g2.payPhone
    case UnknownCategory => cfg.g2.national
  }

  function ToneFromMode(cfg: Config, mode: CallMode): Tone {
    match mode
    case WithCharge => cfg.gb.acceptCharge
    case NoCharge => cfg.gb.acceptNoCharge
    case Special => cfg.gb.specialInfo
    case UnknownMode => cfg.gb.acceptNoCharge
  }

  /** The tone send_disconnect settles on. */
  function RejectTone(cfg: Config, cause: Cause): Tone {
    var tone :=
      match cause
      case BusyNumber => cfg.gb.busy
      case NetworkCongestion => cfg.gb.congestion
      case UnallocatedNumber => cfg.gb.unallocated
      case NumberChanged => if cfg.gb.numberChanged != NO_TONE then cfg.gb.numberChanged else cfg.gb.unallocated
      case OutOfOrder => cfg.gb.outOfOrder
      case _ => cfg.gb.congestion;
    if tone == NO_TONE then cfg.gb.congestion else tone
  }

  predicate DnisComplete(cfg: Config, c: Chan) { |c.num.dnis| >= Uint32(cfg.maxDnis) }

  function OfferCall(cfg: Config, c: Chan): Chan {
    if c.callState != Collecting then ProtocolError(c, InvalidR2State)
    else Emit(c.(callState := Offered), CallOffered(c.num.ani, c.num.dnis, ToneToCategory(cfg, c.num.category),
        c.num.restricted))
  }

  function RequestCategory(cfg: Config, c: Chan): Chan {
    PrepareTone(c.(mfGroup := if cfg.ga.category != NO_TONE then GA else GC, mfState := CategoryRqTxd),
                CategoryRequestTone(cfg))
  }

  function BypassChangeToG2(cfg: Config, c: Chan): Chan {
    OfferCall(cfg, PrepareTone(c.(mfState := AcceptedTxd), cfg.ga.addressComplete))
  }

  function RequestChangeToG2(cfg: Config, c: Chan): Chan {
    PrepareTone(c.(mfGroup := GB, mfState := ChgGiiTxd),
                if c.mfGroup == GC then cfg.gc.changeToG2 else cfg.ga.changeToG2)
  }

  function TryChangeToG2(cfg: Config, c: Chan): Chan {
    if cfg.immediateAccept then BypassChangeToG2(cfg, c) else RequestChangeToG2(cfg, c)
  }

  function TryRequestCategory(cfg: Config, c: Chan): Chan {
    if cfg.skipCategory then TryChangeToG2(cfg, c) else RequestCategory(cfg, c)
  }

  function RequestNextDnis(cfg: Config, c: Chan): Chan {
    PrepareTone(c.(mfGroup := GA, mfState := DnisRqTxd),
                if c.mfGroup == GC then cfg.gc.nextDnisAndGa else cfg.ga.nextDnis)
  }

  function StoreDnis(c: Chan, tone: Tone): Chan {
    Emit(c.(num := if |c.num.dnis| == MAX_DIGITS - 1 then c.num else c.num.(dnis := c.num.dnis + [tone])),
        DnisDigit(tone))
  }

  function ReceiveDnis(cfg: Config, c: Chan, tone: Tone, u: Reply): Chan {
    if IsDigit(tone) then
      var c := StoreDnis(c, tone);
      if DnisComplete(cfg, c) || !u.moreDnis then
        if |c.num.dnis| == 1 || !cfg.getAniFirst then TryRequestCategory(cfg, c) else TryChangeToG2(cfg, c)
      else if |c.num.dnis| == 1 && cfg.getAniFirst then TryRequestCategory(cfg, c)
      else RequestNextDnis(cfg, c)
    else if cfg.g1.noMoreDnis == tone then
      if |c.num.dnis| == 0 || !cfg.getAniFirst then TryRequestCategory(cfg, c) else TryChangeToG2(cfg, c)
    else ProtocolError(c, InvalidMfTone)
  }

  function AfterAni(cfg: Config, c: Chan): Chan {
    if !cfg.getAniFirst || DnisComplete(cfg, c) then TryChangeToG2(cfg, c) else RequestNextDnis(cfg, c)
  }

  function RequestNextAni(cfg: Config, c: Chan): Chan {
    PrepareTone(c.(mfState := AniRqTxd), if cfg.gc.nextAni != NO_TONE then cfg.gc.nextAni else cfg.ga.nextAni)
  }

  function ReceiveAni(cfg: Config, c: Chan, tone: Tone): Chan {
    if tone == NO_TONE then RequestNextAni(cfg, c)
    else if IsDigit(tone) then
      var c := Emit(c.(num := c.num.(ani := c.num.ani + [tone])), AniDigit(tone));
      if !cfg.forceMaxAni && Uint32(cfg.maxAni) > |c.num.ani| then RequestNextAni(cfg, c) else AfterAni(cfg, c)
    else if tone == cfg.g1.noMoreAni || tone == cfg.g1.restricted then
      AfterAni(cfg, if tone == cfg.g1.restricted then c.(num := c.num.(restricted := true)) else c)
    else ProtocolError(c, InvalidMfTone)
  }

  function ReceiveCategory(cfg: Config, c: Chan, tone: Tone): Chan {
    var c := c.(num := c.num.(category := tone));
    if cfg.maxAni > 0 then ReceiveAni(cfg, c, NO_TONE)
    else if c.mfGroup == GC then RequestChangeToG2(cfg, c)
    else TryChangeToG2(cfg, c)
  }

  function HandleForwardTone(cfg: Config, c: Chan, tone: Tone, u: Reply): Chan {
    var c := Cancel(c, BackCycle);
    match c.mfGroup
    case BackInit =>
      if c.mfState != MfSeizeAckTxd then ProtocolError(c, InvalidMfState)
      else if cfg.getAniFirst && cfg.aniCanComeFirst then ReceiveAni(cfg, c, tone)
      else ReceiveDnis(cfg, c, tone, u)
    case GA =>
      (match c.mfState
       case DnisRqTxd => ReceiveDnis(cfg, c, tone, u)
       case CategoryRqTxd => ReceiveCategory(cfg, c, tone)
       case AniRqTxd => ReceiveAni(cfg, c, tone)
       case _ => ProtocolError(c, InvalidMfState))
    case GB =>
      if c.mfState == ChgGiiTxd then OfferCall(cfg, c) else ProtocolError(c, InvalidMfState)
    case GC =>
      (match c.mfState
       case CategoryRqTxd => ReceiveCategory(cfg, c, tone)
       case AniRqTxd => ReceiveAni(cfg, c, tone)
       case _ => ProtocolError(c, InvalidMfState))
    case _ => ProtocolError(c, InvalidMfGroup)
  }

  /** The forward side went silent after our acceptance: the register signalling is over. */
  function FinishAccept(c: Chan): Chan {
    Schedule(TurnOffMf(c).(callState := Accepted), AnswerDelay)
  }

  function HandleForwardSilence(c: Chan): Chan {
    var c := SetSilence(c);
    match c.mfGroup
    case GA => if c.mfState == AcceptedTxd then FinishAccept(c) else c
    case GB =>
      (match c.mfState
       case ChgGiiTxd => c
       case AcceptedTxd => FinishAccept(c)
       case DisconnectTxd => CancelAll(c)
       case _ => ProtocolError(c, InvalidMfState))
    case GC => c
    case _ => ProtocolError(c, InvalidMfGroup)
  }

  function SendClearBackward(c: Chan): Chan {
    TurnOffMf(c.(r2State := ClearBackTxd)).(casTx := CasClearBack)
  }

  function SendForcedRelease(c: Chan): Chan {
    TurnOffMf(c.(r2State := ForcedReleaseTxd)).(casTx := CasForcedRelease)
  }

  function AckCall(c: Chan): Chan { c.(casTx := CasSeizeAck) }

  function HandleIncomingCall(cfg: Config, c: Chan): Chan {
    var c := Emit(c.(mfState := MfSeizeAckTxd, mfGroup := BackInit, r2State := SeizeAckTxd,
                     callState := Collecting, direction := Backward), CallInit);
    if cfg.autoSeizeAck then AckCall(c) else c
  }

  // ---------------------------------------------------------------------------------------
  // Line signals

  /** check_backward_disconnection: the state and the cause of a backward release, if the bits are one. */
  function BackwardDisconnection(bits: Bits): Option<(R2State, Cause)> {
    if bits == BITS_CLEAR_BACK then Some((ClearBackRxd, NormalClearing))
    else if bits == BITS_FORCED_RELEASE then Some((ForcedReleaseRxd, ForcedRelease))
    else None
  }

  function ClearedByBackward(cfg: Config, c: Chan, state: R2State, cause: Cause): Chan {
    var c := c.(r2State := state);
    if Metering(cfg) then Schedule(c, MeteringPulse) else ReportDisconnection(c, cause)
  }

  function SeizeAcknowledged(cfg: Config, c: Chan): Chan {
    var pending := c.r2State == SeizeTxdClearFwdPending;
    var c := Cancel(c, Seize);
    if pending then SendClearForward(c)
    else Emit(SendDnis(cfg, c.(r2State := SeizeAckRxd, mfGroup := GI), 0), CallProceed)
  }

  function CasChanged(cfg: Config, c: Chan, bits: Bits): Chan {
    var bad := ProtocolError(c, InvalidCasBits);
    match c.r2State
    case Idle =>
      if bits == BITS_BLOCK then Emit(c, LineBlocked)
      else if bits == BITS_IDLE then Emit(c, LineIdle)
      else if bits == BITS_SEIZE then HandleIncomingCall(cfg, c)
      else bad
    case SeizeAckTxd => ClearForwardOrError(c, bits)
    case AnswerTxd => ClearForwardOrError(c, bits)
    case ExecutingDoubleAnswer => ClearForwardOrError(c, bits)
    case SeizeTxd => SeizeAnswered(cfg, c, bits)
    case SeizeTxdClearFwdPending => SeizeAnswered(cfg, c, bits)
    case DoubleSeizure => if bits == BITS_CLEAR_FORWARD then c.(r2State := ClearFwdRxd) else bad
    case DoubleSeizureClearFwdPending => if bits == BITS_CLEAR_FORWARD then ReportCallEnd(c) else bad
    case ClearBackTxd => if bits == BITS_CLEAR_FORWARD then ReportCallEnd(c) else bad
    case ForcedReleaseTxd => if bits == BITS_CLEAR_FORWARD then ReportCallEnd(c) else bad
    case AcceptRxd =>
      if bits == BITS_ANSWER then MarkAnswered(c)
      else (match BackwardDisconnection(bits)
            case Some((state, cause)) => ReportDisconnection(c.(r2State := state), cause)
            case None => bad)
    case SeizeAckRxd =>
      if bits == BITS_ANSWER then c.(r2State := AnswerRxdMfPending)
      else (match BackwardDisconnection(bits)
            case Some((state, cause)) => ReportDisconnection(c.(r2State := state), cause)
            case None => bad)
    case AnswerRxdMfPending => ReleaseOrError(cfg, c, bits)
    case AnswerRxd => ReleaseOrError(cfg, c, bits)
    case ClearBackToneRxd => if bits == BITS_IDLE then ReportCallEnd(c) else bad
    case ClearFwdTxd =>
      if bits == BITS_IDLE then ReportCallEnd(c)
      else if BackwardDisconnection(bits).Some? then c.(r2State := ClearBackAfterClearFwdRxd)
      else bad
    case ClearBackAfterClearFwdRxd => if bits == BITS_IDLE then ReportCallEnd(c) else bad
    case ClearBackRxd => MeteringOrError(cfg, c, bits)
    case ForcedReleaseRxd => MeteringOrError(cfg, c, bits)
    case Blocked => if bits == BITS_IDLE then Emit(c, LineIdle) else c
    case Init =>
      if bits == BITS_IDLE then Emit(c, LineIdle)
      else if bits == BITS_BLOCK then Emit(c, LineBlocked)
      else ProtocolError(c, InvalidR2State)
    case ClearFwdRxd => ProtocolError(c, InvalidR2State)
  }

  function ClearForwardOrError(c: Chan, bits: Bits): Chan {
    if bits == BITS_CLEAR_FORWARD then ReportDisconnection(c.(r2State := ClearFwdRxd), NormalClearing)
    else ProtocolError(c, InvalidCasBits)
  }

  function SeizeAnswered(cfg: Config, c: Chan, bits: Bits): Chan {
    if bits == BITS_SEIZE_ACK then SeizeAcknowledged(cfg, c)
    else if bits == BITS_SEIZE then ReportDisconnection(Cancel(c.(r2State := DoubleSeizure), Seize), Glare)
    else ProtocolError(c, InvalidCasBits)
  }

  function ReleaseOrError(cfg: Config, c: Chan, bits: Bits): Chan {
    if bits == BITS_CLEAR_BACK then ClearedByBackward(cfg, c, ClearBackRxd, NormalClearing)
    else if bits == BITS_FORCED_RELEASE then ClearedByBackward(cfg, c, ForcedReleaseRxd, ForcedRelease)
    else ProtocolError(c, InvalidCasBits)
  }

  function MeteringOrError(cfg: Config, c: Chan, bits: Bits): Chan {
    if Metering(cfg) && bits == BITS_ANSWER then
      Emit(Cancel(c, MeteringPulse).(r2State := AnswerRxd), BillingPulse)
    else ProtocolError(c, InvalidCasBits)
  }

  /** openr2_proto_handle_cas on the bits the line shows now. */
  function HandleCas(cfg: Config, c: Chan, bits: Bits): Chan {
    if c.casRead == bits || c.inAlarm then c
    else CasChanged(cfg, c.(casRead := bits), bits)
  }

  // ---------------------------------------------------------------------------------------
  // Tone detection

  /** openr2_proto_handle_mf_tone; NUL is the tone-off condition. */
  function HandleMfTone(cfg: Config, c: Chan, tone: Tone, u: Reply): Chan {
    if tone != NO_TONE then
      if c.readTone == tone then c
      else if c.readTone != NO_TONE then ProtocolError(c, BrokenMfSequence)
      else
        var c := c.(readTone := tone);
        match c.direction
        case Backward => HandleForwardTone(cfg, c, tone, u)
        case Forward => HandleBackwardTone(c)
        case Stopped => ProtocolError(c, LibraryBug)
    else if c.readTone == NO_TONE then c
    else
      var c1 := match c.direction
                case Backward => HandleForwardSilence(c)
                case Forward => HandleBackwardSilence(cfg, c, c.readTone, u)
                case Stopped => ProtocolError(c, LibraryBug);
      c1.(readTone := NO_TONE)
  }

  /** The gate in openr2_chan_handle_media: tones are only detected while the MF engine is on. */
  function HandleMedia(cfg: Config, c: Chan, tone: Tone, u: Reply): Chan {
    if c.mfState != MfOff then HandleMfTone(cfg, c, tone, u) else c
  }

  // ---------------------------------------------------------------------------------------
  // Timer callbacks

  function MfBackCycleExpired(cfg: Config, c: Chan): Chan {
    if cfg.g1.noMoreDnis == NO_TONE && c.mfGroup == GA && (c.mfState == DnisRqTxd || c.mfState == AniRqTxd) then
      var c := Schedule(c, BackResumeCycle);
      if !cfg.aniCanComeFirst && !cfg.getAniFirst then TryRequestCategory(cfg, c) else TryChangeToG2(cfg, c)
    else ProtocolError(c, BackMfTimeout)
  }

  function MeteringPulseExpired(c: Chan): Chan {
    ReportDisconnection(c, if c.r2State == ForcedReleaseRxd then ForcedRelease else NormalClearing)
  }

  function DoubleAnswerExpired(c: Chan): Chan {
    if c.r2State == AnswerTxd then
      Schedule(SendClearBackward(c).(r2State := ExecutingDoubleAnswer), DoubleAnswer)
    else if c.r2State == ExecutingDoubleAnswer then c.(casTx := CasAnswer, r2State := AnswerTxd)
    else c
  }

  function Dispatch(cfg: Config, c: Chan, t: Timer): Chan {
    match t
    case FwdSafety => ProtocolError(c, FwdSafetyTimeout)
    case Seize => ProtocolError(c, SeizeTimeout)
    case SeizePersist => SendClearForward(c)
    case Answer => ReportDisconnection(c, NoAnswer)
    case MeteringPulse => MeteringPulseExpired(c)
    case SetCallDown => ReportCallEnd(c)
    case DoubleAnswer => DoubleAnswerExpired(c)
    case BackResumeCycle => SetSilence(c)
    case BackCycle => MfBackCycleExpired(cfg, c)
    case AnswerDelay => Emit(c, CallAccepted(UnknownMode))
  }

  /** A pass of the scheduler that finds exactly one timer due. */
  function TimerFires(cfg: Config, c: Chan, id: int): Chan {
    if id in c.timers.live then
      Dispatch(cfg, c.(timers := c.timers.(live := c.timers.live - {id})), c.timers.live[id])
    else c
  }

  // ---------------------------------------------------------------------------------------
  // User requests

  function Truncated(s: string): string { if |s| < MAX_DIGITS then s else s[..MAX_DIGITS - 1] }

  predicate CanMakeCall(c: Chan) { !c.inAlarm && c.callState == CallIdle && c.casRead == BITS_IDLE }

  function MakeCall(cfg: Config, c: Chan, ani: Option<string>, dnis: string, category: Category,
                    restricted: bool): Chan {
    if !CanMakeCall(c) then c
    else
      var aniSent := if ani.Some? && AllDigits(ani.value) then ani else None;
      var c := Schedule(c.(casTx := CasSeize, r2State := SeizeTxd), Seize);
      Emit(c.(num := Numbers(if AllDigits(dnis) then Truncated(dnis) else "", 0,
                             if aniSent.Some? then Truncated(aniSent.value) else "",
                             if aniSent.Some? then Some(0) else None,
                             restricted, CategoryToTone(cfg, category), c.num.categorySent),
              callState := Dialing, direction := Forward, mfGroup := FwdInit), CallPlaced)
  }

  function AcceptCall(cfg: Config, c: Chan, mode: CallMode): Chan {
    if c.callState != Offered then c
    else PrepareTone(c.(mfState := AcceptedTxd), ToneFromMode(cfg, mode))
  }

  function AnswerCall(c: Chan, double: bool): Chan {
    if c.callState != Accepted then c
    else
      var c := c.(casTx := CasAnswer, callState := Answered, r2State := AnswerTxd, answered := true);
      if double then Schedule(c, DoubleAnswer) else c
  }

  function ForwardHangup(c: Chan): Chan {
    match c.r2State
    case SeizeTxd => c.(r2State := SeizeTxdClearFwdPending)
    case DoubleSeizure => Schedule(c.(r2State := DoubleSeizureClearFwdPending), SeizePersist)
    case ClearFwdRxd => ReportCallEnd(c)
    case _ => SendClearForward(c)
  }

  function BackwardHangup(cfg: Config, c: Chan, cause: Cause): Chan {
    if c.callState == Offered then PrepareTone(c.(mfState := DisconnectTxd), RejectTone(cfg, cause))
    else if c.r2State == ClearFwdRxd then ReportCallEnd(c)
    else if cause == ForcedRelease then SendForcedRelease(c)
    else SendClearBackward(c)
  }

  function DisconnectCall(cfg: Config, c: Chan, cause: Cause): Chan {
    if c.callState == CallIdle then c
    else
      var c := Emit(c, UserHangup);
      if c.direction == Backward then BackwardHangup(cfg, c, cause) else ForwardHangup(c)
  }

  // ---------------------------------------------------------------------------------------
  // Hardware alarms

  function AlarmOn(c: Chan): Chan {
    var c := Emit(c.(inAlarm := true), HardwareAlarm(true));
    var c1 := if c.callState != CallIdle then ProtocolError(c, AlarmRaised) else c;
    c1.(casRead := 0x0, casTx := CasInvalid)
  }

  function AlarmOff(cfg: Config, c: Chan, bits: Bits): Chan {
    var c := Emit(Emit(c.(inAlarm := false), HardwareAlarm(false)), Reset);
    HandleCas(cfg, if c.r2State != Blocked then SetIdle(c) else SetBlocked(c), bits)
  }

  // ---------------------------------------------------------------------------------------
  // Runs

  datatype Step =
    | CasSample(bits: Bits)
    | MfSample(tone: Tone, reply: Reply)
    | Fire(id: int)
    | Place(ani: Option<string>, dnis: string, category: Category, restricted: bool)
    | Accept(mode: CallMode)
    | AnswerWith(double: bool)
    | Hangup(cause: Cause)
    | ResetIdle
    | ResetBlocked
    | Ack
    | RaiseAlarm
    | ClearAlarm(bits: Bits)

  function Next(cfg: Config, c: Chan, s: Step): Chan {
    match s
    case CasSample(bits) => HandleCas(cfg, c, bits)
    case MfSample(tone, reply) => HandleMedia(cfg, c, tone, reply)
    case Fire(id) => TimerFires(cfg, c, id)
    case Place(ani, dnis, category, restricted) => MakeCall(cfg, c, ani, dnis, category, restricted)
    case Accept(mode) => AcceptCall(cfg, c, mode)
    case AnswerWith(double) => AnswerCall(c, double)
    case Hangup(cause) => DisconnectCall(cfg, c, cause)
    case ResetIdle => SetIdle(Emit(c, Reset))
    case ResetBlocked => SetBlocked(Emit(c, Reset))
    case Ack => AckCall(c)
    case RaiseAlarm => AlarmOn(c)
    case ClearAlarm(bits) => AlarmOff(cfg, c, bits)
  }

  /** The state after a sequence of steps. */
  function Run(cfg: Config, c: Chan, steps: seq<Step>): Chan
    decreases |steps|
  {
    if steps == [] then c else Next(cfg, Run(cfg, c, steps[..|steps| - 1]), steps[|steps| - 1])
  }

  lemma RunSnoc(cfg: Config, c: Chan, steps: seq<Step>, s: Step)
    ensures Run(cfg, c, steps + [s]) == Next(cfg, Run(cfg, c, steps), s)
  {
    assert (steps + [s])[..|steps|] == steps;
  }

  lemma {:induction false} RunConcat(cfg: Config, c: Chan, first: seq<Step>, rest: seq<Step>)
    ensures Run(cfg, c, first + rest) == Run(cfg, Run(cfg, c, first), rest)
    decreases |rest|
  {
    if rest == [] {
      assert first + rest == first;
    } else {
      var most := rest[..|rest| - 1];
      RunConcat(cfg, c, first, most);
      assert (first + rest)[..|first + rest| - 1] == first + most;
    }
  }

  lemma TwoSteps(cfg: Config, c: Chan, s1: Step, s2: Step)
    ensures Run(cfg, c, [s1, s2]) == Next(cfg, Next(cfg, c, s1), s2)
  {
    assert [s1, s2] == [s1] + [s2] && [s1] == [] + [s1];
    RunSnoc(cfg, c, [], s1);
    RunSnoc(cfg, c, [s1], s2);
  }

  lemma ThreeSteps(cfg: Config, c: Chan, s1: Step, s2: Step, s3: Step)
    ensures Run(cfg, c, [s1, s2, s3]) == Next(cfg, Next(cfg, Next(cfg, c, s1), s2), s3)
  {
    assert [s1, s2, s3] == [s1, s2] + [s3];
    TwoSteps(cfg, c, s1, s2);
    RunSnoc(cfg, c, [s1, s2], s3);
  }
}
