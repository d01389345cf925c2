/**
 What every run of a single channel keeps, whatever the far end, the user and the timers do:
 call conservation, event order, agreement of the transmitted signal, guard timers and ownership
 of timer ids. All of it holds for an arbitrary tone table.
 */
module RunInvariants {
  import opened Signals
  import opened Protocol

  // ---------------------------------------------------------------------------------------
  // Shape of a call

  predicate NoCallState(s: R2State) { s.Init? || s.Idle? || s.Blocked? }

  predicate BackwardState(s: R2State) {
    s.SeizeAckTxd? || s.AnswerTxd? || s.ClearBackTxd? || s.ClearFwdRxd? || s.ExecutingDoubleAnswer? ||
    s.ForcedReleaseTxd?
  }

  predicate ForwardState(s: R2State) { !NoCallState(s) && (s == ClearFwdRxd || !BackwardState(s)) }

  /** A call whose seize has not been answered. */
  predicate AwaitsAck(c: Chan) { c.r2State == SeizeTxd || c.r2State == SeizeTxdClearFwdPending }

  /** Forward states in which no register signalling takes place. */
  predicate ForwardMuted(s: R2State) {
    s.SeizeTxd? || s.SeizeTxdClearFwdPending? || s.DoubleSeizure? || s.DoubleSeizureClearFwdPending? ||
    s.ClearFwdTxd? || s.ClearBackAfterClearFwdRxd? || s.ClearFwdRxd?
  }

  /** Forward states an answered call can be in. */
  predicate ForwardAnswered(s: R2State) {
    s.AnswerRxd? || s.ClearBackRxd? || s.ForcedReleaseRxd? || s.ClearFwdTxd? || s.ClearBackAfterClearFwdRxd?
  }

  ghost predicate CallShape(c: Chan) {
    && (c.callState == CallIdle <==> c.direction == Stopped)
    && (c.callState == CallIdle <==> NoCallState(c.r2State))
    && (c.direction == Forward ==>
          ForwardState(c.r2State) && (c.callState.Dialing? || c.callState.Answered? || c.callState.Disconnected?))
    && (c.direction == Backward ==> BackwardState(c.r2State) && !c.callState.CallIdle? && !c.callState.Dialing?)
    && (c.direction == Backward && (c.callState.Accepted? || c.callState.Answered?) ==> c.mfState == MfOff)
    && (c.r2State.AnswerTxd? || c.r2State.ExecutingDoubleAnswer? ==> c.callState == Answered)
    && (c.inAlarm ==> c.callState == CallIdle)
    && (c.direction == Stopped ==> c.mfState == MfOff && c.timers.live == map[] && !c.answered)
    && (c.direction == Forward && ForwardMuted(c.r2State) ==> c.mfState == MfOff)
    && (c.direction == Forward && c.answered ==>
          c.mfState == MfOff && ForwardAnswered(c.r2State))
  }

  // ---------------------------------------------------------------------------------------
  // Timer ids

  predicate ForwardTimer(t: Timer) {
    t.FwdSafety? || t.Seize? || t.SeizePersist? || t.Answer? || t.MeteringPulse? || t.SetCallDown?
  }

  /** The timer_ids field of a purpose names a live entry scheduled for that purpose. */
  ghost predicate Armed(tt: TimerTable, t: Timer) { IdOf(tt, t) in tt.live && tt.live[IdOf(tt, t)] == t }

  /** Ids are fresh, live entries belong to the current call, and no field names another purpose's entry. */
  ghost predicate TimerOwnership(tt: TimerTable, d: Direction) {
    && tt.lastId >= 1
    && (forall id :: id in tt.live ==> 1 <= id <= tt.lastId)
    && (forall id :: id in tt.live ==> d == (if ForwardTimer(tt.live[id]) then Forward else Backward))
    && SetCallDown !in tt.ids
    && (forall t :: t in tt.ids ==> tt.ids[t] <= tt.lastId)
    && (forall t :: t in tt.ids && tt.ids[t] in tt.live ==> tt.live[tt.ids[t]] == t)
  }

  // ---------------------------------------------------------------------------------------
  // Event order

  datatype Phase = NoCall | Incoming | Outgoing

  /** Where the current call stands according to the events alone; lawful turns false at the first misplaced event. */
  datatype Track = Track(phase: Phase, offered: bool, accepted: bool, answered: bool, released: bool, hungUp: bool,
                         lawful: bool)

  const START: Track := Track(NoCall, false, false, false, false, false, true)

  function Advance(t: Track, e: Event): Track {
    match e
    case CallInit => START.(phase := Incoming, lawful := t.lawful && t.phase == NoCall)
    case CallPlaced => START.(phase := Outgoing, lawful := t.lawful && t.phase == NoCall)
    case CallOffered(_, _, _, _) =>
      t.(offered := true, lawful := t.lawful && t.phase == Incoming && !t.offered && !t.released)
    case CallAccepted(_) =>
      t.(accepted := true, lawful := t.lawful && t.phase != NoCall && (t.phase == Incoming ==> t.offered))
    case CallAnswered =>
      t.(answered := true,
         lawful := t.lawful && t.phase == Outgoing && t.accepted && !t.answered && !t.hungUp)
    case CallDisconnect(_) => t.(released := true, lawful := t.lawful && t.phase != NoCall)
    case UserHangup => t.(hungUp := true, lawful := t.lawful && t.phase != NoCall)
    case CallEnd => START.(lawful := t.lawful && t.phase != NoCall)
    case ProtocolFault(_) => START.(lawful := t.lawful)
    case Reset => START.(lawful := t.lawful)
    case _ => t
  }

  function TrackOf(h: History): Track {
    match h
    case Empty => START
    case Snoc(prev, e) => Advance(TrackOf(prev), e)
  }

  ghost predicate EventOrder(c: Chan) {
    var t := TrackOf(c.log);
    && t.lawful
    && t.phase == (match c.direction case Stopped => NoCall case Forward => Outgoing case Backward => Incoming)
    && (c.callState == Collecting ==> !t.offered && !t.released)
    && (c.callState.Offered? || c.callState.Accepted? || c.mfState == AcceptedTxd ==> t.offered)
    && (forall id :: id in c.timers.live && c.timers.live[id] == AnswerDelay ==> t.offered)
    && (c.direction == Forward ==> t.answered == c.answered)
    && (c.r2State == AcceptRxd ==> t.accepted)
    && (c.r2State == SeizeTxd ==> !t.hungUp)
    && (c.direction == Forward && t.hungUp ==> ForwardMuted(c.r2State))
  }

  // ---------------------------------------------------------------------------------------
  // Guard timers

  /** Some add_timer call found no free slot. */
  function SlotMissed(h: History): bool {
    match h
    case Empty => false
    case Snoc(prev, e) => e == TimerSlotsExhausted || SlotMissed(prev)
  }

  ghost predicate CallDownArmed(tt: TimerTable) { exists id :: id in tt.live && tt.live[id] == SetCallDown }

  ghost predicate WaitGuard(c: Chan) {
    c.r2State == SeizeAckRxd && c.mfState == WaitingTimeout ==> Armed(c.timers, FwdSafety)
  }

  ghost predicate StateGuards(c: Chan) {
    && (c.r2State.SeizeTxd? || c.r2State.SeizeTxdClearFwdPending? ==> Armed(c.timers, Seize))
    && (c.r2State.ClearFwdTxd? || c.r2State.ClearBackAfterClearFwdRxd? ==> CallDownArmed(c.timers))
    && (c.r2State == DoubleSeizureClearFwdPending ==> Armed(c.timers, SeizePersist))
    && (c.r2State == ExecutingDoubleAnswer ==> Armed(c.timers, DoubleAnswer))
    && (c.r2State == AcceptRxd && c.callState == Dialing ==> Armed(c.timers, Answer))
  }

  ghost predicate GuardTimers(c: Chan) {
    !SlotMissed(c.log) ==> StateGuards(c) && (c.readTone == NO_TONE ==> WaitGuard(c))
  }

  /** While the seize is unanswered nothing but the seize timer runs. */
  ghost predicate SeizeAlone(c: Chan) {
    c.r2State.SeizeTxd? || c.r2State.SeizeTxdClearFwdPending? ==>
      forall id :: id in c.timers.live ==> c.timers.live[id] == Seize
  }

  /** The invariant without the guard timers, which hold only between steps. */
  ghost predicate Core(c: Chan) {
    CallShape(c) && TimerOwnership(c.timers, c.direction) && EventOrder(c) && SeizeAlone(c)
  }

  ghost predicate Inv(c: Chan) { Core(c) && GuardTimers(c) }

  // ---------------------------------------------------------------------------------------
  // Timer table operations

  lemma AddTimerOwnership(tt: TimerTable, t: Timer, d: Direction)
    requires TimerOwnership(tt, d) && d == (if ForwardTimer(t) then Forward else Backward)
    ensures TimerOwnership(AddTimer(tt, t), d)
  {
  }

  lemma AddTimerEffect(tt: TimerTable, t: Timer, d: Direction)
    requires TimerOwnership(tt, d)
    ensures !SlotsFull(tt) ==> (if t == SetCallDown then CallDownArmed(AddTimer(tt, t)) else Armed(AddTimer(tt, t), t))
    ensures forall u :: u != t && Armed(tt, u) ==> Armed(AddTimer(tt, t), u)
    ensures CallDownArmed(tt) ==> CallDownArmed(AddTimer(tt, t))
    ensures forall id :: id in AddTimer(tt, t).live ==>
              AddTimer(tt, t).live[id] == t || (id in tt.live && AddTimer(tt, t).live[id] == tt.live[id])
  {
    var d := AddTimer(tt, t);
    if !SlotsFull(tt) {
      assert d.live[tt.lastId + 1] == t;
    }
    if id :| id in tt.live && tt.live[id] == SetCallDown {
      assert id in d.live && d.live[id] == SetCallDown;
    }
  }

  lemma CancelTimerEffect(tt: TimerTable, t: Timer, d: Direction)
    requires TimerOwnership(tt, d)
    ensures TimerOwnership(CancelTimer(tt, t), d)
    ensures forall u :: u != t && Armed(tt, u) ==> Armed(CancelTimer(tt, t), u)
    ensures CallDownArmed(tt) ==> CallDownArmed(CancelTimer(tt, t))
    ensures forall id :: id in CancelTimer(tt, t).live ==> id in tt.live && CancelTimer(tt, t).live[id] == tt.live[id]
  {
    var d := CancelTimer(tt, t);
    if id :| id in tt.live && tt.live[id] == SetCallDown {
      assert id in d.live && d.live[id] == SetCallDown;
    }
  }

  /** d is c with one more timer requested; everything the invariant needs to know about that. */
  ghost predicate Rearmed(c: Chan, d: Chan, t: Timer) {
    && d == c.(timers := d.timers, log := d.log)
    && TimerOwnership(d.timers, c.direction)
    && TrackOf(d.log) == TrackOf(c.log)
    && (SlotMissed(c.log) ==> SlotMissed(d.log))
    && (!SlotMissed(d.log) ==> if t == SetCallDown then CallDownArmed(d.timers) else Armed(d.timers, t))
    && (forall u :: u != t && Armed(c.timers, u) ==> Armed(d.timers, u))
    && (CallDownArmed(c.timers) ==> CallDownArmed(d.timers))
    && (forall id :: id in d.timers.live ==>
                       d.timers.live[id] == t || (id in c.timers.live && d.timers.live[id] == c.timers.live[id]))
  }

  lemma ScheduleRearms(c: Chan, t: Timer)
    requires TimerOwnership(c.timers, c.direction) && c.direction == (if ForwardTimer(t) then Forward else Backward)
    ensures Rearmed(c, Schedule(c, t), t)
  {
    AddTimerOwnership(c.timers, t, c.direction);
    AddTimerEffect(c.timers, t, c.direction);
  }

  // ---------------------------------------------------------------------------------------
  // Steps preserve the invariant: ends of calls

  lemma ErrorKeepsInv(c: Chan, reason: ErrorReason)
    requires TrackOf(c.log).lawful
    ensures Inv(ProtocolError(c, reason))
  {
  }

  lemma EndKeepsInv(c: Chan)
    requires TrackOf(c.log).lawful && TrackOf(c.log).phase != NoCall
    ensures Inv(ReportCallEnd(c))
  {
  }

  lemma IncomingKeepsInv(cfg: Config, c: Chan)
    requires Core(c) && c.r2State == Idle && !c.inAlarm
    ensures Inv(HandleIncomingCall(cfg, c))
  {
  }

  // ---------------------------------------------------------------------------------------
  // Steps preserve the invariant: forward side

  /** No backward timer is live in an outgoing call, so releasing the MF engine cancels nothing. */
  lemma TurnOffMfForward(c: Chan)
    requires TimerOwnership(c.timers, c.direction) && c.direction == Forward
    ensures TurnOffMf(c) == c.(mfState := MfOff)
  {
  }

  lemma SendClearForwardKeepsInv(c: Chan)
    requires Core(c) && c.direction == Forward
    ensures Inv(SendClearForward(c))
    ensures SendClearForward(c).r2State == ClearFwdTxd
  {
    var d := Schedule(c, SetCallDown);
    ScheduleRearms(c, SetCallDown);
    TurnOffMfForward(d.(r2State := ClearFwdTxd));
    CallDownKeepsInv(c, d);
  }

  lemma CallDownKeepsInv(c: Chan, d: Chan)
    requires Core(c) && c.direction == Forward && Rearmed(c, d, SetCallDown)
    ensures Inv(d.(r2State := ClearFwdTxd, mfState := MfOff, casTx := CasClearForward))
  {
  }

  lemma ForwardHangupKeepsInv(c: Chan)
    requires Inv(c) && c.direction == Forward
    ensures Inv(ForwardHangup(Emit(c, UserHangup)))
  {
    match c.r2State
    case SeizeTxd => PostponeKeepsInv(c);
    case DoubleSeizure => PersistKeepsInv(c);
    case ClearFwdRxd => HangupEndsKeepsInv(c);
    case _ => DropKeepsInv(c);
  }

  lemma HangupEndsKeepsInv(c: Chan)
    requires Inv(c) && c.direction == Forward
    ensures Inv(ReportCallEnd(Emit(c, UserHangup)))
  {
    EndKeepsInv(Emit(c, UserHangup));
  }

  lemma PostponeKeepsInv(c: Chan)
    requires Inv(c) && c.direction == Forward && c.r2State == SeizeTxd
    ensures Inv(Emit(c, UserHangup).(r2State := SeizeTxdClearFwdPending))
  {
  }

  lemma PersistKeepsInv(c: Chan)
    requires Core(c) && c.direction == Forward && c.r2State == DoubleSeizure
    ensures Inv(Schedule(Emit(c, UserHangup).(r2State := DoubleSeizureClearFwdPending), SeizePersist))
  {
    var e := Emit(c, UserHangup).(r2State := DoubleSeizureClearFwdPending);
    ScheduleRearms(e, SeizePersist);
    PersistingKeepsInv(c, Schedule(e, SeizePersist));
  }

  lemma PersistingKeepsInv(c: Chan, d: Chan)
    requires Core(c) && c.direction == Forward && c.r2State == DoubleSeizure
    requires Rearmed(Emit(c, UserHangup).(r2State := DoubleSeizureClearFwdPending), d, SeizePersist)
    ensures Inv(d)
  {
  }

  /** Sending clear forward on behalf of the user, from any state of an outgoing call. */
  lemma DropKeepsInv(c: Chan)
    requires Core(c) && c.direction == Forward
    ensures Inv(SendClearForward(Emit(c, UserHangup)))
  {
    var d := Schedule(Emit(c, UserHangup), SetCallDown);
    ScheduleRearms(Emit(c, UserHangup), SetCallDown);
    TurnOffMfForward(d.(r2State := ClearFwdTxd));
    DroppedKeepsInv(c, d);
  }

  lemma DroppedKeepsInv(c: Chan, d: Chan)
    requires Core(c) && c.direction == Forward && Rearmed(Emit(c, UserHangup), d, SetCallDown)
    ensures Inv(d.(r2State := ClearFwdTxd, mfState := MfOff, casTx := CasClearForward))
  {
  }

  /** Between steps, and even before the tone just handled is forgotten. */
  ghost predicate Settled(c: Chan) { Inv(c) && (SlotMissed(c.log) || WaitGuard(c)) }

  /** Register signalling in a state where it can take place. */
  ghost predicate ForwardRegister(c: Chan) {
    && Core(c) && c.direction == Forward && !ForwardMuted(c.r2State) && !c.answered
    && (SlotMissed(c.log) || StateGuards(c))
  }

  lemma SendToneKeepsInv(c: Chan, m: MfState, n: Numbers, tone: Tone)
    requires ForwardRegister(c) && m != WaitingTimeout && m != MfOff && m != AcceptedTxd
    ensures Settled(PrepareTone(c.(mfState := m, num := n), tone))
  {
  }

  lemma AwaitTimeoutKeepsInv(c: Chan, n: Numbers)
    requires ForwardRegister(c)
    ensures Settled(Schedule(c.(mfState := WaitingTimeout, num := n), FwdSafety))
  {
    var e := c.(mfState := WaitingTimeout, num := n);
    ScheduleRearms(e, FwdSafety);
    AwaitingTimeoutKeepsInv(c, n, Schedule(e, FwdSafety));
  }

  lemma AwaitingTimeoutKeepsInv(c: Chan, n: Numbers, d: Chan)
    requires ForwardRegister(c) && Rearmed(c.(mfState := WaitingTimeout, num := n), d, FwdSafety)
    ensures Settled(d)
  {
  }

  lemma SendDnisKeepsInv(cfg: Config, c: Chan, offset: int)
    requires ForwardRegister(c)
    ensures Settled(SendDnis(cfg, c, offset))
  {
    var n := MoveDnis(c.num, offset);
    if DnisAt(n) != NO_TONE {
      SendToneKeepsInv(c, DnisTxd, n, DnisAt(n));
    } else if cfg.g1.noMoreDnis != NO_TONE && c.mfState != DnisEndTxd && c.mfState != WaitingTimeout {
      SendToneKeepsInv(c, DnisEndTxd, n, cfg.g1.noMoreDnis);
    } else {
      AwaitTimeoutKeepsInv(c, n);
    }
  }

  lemma SendAniKeepsInv(cfg: Config, c: Chan)
    requires ForwardRegister(c)
    ensures Settled(SendAni(cfg, c))
  {
    if c.mfState == AniEndTxd && (cfg.ga.nextDnis == cfg.ga.nextAni || cfg.ga.nextDnis == cfg.gc.nextAni) {
      SendDnisKeepsInv(cfg, c.(mfGroup := GI), 1);
    } else if cfg.g1.restricted != NO_TONE && c.num.aniPtr.None? {
      SendToneKeepsInv(c, AniEndTxd, c.num, cfg.g1.restricted);
    } else if AniAt(c.num) != NO_TONE {
      SendToneKeepsInv(c, AniTxd, c.num.(aniPtr := Some(c.num.aniPtr.value + 1)), AniAt(c.num));
    } else if cfg.g1.noMoreAni != NO_TONE && !c.num.restricted {
      SendToneKeepsInv(c, AniEndTxd, c.num, cfg.g1.noMoreAni);
    } else if cfg.g1.restricted != NO_TONE && c.num.restricted {
      SendToneKeepsInv(c, AniEndTxd, c.num, cfg.g1.restricted);
    } else {
      AwaitTimeoutKeepsInv(c, c.num);
    }
  }

  lemma SendCategoryKeepsInv(c: Chan, g: MfGroup)
    requires ForwardRegister(c)
    ensures Settled(SendCategory(c.(mfGroup := g)))
  {
  }

  lemma RejectedByToneKeepsInv(c: Chan, cause: Cause)
    requires ForwardRegister(c)
    ensures Settled(RejectedByTone(c, cause))
  {
  }

  lemma MarkAnsweredKeepsInv(c: Chan)
    requires Core(c) && c.direction == Forward && !ForwardMuted(c.r2State) && !c.answered
    requires TrackOf(c.log).accepted && !TrackOf(c.log).hungUp
    ensures Settled(MarkAnswered(c))
  {
    CancelTimerEffect(c.timers, Answer, Forward);
    TurnOffMfForward(Cancel(c, Answer).(r2State := AnswerRxd, callState := Answered));
  }

  lemma HandleAcceptToneKeepsInv(cfg: Config, c: Chan, mode: CallMode, u: Reply)
    requires ForwardRegister(c)
    ensures Settled(HandleAcceptTone(cfg, c, mode, u))
  {
    if c.r2State == AnswerRxdMfPending {
      EarlyAnswerKeepsInv(cfg, c, mode, u);
    } else {
      AwaitAnswerKeepsInv(c, mode);
      if u.dropOnAccept {
        DropKeepsInv(Emit(Schedule(c.(r2State := AcceptRxd), Answer), CallAccepted(mode)));
      }
    }
  }

  lemma AwaitAnswerKeepsInv(c: Chan, mode: CallMode)
    requires ForwardRegister(c)
    ensures Settled(Emit(Schedule(c.(r2State := AcceptRxd), Answer), CallAccepted(mode)))
  {
    ScheduleRearms(c.(r2State := AcceptRxd), Answer);
    AwaitingAnswerKeepsInv(c, Schedule(c.(r2State := AcceptRxd), Answer), mode);
  }

  lemma AwaitingAnswerKeepsInv(c: Chan, d: Chan, mode: CallMode)
    requires ForwardRegister(c) && Rearmed(c.(r2State := AcceptRxd), d, Answer)
    ensures Settled(Emit(d, CallAccepted(mode)))
  {
  }

  /** The answer was seen on the line before the acceptance was heard. */
  lemma EarlyAnswerKeepsInv(cfg: Config, c: Chan, mode: CallMode, u: Reply)
    requires ForwardRegister(c) && c.r2State == AnswerRxdMfPending
    ensures Settled(HandleAcceptTone(cfg, c, mode, u))
  {
    var e := Emit(c.(r2State := AcceptRxd), CallAccepted(mode));
    if u.dropOnAccept {
      DropKeepsInv(e);
    } else {
      MarkAnsweredKeepsInv(e);
    }
  }

  lemma BackwardSilenceKeepsInv(cfg: Config, c: Chan, tone: Tone, u: Reply)
    requires ForwardRegister(c)
    ensures Settled(HandleBackwardSilence(cfg, c, tone, u))
  {
    match c.mfGroup
    case GI => GroupAKeepsInv(cfg, c, tone, u);
    case GII => GroupBKeepsInv(cfg, c, tone, u);
    case GIII => GroupCKeepsInv(cfg, c, tone);
    case _ => ErrorKeepsInv(c, InvalidMfGroup);
  }

  lemma DnisRequestKeepsInv(cfg: Config, c: Chan, tone: Tone)
    requires ForwardRegister(c) && IsDnisRequest(cfg, tone)
    ensures Settled(HandleDnisRequest(cfg, c, tone))
  {
    if tone == cfg.ga.nextDnis { SendDnisKeepsInv(cfg, c, 1); }
    else if tone == cfg.ga.dnisMinus1 { SendDnisKeepsInv(cfg, c, -1); }
    else if tone == cfg.ga.dnisMinus2 { SendDnisKeepsInv(cfg, c, -2); }
    else if tone == cfg.ga.dnisMinus3 { SendDnisKeepsInv(cfg, c, -3); }
    else { SendDnisKeepsInv(cfg, c.(num := c.num.(dnisIndex := 0)), 0); }
  }

  lemma GroupAKeepsInv(cfg: Config, c: Chan, tone: Tone, u: Reply)
    requires ForwardRegister(c)
    ensures Settled(HandleGroupARequest(cfg, c, tone, u))
  {
    if IsDnisRequest(cfg, tone) { DnisRequestKeepsInv(cfg, c, tone); }
    else if c.num.categorySent && tone == cfg.ga.nextAni { SendAniKeepsInv(cfg, c); }
    else if tone == CategoryRequestTone(cfg) {
      SendCategoryKeepsInv(c, if CategoryRequestTone(cfg) == cfg.ga.categoryAndGc then GIII else c.mfGroup);
    }
    else if tone == cfg.ga.changeToG2 { SendCategoryKeepsInv(c, GII); }
    else if tone == cfg.ga.addressComplete { HandleAcceptToneKeepsInv(cfg, c, WithCharge, u); }
    else if tone == cfg.ga.congestion { RejectedByToneKeepsInv(c, NetworkCongestion); }
    else { ErrorKeepsInv(c, InvalidMfTone); }
  }

  lemma GroupBKeepsInv(cfg: Config, c: Chan, tone: Tone, u: Reply)
    requires ForwardRegister(c)
    ensures Settled(HandleGroupBRequest(cfg, c, tone, u))
  {
    if tone == cfg.gb.acceptCharge || tone == cfg.gb.acceptNoCharge || tone == cfg.gb.specialInfo {
      HandleAcceptToneKeepsInv(cfg, c, ModeFromTone(cfg, tone), u);
    }
    else if tone == cfg.gb.busy { RejectedByToneKeepsInv(c, BusyNumber); }
    else if tone == cfg.gb.congestion { RejectedByToneKeepsInv(c, NetworkCongestion); }
    else if tone == cfg.gb.unallocated { RejectedByToneKeepsInv(c, UnallocatedNumber); }
    else if tone == cfg.gb.numberChanged { RejectedByToneKeepsInv(c, NumberChanged); }
    else if tone == cfg.gb.outOfOrder { RejectedByToneKeepsInv(c, OutOfOrder); }
    else { ErrorKeepsInv(c, InvalidMfTone); }
  }

  lemma GroupCKeepsInv(cfg: Config, c: Chan, tone: Tone)
    requires ForwardRegister(c)
    ensures Settled(HandleGroupCRequest(cfg, c, tone))
  {
    if tone == cfg.gc.nextAni { SendAniKeepsInv(cfg, c); }
    else if tone == cfg.gc.changeToG2 { SendCategoryKeepsInv(c, GII); }
    else if tone == cfg.gc.nextDnisAndGa { SendDnisKeepsInv(cfg, c.(mfGroup := GI), 1); }
    else if tone == cfg.gc.congestion { RejectedByToneKeepsInv(c, NetworkCongestion); }
    else { ErrorKeepsInv(c, InvalidMfTone); }
  }

  lemma BackwardToneKeepsInv(c: Chan)
    requires ForwardRegister(c) && c.readTone != NO_TONE && GuardTimers(c)
    ensures Inv(HandleBackwardTone(c))
  {
    CancelTimerEffect(c.timers, FwdSafety, Forward);
  }

  // ---------------------------------------------------------------------------------------
  // Steps preserve the invariant: backward side

  /** An incoming call, whatever its stage. The only guard it may owe is the double answer timer. */
  ghost predicate Incall(c: Chan) {
    Core(c) && c.direction == Backward && (SlotMissed(c.log) || StateGuards(c))
  }

  /** An incoming call with the MF engine on. */
  ghost predicate Listening(c: Chan) { Incall(c) && c.mfState != MfOff }

  lemma PrepareToneKeepsInv(c: Chan, g: MfGroup, m: MfState, tone: Tone)
    requires Listening(c) && m != MfOff && (m == AcceptedTxd ==> TrackOf(c.log).offered)
    ensures Listening(PrepareTone(c.(mfGroup := g, mfState := m), tone))
    ensures PrepareTone(c.(mfGroup := g, mfState := m), tone).callState == c.callState
  {
    var e := c.(mfGroup := g, mfState := m);
    ScheduleRearms(e, BackCycle);
    ToneSentKeepsInv(c, e, e, tone);
    ToneSentKeepsInv(c, e, Schedule(e, BackCycle), tone);
  }

  lemma ToneSentKeepsInv(c: Chan, e: Chan, d: Chan, tone: Tone)
    requires Listening(c) && e == c.(mfGroup := e.mfGroup, mfState := e.mfState) && e.mfState != MfOff
    requires e.mfState == AcceptedTxd ==> TrackOf(c.log).offered
    requires Rearmed(e, d, BackCycle) || d == e
    ensures Listening(d) && Listening(d.(writeTone := tone))
  {
  }

  lemma OfferCallKeepsInv(cfg: Config, c: Chan)
    requires Listening(c)
    ensures Inv(OfferCall(cfg, c))
  {
    if c.callState != Collecting {
      ErrorKeepsInv(c, InvalidR2State);
    }
  }

  lemma BypassKeepsInv(cfg: Config, c: Chan)
    requires Listening(c)
    ensures Inv(BypassChangeToG2(cfg, c))
  {
    var e := c.(mfState := AcceptedTxd);
    var d := PrepareTone(e, cfg.ga.addressComplete);
    ScheduleRearms(e, BackCycle);
    if c.callState == Collecting {
      if c.writeTone == cfg.ga.addressComplete || cfg.ga.addressComplete == NO_TONE {
        OfferingKeepsInv(cfg, c, e, cfg.ga.addressComplete);
      } else {
        OfferingKeepsInv(cfg, c, Schedule(e, BackCycle), cfg.ga.addressComplete);
      }
    } else {
      ErrorKeepsInv(d, InvalidR2State);
    }
  }

  lemma OfferingKeepsInv(cfg: Config, c: Chan, d: Chan, tone: Tone)
    requires Listening(c) && c.callState == Collecting
    requires Rearmed(c.(mfState := AcceptedTxd), d, BackCycle) || d == c.(mfState := AcceptedTxd)
    ensures Inv(OfferCall(cfg, d)) && Inv(OfferCall(cfg, d.(writeTone := tone)))
  {
  }

  lemma RequestChangeToG2KeepsInv(cfg: Config, c: Chan)
    requires Listening(c)
    ensures Inv(RequestChangeToG2(cfg, c))
  {
    PrepareToneKeepsInv(c, GB, ChgGiiTxd, if c.mfGroup == GC then cfg.gc.changeToG2 else cfg.ga.changeToG2);
  }

  lemma TryChangeToG2KeepsInv(cfg: Config, c: Chan)
    requires Listening(c)
    ensures Inv(TryChangeToG2(cfg, c))
  {
    if cfg.immediateAccept { BypassKeepsInv(cfg, c); } else { RequestChangeToG2KeepsInv(cfg, c); }
  }

  lemma TryRequestCategoryKeepsInv(cfg: Config, c: Chan)
    requires Listening(c)
    ensures Inv(TryRequestCategory(cfg, c))
  {
    if cfg.skipCategory {
      TryChangeToG2KeepsInv(cfg, c);
    } else {
      PrepareToneKeepsInv(c, if cfg.ga.category != NO_TONE then GA else GC, CategoryRqTxd, CategoryRequestTone(cfg));
    }
  }

  lemma RequestNextDnisKeepsInv(cfg: Config, c: Chan)
    requires Listening(c)
    ensures Inv(RequestNextDnis(cfg, c))
  {
    PrepareToneKeepsInv(c, GA, DnisRqTxd, if c.mfGroup == GC then cfg.gc.nextDnisAndGa else cfg.ga.nextDnis);
  }

  lemma StoreDnisKeepsInv(c: Chan, tone: Tone)
    requires Listening(c)
    ensures Listening(StoreDnis(c, tone))
  {
  }

  lemma ReceiveDnisKeepsInv(cfg: Config, c: Chan, tone: Tone, u: Reply)
    requires Listening(c)
    ensures Inv(ReceiveDnis(cfg, c, tone, u))
  {
    if IsDigit(tone) {
      var d := StoreDnis(c, tone);
      StoreDnisKeepsInv(c, tone);
      if DnisComplete(cfg, d) || !u.moreDnis {
        if |d.num.dnis| == 1 || !cfg.getAniFirst { TryRequestCategoryKeepsInv(cfg, d); }
        else { TryChangeToG2KeepsInv(cfg, d); }
      }
      else if |d.num.dnis| == 1 && cfg.getAniFirst { TryRequestCategoryKeepsInv(cfg, d); }
      else { RequestNextDnisKeepsInv(cfg, d); }
    } else if cfg.g1.noMoreDnis == tone {
      if |c.num.dnis| == 0 || !cfg.getAniFirst { TryRequestCategoryKeepsInv(cfg, c); }
      else { TryChangeToG2KeepsInv(cfg, c); }
    } else {
      ErrorKeepsInv(c, InvalidMfTone);
    }
  }

  lemma AfterAniKeepsInv(cfg: Config, c: Chan)
    requires Listening(c)
    ensures Inv(AfterAni(cfg, c))
  {
    if !cfg.getAniFirst || DnisComplete(cfg, c) { TryChangeToG2KeepsInv(cfg, c); }
    else { RequestNextDnisKeepsInv(cfg, c); }
  }

  lemma RequestNextAniKeepsInv(cfg: Config, c: Chan)
    requires Listening(c)
    ensures Inv(RequestNextAni(cfg, c))
  {
    PrepareToneKeepsInv(c, c.mfGroup, AniRqTxd, if cfg.gc.nextAni != NO_TONE then cfg.gc.nextAni else cfg.ga.nextAni);
  }

  lemma StoreAniKeepsInv(c: Chan, n: Numbers, tone: Tone)
    requires Listening(c)
    ensures Listening(c.(num := n)) && Listening(Emit(c.(num := n), AniDigit(tone)))
  {
  }

  lemma ReceiveAniKeepsInv(cfg: Config, c: Chan, tone: Tone)
    requires Listening(c)
    ensures Inv(ReceiveAni(cfg, c, tone))
  {
    if tone == NO_TONE {
      RequestNextAniKeepsInv(cfg, c);
    } else if IsDigit(tone) {
      var n := c.num.(ani := c.num.ani + [tone]);
      var d := Emit(c.(num := n), AniDigit(tone));
      StoreAniKeepsInv(c, n, tone);
      if !cfg.forceMaxAni && Uint32(cfg.maxAni) > |d.num.ani| { RequestNextAniKeepsInv(cfg, d); }
      else { AfterAniKeepsInv(cfg, d); }
    } else if tone == cfg.g1.noMoreAni || tone == cfg.g1.restricted {
      StoreAniKeepsInv(c, c.num.(restricted := true), tone);
      if tone == cfg.g1.restricted { AfterAniKeepsInv(cfg, c.(num := c.num.(restricted := true))); }
      else { AfterAniKeepsInv(cfg, c); }
    } else {
      ErrorKeepsInv(c, InvalidMfTone);
    }
  }

  lemma ReceiveCategoryKeepsInv(cfg: Config, c: Chan, tone: Tone)
    requires Listening(c)
    ensures Inv(ReceiveCategory(cfg, c, tone))
  {
    var d := c.(num := c.num.(category := tone));
    StoreAniKeepsInv(c, d.num, tone);
    if cfg.maxAni > 0 { ReceiveAniKeepsInv(cfg, d, NO_TONE); }
    else if d.mfGroup == GC { RequestChangeToG2KeepsInv(cfg, d); }
    else { TryChangeToG2KeepsInv(cfg, d); }
  }

  lemma CancelBackCycleKeepsInv(c: Chan)
    requires Listening(c)
    ensures Listening(Cancel(c, BackCycle))
  {
    CancelTimerEffect(c.timers, BackCycle, Backward);
    CancelledKeepsInv(c, Cancel(c, BackCycle));
  }

  /** d is c with one timer cancelled, other than the double answer timer. */
  ghost predicate Disarmed(c: Chan, d: Chan) {
    && d == c.(timers := d.timers)
    && TimerOwnership(d.timers, c.direction)
    && (Armed(c.timers, DoubleAnswer) ==> Armed(d.timers, DoubleAnswer))
    && (forall id :: id in d.timers.live ==> id in c.timers.live && d.timers.live[id] == c.timers.live[id])
  }

  lemma CancelledKeepsInv(c: Chan, d: Chan)
    requires Listening(c) && Disarmed(c, d)
    ensures Listening(d)
  {
  }

  lemma ForwardToneKeepsInv(cfg: Config, c: Chan, tone: Tone, u: Reply)
    requires Listening(c)
    ensures Inv(HandleForwardTone(cfg, c, tone, u))
  {
    var d := Cancel(c, BackCycle);
    CancelBackCycleKeepsInv(c);
    if d.mfGroup == BackInit || d.mfGroup == GB { FirstOrLastToneKeepsInv(cfg, c, d, tone, u); }
    else if d.mfGroup == GA || d.mfGroup == GC { RequestedToneKeepsInv(cfg, c, d, tone, u); }
    else { ErrorKeepsInv(d, InvalidMfGroup); }
  }

  lemma FirstOrLastToneKeepsInv(cfg: Config, c: Chan, d: Chan, tone: Tone, u: Reply)
    requires d == Cancel(c, BackCycle) && Listening(d) && (d.mfGroup == BackInit || d.mfGroup == GB)
    ensures Inv(HandleForwardTone(cfg, c, tone, u))
  {
    if d.mfGroup == BackInit && d.mfState == MfSeizeAckTxd {
      if cfg.getAniFirst && cfg.aniCanComeFirst { ReceiveAniKeepsInv(cfg, d, tone); }
      else { ReceiveDnisKeepsInv(cfg, d, tone, u); }
    }
    else if d.mfGroup == GB && d.mfState == ChgGiiTxd { OfferCallKeepsInv(cfg, d); }
    else { ErrorKeepsInv(d, InvalidMfState); }
  }

  lemma RequestedToneKeepsInv(cfg: Config, c: Chan, d: Chan, tone: Tone, u: Reply)
    requires d == Cancel(c, BackCycle) && Listening(d) && (d.mfGroup == GA || d.mfGroup == GC)
    ensures Inv(HandleForwardTone(cfg, c, tone, u))
  {
    RequestedToneRead(cfg, c, d, tone, u);
    if d.mfGroup == GA && d.mfState == DnisRqTxd { ReceiveDnisKeepsInv(cfg, d, tone, u); }
    else if d.mfState == CategoryRqTxd { ReceiveCategoryKeepsInv(cfg, d, tone); }
    else if d.mfState == AniRqTxd { ReceiveAniKeepsInv(cfg, d, tone); }
    else { ErrorKeepsInv(d, InvalidMfState); }
  }

  lemma RequestedToneRead(cfg: Config, c: Chan, d: Chan, tone: Tone, u: Reply)
    requires d == Cancel(c, BackCycle) && (d.mfGroup == GA || d.mfGroup == GC)
    ensures HandleForwardTone(cfg, c, tone, u) ==
            if d.mfGroup == GA && d.mfState == DnisRqTxd then ReceiveDnis(cfg, d, tone, u)
            else if d.mfState == CategoryRqTxd then ReceiveCategory(cfg, d, tone)
            else if d.mfState == AniRqTxd then ReceiveAni(cfg, d, tone)
            else ProtocolError(d, InvalidMfState)
  {
  }

  lemma FinishAcceptKeepsInv(c: Chan)
    requires Listening(c) && TrackOf(c.log).offered
    ensures Inv(FinishAccept(c))
  {
    var e := TurnOffMf(c).(callState := Accepted);
    CancelTimerEffect(c.timers, BackCycle, Backward);
    ScheduleRearms(e, AnswerDelay);
    AcceptedKeepsInv(c, e, Schedule(e, AnswerDelay));
  }

  lemma AcceptedKeepsInv(c: Chan, e: Chan, d: Chan)
    requires Listening(c) && TrackOf(c.log).offered
    requires e == c.(mfState := MfOff, callState := Accepted, timers := e.timers)
    requires Disarmed(c, c.(timers := e.timers)) && Rearmed(e, d, AnswerDelay)
    ensures Inv(d)
  {
  }

  lemma SetSilenceKeepsInv(c: Chan)
    requires Listening(c)
    ensures SetSilence(c) == c.(writeTone := NO_TONE) && Listening(SetSilence(c))
  {
  }

  lemma CancelAllKeepsInv(c: Chan)
    requires Listening(c)
    ensures Inv(CancelAll(c))
  {
  }

  lemma ForwardSilenceKeepsInv(c: Chan)
    requires Listening(c)
    ensures Inv(HandleForwardSilence(c))
  {
    var d, e := SetSilence(c), HandleForwardSilence(c);
    assert Listening(d) by { SetSilenceKeepsInv(c); }
    assert e == d || (e == FinishAccept(d) && d.mfState == AcceptedTxd) || e == CancelAll(d) ||
           e == ProtocolError(d, InvalidMfState) || e == ProtocolError(d, InvalidMfGroup);
    if e == ProtocolError(d, InvalidMfState) { ErrorKeepsInv(d, InvalidMfState); }
    else if e == ProtocolError(d, InvalidMfGroup) { ErrorKeepsInv(d, InvalidMfGroup); }
    else if e == CancelAll(d) { CancelAllKeepsInv(d); }
    else if e != d { FinishAcceptKeepsInv(d); }
  }

  lemma SendReleaseKeepsInv(c: Chan)
    requires Core(c) && c.direction == Backward
    ensures Inv(SendClearBackward(c)) && Inv(SendForcedRelease(c))
    ensures Core(SendClearBackward(c))
  {
    CancelTimerEffect(c.timers, BackCycle, Backward);
    ReleasedKeepsInv(c, TurnOffMf(c).timers);
  }

  lemma ReleasedKeepsInv(c: Chan, tt: TimerTable)
    requires Core(c) && c.direction == Backward
    requires TimerOwnership(tt, Backward)
    requires forall id :: id in tt.live ==> id in c.timers.live && tt.live[id] == c.timers.live[id]
    ensures Inv(c.(r2State := ClearBackTxd, mfState := MfOff, timers := tt, casTx := CasClearBack))
    ensures Inv(c.(r2State := ForcedReleaseTxd, mfState := MfOff, timers := tt, casTx := CasForcedRelease))
  {
  }

  // ---------------------------------------------------------------------------------------
  // Steps preserve the invariant: whole steps

  lemma ToneOnKeepsInv(cfg: Config, c: Chan, tone: Tone, u: Reply)
    requires Inv(c) && c.mfState != MfOff && tone != NO_TONE && c.readTone == NO_TONE
    ensures Inv(HandleMfTone(cfg, c, tone, u))
  {
    var d := c.(readTone := tone);
    if c.direction == Backward { ForwardToneKeepsInv(cfg, d, tone, u); }
    else { BackwardToneKeepsInv(d); }
  }

  lemma ToneOffKeepsInv(cfg: Config, c: Chan, u: Reply)
    requires Inv(c) && c.mfState != MfOff && c.readTone != NO_TONE
    ensures Inv(HandleMfTone(cfg, c, NO_TONE, u))
  {
    if c.direction == Backward {
      ForwardSilenceKeepsInv(c);
      ForwardSilenceEnds(c);
      ForgetToneKeepsInv(HandleForwardSilence(c));
    } else {
      BackwardSilenceKeepsInv(cfg, c, c.readTone, u);
      ForgetToneKeepsInv(HandleBackwardSilence(cfg, c, c.readTone, u));
    }
  }

  lemma MfToneKeepsInv(cfg: Config, c: Chan, tone: Tone, u: Reply)
    requires Inv(c)
    ensures Inv(HandleMedia(cfg, c, tone, u))
  {
    if c.mfState != MfOff {
      if tone == NO_TONE && c.readTone != NO_TONE { ToneOffKeepsInv(cfg, c, u); }
      else if tone != NO_TONE && c.readTone == NO_TONE { ToneOnKeepsInv(cfg, c, tone, u); }
      else if tone != c.readTone { ErrorKeepsInv(c, BrokenMfSequence); }
    }
  }

  lemma ForwardSilenceEnds(c: Chan)
    requires c.direction == Backward
    ensures HandleForwardSilence(c).direction != Forward
  {
  }

  lemma ForgetToneKeepsInv(c: Chan)
    requires Settled(c) || (Inv(c) && c.direction != Forward)
    ensures Inv(c.(readTone := NO_TONE))
  {
  }

  lemma HangupKeepsInv(cfg: Config, c: Chan, cause: Cause)
    requires Inv(c)
    ensures Inv(DisconnectCall(cfg, c, cause))
  {
    if c.callState != CallIdle {
      if c.direction == Backward { BackwardHangupKeepsInv(cfg, c, cause); } else { ForwardHangupKeepsInv(c); }
    }
  }

  lemma BackwardHangupKeepsInv(cfg: Config, c: Chan, cause: Cause)
    requires Inv(c) && c.direction == Backward
    ensures Inv(BackwardHangup(cfg, Emit(c, UserHangup), cause))
  {
    var d := Emit(c, UserHangup);
    if c.callState == Offered { DecisionToneKeepsInv(d, DisconnectTxd, RejectTone(cfg, cause)); }
    else if c.r2State == ClearFwdRxd { EndKeepsInv(d); }
    else { SendReleaseKeepsInv(d); }
  }

  lemma DecisionToneKeepsInv(c: Chan, m: MfState, tone: Tone)
    requires Incall(c) && c.callState == Offered && (m == DisconnectTxd || m == AcceptedTxd)
    ensures Inv(PrepareTone(c.(mfState := m), tone))
  {
    DecidingKeepsInv(c, m);
    PrepareToneKeepsInv(c.(mfState := m), c.mfGroup, m, tone);
  }

  lemma DecidingKeepsInv(c: Chan, m: MfState)
    requires Incall(c) && c.callState == Offered && (m == DisconnectTxd || m == AcceptedTxd)
    ensures Listening(c.(mfState := m))
  {
  }

  lemma AcceptCallKeepsInv(cfg: Config, c: Chan, mode: CallMode)
    requires Inv(c)
    ensures Inv(AcceptCall(cfg, c, mode))
  {
    if c.callState == Offered { DecisionToneKeepsInv(c, AcceptedTxd, ToneFromMode(cfg, mode)); }
  }

  lemma AnswerCallKeepsInv(c: Chan, double: bool)
    requires Inv(c)
    ensures Inv(AnswerCall(c, double))
  {
    if c.callState == Accepted {
      var d := c.(casTx := CasAnswer, callState := Answered, r2State := AnswerTxd, answered := true);
      ScheduleRearms(d, DoubleAnswer);
      AnsweredKeepsInv(c, d, Schedule(d, DoubleAnswer));
    }
  }

  lemma AnsweredKeepsInv(c: Chan, d: Chan, e: Chan)
    requires Core(c) && c.callState == Accepted
    requires d == c.(casTx := CasAnswer, callState := Answered, r2State := AnswerTxd, answered := true)
    requires Rearmed(d, e, DoubleAnswer)
    ensures Inv(d) && Inv(e)
  {
  }

  lemma MakeCallKeepsInv(cfg: Config, c: Chan, ani: Option<string>, dnis: string, category: Category, restricted: bool)
    requires Inv(c)
    ensures Inv(MakeCall(cfg, c, ani, dnis, category, restricted))
  {
    if CanMakeCall(c) {
      var d := c.(casTx := CasSeize, r2State := SeizeTxd);
      AddTimerEffect(c.timers, Seize, Forward);
      ScheduleRearms(d.(direction := Forward), Seize);
      PlacedKeepsInv(c, d, Schedule(d, Seize), MakeCall(cfg, c, ani, dnis, category, restricted).num);
    }
  }

  lemma PlacedKeepsInv(c: Chan, d: Chan, e: Chan, n: Numbers)
    requires Core(c) && CanMakeCall(c) && d == c.(casTx := CasSeize, r2State := SeizeTxd)
    requires Rearmed(d.(direction := Forward), e.(direction := Forward), Seize) && e.direction == c.direction
    ensures Inv(Emit(e.(num := n, callState := Dialing, direction := Forward, mfGroup := FwdInit), CallPlaced))
  {
  }

  lemma SeizeAnsweredKeepsInv(cfg: Config, c: Chan, bits: Bits)
    requires Inv(c) && (c.r2State == SeizeTxd || c.r2State == SeizeTxdClearFwdPending)
    ensures Inv(SeizeAnswered(cfg, c, bits))
  {
    var d := Cancel(c, Seize);
    CancelTimerEffect(c.timers, Seize, Forward);
    if bits == BITS_SEIZE_ACK {
      if c.r2State == SeizeTxdClearFwdPending {
        SendClearForwardKeepsInv(d);
      } else {
        var e := d.(r2State := SeizeAckRxd, mfGroup := GI);
        AcknowledgedKeepsInv(c, e);
        SendDnisKeepsInv(cfg, e, 0);
        ProceedKeepsInv(SendDnis(cfg, e, 0));
      }
    } else if bits == BITS_SEIZE {
      GlareKeepsInv(c, d.(r2State := DoubleSeizure));
    } else {
      ErrorKeepsInv(c, InvalidCasBits);
    }
  }

  lemma AcknowledgedKeepsInv(c: Chan, e: Chan)
    requires Core(c) && c.r2State == SeizeTxd
    requires e == c.(timers := e.timers, r2State := SeizeAckRxd, mfGroup := GI) && TimerOwnership(e.timers, Forward)
    requires forall id :: id in e.timers.live ==> id in c.timers.live && e.timers.live[id] == c.timers.live[id]
    ensures ForwardRegister(e)
  {
  }

  lemma ProceedKeepsInv(c: Chan)
    requires Inv(c)
    ensures Inv(Emit(c, CallProceed))
  {
  }

  lemma GlareKeepsInv(c: Chan, d: Chan)
    requires Core(c) && (c.r2State == SeizeTxd || c.r2State == SeizeTxdClearFwdPending)
    requires d == c.(timers := d.timers, r2State := DoubleSeizure) && TimerOwnership(d.timers, Forward)
    requires forall id :: id in d.timers.live ==> id in c.timers.live && d.timers.live[id] == c.timers.live[id]
    ensures Inv(ReportDisconnection(d, Glare))
  {
  }

  lemma ClearForwardKeepsInv(c: Chan, bits: Bits)
    requires Inv(c) && c.direction == Backward
    ensures Inv(ClearForwardOrError(c, bits))
  {
    if bits != BITS_CLEAR_FORWARD { ErrorKeepsInv(c, InvalidCasBits); }
  }

  lemma ReleasedByBackwardKeepsInv(c: Chan, state: R2State, cause: Cause)
    requires Inv(c) && (c.r2State == AcceptRxd || c.r2State == SeizeAckRxd)
    requires state == ClearBackRxd || state == ForcedReleaseRxd
    ensures Inv(ReportDisconnection(c.(r2State := state), cause))
  {
  }

  lemma ReleaseKeepsInv(cfg: Config, c: Chan, bits: Bits)
    requires Inv(c) && (c.r2State == AnswerRxd || c.r2State == AnswerRxdMfPending)
    ensures Inv(ReleaseOrError(cfg, c, bits))
  {
    if bits == BITS_CLEAR_BACK { ClearedKeepsInv(cfg, c, ClearBackRxd, NormalClearing); }
    else if bits == BITS_FORCED_RELEASE { ClearedKeepsInv(cfg, c, ForcedReleaseRxd, ForcedRelease); }
    else { ErrorKeepsInv(c, InvalidCasBits); }
  }

  lemma ClearedKeepsInv(cfg: Config, c: Chan, state: R2State, cause: Cause)
    requires Inv(c) && (c.r2State == AnswerRxd || c.r2State == AnswerRxdMfPending)
    requires (state == ClearBackRxd && cause == NormalClearing) || (state == ForcedReleaseRxd && cause == ForcedRelease)
    ensures Inv(ClearedByBackward(cfg, c, state, cause))
  {
    var d := c.(r2State := state);
    PulseOrReleaseKeepsInv(c, d);
    ScheduleRearms(d, MeteringPulse);
    MeteringKeepsInv(c, d, Schedule(d, MeteringPulse));
  }

  lemma PulseOrReleaseKeepsInv(c: Chan, d: Chan)
    requires Inv(c) && (c.r2State == AnswerRxd || c.r2State == AnswerRxdMfPending)
    requires d == c.(r2State := d.r2State) && (d.r2State == ClearBackRxd || d.r2State == ForcedReleaseRxd)
    ensures Inv(ReportDisconnection(d, NormalClearing)) && Inv(ReportDisconnection(d, ForcedRelease))
  {
  }

  lemma MeteringKeepsInv(c: Chan, d: Chan, e: Chan)
    requires Inv(c) && (c.r2State == AnswerRxd || c.r2State == AnswerRxdMfPending)
    requires d == c.(r2State := d.r2State) && (d.r2State == ClearBackRxd || d.r2State == ForcedReleaseRxd)
    requires Rearmed(d, e, MeteringPulse)
    ensures Inv(e)
  {
  }

  lemma MeteringPulseKeepsInv(cfg: Config, c: Chan, bits: Bits)
    requires Inv(c) && (c.r2State == ClearBackRxd || c.r2State == ForcedReleaseRxd)
    ensures Inv(MeteringOrError(cfg, c, bits))
  {
    CancelTimerEffect(c.timers, MeteringPulse, Forward);
    if Metering(cfg) && bits == BITS_ANSWER { PulseKeepsInv(c, Cancel(c, MeteringPulse)); }
    else { ErrorKeepsInv(c, InvalidCasBits); }
  }

  lemma PulseKeepsInv(c: Chan, d: Chan)
    requires Core(c) && (c.r2State == ClearBackRxd || c.r2State == ForcedReleaseRxd)
    requires d == c.(timers := d.timers) && TimerOwnership(d.timers, Forward)
    requires forall id :: id in d.timers.live ==> id in c.timers.live && d.timers.live[id] == c.timers.live[id]
    ensures Inv(Emit(d.(r2State := AnswerRxd), BillingPulse))
  {
  }

  lemma QuietMoveKeepsInv(c: Chan, state: R2State)
    requires Inv(c)
    requires
      (c.r2State == DoubleSeizure && state == ClearFwdRxd) ||
      (c.r2State == SeizeAckRxd && state == AnswerRxdMfPending) ||
      (c.r2State == ClearFwdTxd && state == ClearBackAfterClearFwdRxd)
    ensures Inv(c.(r2State := state))
  {
  }

  lemma LineEventKeepsInv(c: Chan)
    requires Inv(c)
    ensures Inv(Emit(c, LineIdle)) && Inv(Emit(c, LineBlocked))
  {
  }

  lemma ReadKeepsInv(c: Chan, bits: Bits)
    requires Inv(c)
    ensures Inv(c.(casRead := bits))
  {
  }

  lemma CasStoppedKeepsInv(cfg: Config, c: Chan, bits: Bits)
    requires Inv(c) && !c.inAlarm && NoCallState(c.r2State)
    ensures Inv(CasChanged(cfg, c, bits))
  {
    if c.r2State == Idle { CasIdleKeepsInv(cfg, c, bits); } else { CasOutOfServiceKeepsInv(cfg, c, bits); }
  }

  lemma CasIdleKeepsInv(cfg: Config, c: Chan, bits: Bits)
    requires Inv(c) && !c.inAlarm && c.r2State == Idle
    ensures Inv(CasChanged(cfg, c, bits))
  {
    if bits == BITS_BLOCK || bits == BITS_IDLE { LineEventKeepsInv(c); }
    else if bits == BITS_SEIZE { IncomingKeepsInv(cfg, c); }
    else { ErrorKeepsInv(c, InvalidCasBits); }
  }

  lemma CasOutOfServiceKeepsInv(cfg: Config, c: Chan, bits: Bits)
    requires Inv(c) && (c.r2State == Blocked || c.r2State == Init)
    ensures Inv(CasChanged(cfg, c, bits))
  {
    var d := CasChanged(cfg, c, bits);
    assert d == Emit(c, LineIdle) || d == Emit(c, LineBlocked) || d == c || d == ProtocolError(c, InvalidR2State);
    if d == ProtocolError(c, InvalidR2State) { ErrorKeepsInv(c, InvalidR2State); } else { LineEventKeepsInv(c); }
  }

  lemma CasBackwardKeepsInv(cfg: Config, c: Chan, bits: Bits)
    requires Inv(c) && (BackwardState(c.r2State) || c.r2State == DoubleSeizureClearFwdPending ||
                        c.r2State == ClearBackToneRxd || c.r2State == ClearBackAfterClearFwdRxd)
    ensures Inv(CasChanged(cfg, c, bits))
  {
    match c.r2State
    case SeizeAckTxd => ClearForwardKeepsInv(c, bits);
    case AnswerTxd => ClearForwardKeepsInv(c, bits);
    case ExecutingDoubleAnswer => ClearForwardKeepsInv(c, bits);
    case ClearFwdRxd => ErrorKeepsInv(c, InvalidR2State);
    case _ => CasEndKeepsInv(cfg, c, bits);
  }

  /** The states that wait for the far end to go idle or clear forward. */
  lemma CasEndKeepsInv(cfg: Config, c: Chan, bits: Bits)
    requires Inv(c) && (c.r2State == ClearBackTxd || c.r2State == ForcedReleaseTxd || c.r2State == ClearBackToneRxd ||
                        c.r2State == DoubleSeizureClearFwdPending || c.r2State == ClearBackAfterClearFwdRxd)
    ensures Inv(CasChanged(cfg, c, bits))
  {
    var d := CasChanged(cfg, c, bits);
    assert d == ReportCallEnd(c) || d == ProtocolError(c, InvalidCasBits);
    if d == ReportCallEnd(c) { EndKeepsInv(c); } else { ErrorKeepsInv(c, InvalidCasBits); }
  }

  lemma CasForwardKeepsInv(cfg: Config, c: Chan, bits: Bits)
    requires Inv(c) && !NoCallState(c.r2State) && !BackwardState(c.r2State)
    ensures Inv(CasChanged(cfg, c, bits))
  {
    match c.r2State
    case SeizeTxd => SeizeAnsweredKeepsInv(cfg, c, bits);
    case SeizeTxdClearFwdPending => SeizeAnsweredKeepsInv(cfg, c, bits);
    case AnswerRxdMfPending => ReleaseKeepsInv(cfg, c, bits);
    case AnswerRxd => ReleaseKeepsInv(cfg, c, bits);
    case ClearBackRxd => MeteringPulseKeepsInv(cfg, c, bits);
    case ForcedReleaseRxd => MeteringPulseKeepsInv(cfg, c, bits);
    case DoubleSeizure => CasDoubleSeizureKeepsInv(cfg, c, bits);
    case AcceptRxd => CasAcceptRxdKeepsInv(cfg, c, bits);
    case SeizeAckRxd => CasSeizeAckRxdKeepsInv(cfg, c, bits);
    case ClearFwdTxd => CasClearFwdTxdKeepsInv(cfg, c, bits);
    case _ => CasBackwardKeepsInv(cfg, c, bits);
  }

  lemma CasDoubleSeizureKeepsInv(cfg: Config, c: Chan, bits: Bits)
    requires Inv(c) && c.r2State == DoubleSeizure
    ensures Inv(CasChanged(cfg, c, bits))
  {
    if bits == BITS_CLEAR_FORWARD { QuietMoveKeepsInv(c, ClearFwdRxd); } else { ErrorKeepsInv(c, InvalidCasBits); }
  }

  lemma CasAcceptRxdKeepsInv(cfg: Config, c: Chan, bits: Bits)
    requires Inv(c) && c.r2State == AcceptRxd
    ensures Inv(CasChanged(cfg, c, bits))
  {
    if bits == BITS_ANSWER { MarkAnsweredKeepsInv(c); }
    else if bits == BITS_CLEAR_BACK { ReleasedByBackwardKeepsInv(c, ClearBackRxd, NormalClearing); }
    else if bits == BITS_FORCED_RELEASE { ReleasedByBackwardKeepsInv(c, ForcedReleaseRxd, ForcedRelease); }
    else { ErrorKeepsInv(c, InvalidCasBits); }
  }

  lemma CasSeizeAckRxdKeepsInv(cfg: Config, c: Chan, bits: Bits)
    requires Inv(c) && c.r2State == SeizeAckRxd
    ensures Inv(CasChanged(cfg, c, bits))
  {
    if bits == BITS_ANSWER { QuietMoveKeepsInv(c, AnswerRxdMfPending); }
    else if bits == BITS_CLEAR_BACK { ReleasedByBackwardKeepsInv(c, ClearBackRxd, NormalClearing); }
    else if bits == BITS_FORCED_RELEASE { ReleasedByBackwardKeepsInv(c, ForcedReleaseRxd, ForcedRelease); }
    else { ErrorKeepsInv(c, InvalidCasBits); }
  }

  lemma CasClearFwdTxdKeepsInv(cfg: Config, c: Chan, bits: Bits)
    requires Inv(c) && c.r2State == ClearFwdTxd
    ensures Inv(CasChanged(cfg, c, bits))
  {
    if bits == BITS_IDLE { EndKeepsInv(c); }
    else if BackwardDisconnection(bits).Some? { QuietMoveKeepsInv(c, ClearBackAfterClearFwdRxd); }
    else { ErrorKeepsInv(c, InvalidCasBits); }
  }

  lemma CasKeepsInv(cfg: Config, c: Chan, bits: Bits)
    requires Inv(c)
    ensures Inv(HandleCas(cfg, c, bits))
  {
    if c.casRead != bits && !c.inAlarm {
      var d := c.(casRead := bits);
      ReadKeepsInv(c, bits);
      if NoCallState(c.r2State) { CasStoppedKeepsInv(cfg, d, bits); }
      else if BackwardState(c.r2State) { CasBackwardKeepsInv(cfg, d, bits); }
      else { CasForwardKeepsInv(cfg, d, bits); }
    }
  }

  // ---------------------------------------------------------------------------------------
  // Steps preserve the invariant: timers

  /** The channel as a scheduler pass leaves it just before calling the callback of an expired timer. */
  function Expired(c: Chan, id: int): Chan { c.(timers := c.timers.(live := c.timers.live - {id})) }

  lemma ExpiredCore(c: Chan, id: int)
    requires Core(c) && id in c.timers.live
    ensures Core(Expired(c, id))
    ensures c.timers.live[id] == AnswerDelay ==> TrackOf(c.log).offered
    ensures forall u :: u != c.timers.live[id] && Armed(c.timers, u) ==> Armed(Expired(c, id).timers, u)
    ensures c.timers.live[id] != SetCallDown && CallDownArmed(c.timers) ==> CallDownArmed(Expired(c, id).timers)
  {
    if c.timers.live[id] != SetCallDown && CallDownArmed(c.timers) {
      var k :| k in c.timers.live && c.timers.live[k] == SetCallDown;
      assert k in Expired(c, id).timers.live && Expired(c, id).timers.live[k] == SetCallDown;
    }
  }

  lemma ForwardExpiryKeepsInv(cfg: Config, c: Chan, id: int)
    requires Inv(c) && id in c.timers.live && ForwardTimer(c.timers.live[id])
    ensures Inv(Dispatch(cfg, Expired(c, id), c.timers.live[id]))
  {
    var d := Expired(c, id);
    ExpiredCore(c, id);
    match c.timers.live[id]
    case FwdSafety => ErrorKeepsInv(d, FwdSafetyTimeout);
    case Seize => ErrorKeepsInv(d, SeizeTimeout);
    case SeizePersist => SendClearForwardKeepsInv(d);
    case Answer => LateExpiryKeepsInv(c, d, Answer, NoAnswer);
    case MeteringPulse =>
      LateExpiryKeepsInv(c, d, MeteringPulse, if d.r2State == ForcedReleaseRxd then ForcedRelease else NormalClearing);
    case SetCallDown => EndKeepsInv(d);
    case _ =>
  }

  lemma LateExpiryKeepsInv(c: Chan, d: Chan, t: Timer, cause: Cause)
    requires Inv(c) && Core(d) && c.direction == Forward && d == c.(timers := d.timers)
    requires t == Answer || t == MeteringPulse
    requires forall u :: u != t && Armed(c.timers, u) ==> Armed(d.timers, u)
    requires CallDownArmed(c.timers) ==> CallDownArmed(d.timers)
    ensures Inv(ReportDisconnection(d, cause))
  {
  }

  lemma BackwardExpiryKeepsInv(cfg: Config, c: Chan, id: int)
    requires Inv(c) && id in c.timers.live && !ForwardTimer(c.timers.live[id])
    ensures Inv(Dispatch(cfg, Expired(c, id), c.timers.live[id]))
  {
    var d := Expired(c, id);
    ExpiredCore(c, id);
    match c.timers.live[id]
    case DoubleAnswer => DoubleAnswerKeepsInv(d);
    case BackResumeCycle => SetSilenceKeepsInv2(d);
    case BackCycle => BackCycleKeepsInv(cfg, d);
    case AnswerDelay => ReadyToAnswerKeepsInv(d);
    case _ =>
  }

  lemma SetSilenceKeepsInv2(c: Chan)
    requires Incall(c)
    ensures Inv(SetSilence(c))
  {
  }

  lemma ReadyToAnswerKeepsInv(c: Chan)
    requires Incall(c) && TrackOf(c.log).offered
    ensures Inv(Emit(c, CallAccepted(UnknownMode)))
  {
  }

  lemma BackCycleKeepsInv(cfg: Config, c: Chan)
    requires Incall(c)
    ensures Inv(MfBackCycleExpired(cfg, c))
  {
    if cfg.g1.noMoreDnis == NO_TONE && c.mfGroup == GA && (c.mfState == DnisRqTxd || c.mfState == AniRqTxd) {
      var d := Schedule(c, BackResumeCycle);
      ScheduleRearms(c, BackResumeCycle);
      ResumeKeepsInv(c, d);
      if !cfg.aniCanComeFirst && !cfg.getAniFirst { TryRequestCategoryKeepsInv(cfg, d); }
      else { TryChangeToG2KeepsInv(cfg, d); }
    } else {
      ErrorKeepsInv(c, BackMfTimeout);
    }
  }

  lemma ResumeKeepsInv(c: Chan, d: Chan)
    requires Listening(c) && Rearmed(c, d, BackResumeCycle)
    ensures Listening(d)
  {
  }

  lemma DoubleAnswerKeepsInv(c: Chan)
    requires Core(c) && c.direction == Backward
    ensures Inv(DoubleAnswerExpired(c))
  {
    if c.r2State == AnswerTxd {
      var d := SendClearBackward(c).(r2State := ExecutingDoubleAnswer);
      SendReleaseKeepsInv(c);
      SuspendedCore(c, SendClearBackward(c), d);
      ScheduleRearms(d, DoubleAnswer);
      SuspendedKeepsInv(d, Schedule(d, DoubleAnswer));
    }
  }

  lemma SuspendedCore(c: Chan, e: Chan, d: Chan)
    requires Core(e) && c.callState == Answered && e.callState == c.callState && e.direction == Backward
    requires e.mfState == MfOff && d == e.(r2State := ExecutingDoubleAnswer)
    ensures Core(d)
  {
  }

  lemma SuspendedKeepsInv(d: Chan, e: Chan)
    requires Core(d) && d.direction == Backward && d.r2State == ExecutingDoubleAnswer && Rearmed(d, e, DoubleAnswer)
    ensures Inv(e)
  {
  }

  lemma TimerKeepsInv(cfg: Config, c: Chan, id: int)
    requires Inv(c)
    ensures Inv(TimerFires(cfg, c, id))
  {
    if id in c.timers.live {
      if ForwardTimer(c.timers.live[id]) { ForwardExpiryKeepsInv(cfg, c, id); }
      else { BackwardExpiryKeepsInv(cfg, c, id); }
    }
  }

  // ---------------------------------------------------------------------------------------
  // Steps preserve the invariant: resets, alarms, and the main theorem

  lemma ResetKeepsInv(c: Chan)
    requires TrackOf(c.log).lawful && TrackOf(c.log).phase == NoCall
    ensures Inv(SetIdle(c)) && Inv(SetBlocked(c))
  {
  }

  lemma AlarmOnKeepsInv(c: Chan)
    requires Inv(c)
    ensures Inv(AlarmOn(c))
  {
    var d := Emit(c.(inAlarm := true), HardwareAlarm(true));
    if c.callState != CallIdle {
      ErrorKeepsInv(d, AlarmRaised);
    }
  }

  lemma AlarmOffKeepsInv(cfg: Config, c: Chan, bits: Bits)
    requires Inv(c)
    ensures Inv(AlarmOff(cfg, c, bits))
  {
    var d := Emit(Emit(c.(inAlarm := false), HardwareAlarm(false)), Reset);
    var e := if d.r2State != Blocked then SetIdle(d) else SetBlocked(d);
    assert Inv(e) by { ResetKeepsInv(d); }
    assert AlarmOff(cfg, c, bits) == HandleCas(cfg, e, bits);
    CasKeepsInv(cfg, e, bits);
  }

  lemma StepKeepsInv(cfg: Config, c: Chan, s: Step)
    requires Inv(c)
    ensures Inv(Next(cfg, c, s))
  {
    match s
    case CasSample(bits) => CasKeepsInv(cfg, c, bits);
    case MfSample(tone, reply) => MfToneKeepsInv(cfg, c, tone, reply);
    case Fire(id) => TimerKeepsInv(cfg, c, id);
    case RaiseAlarm => AlarmOnKeepsInv(c);
    case ClearAlarm(bits) => AlarmOffKeepsInv(cfg, c, bits);
    case _ => RequestKeepsInv(cfg, c, s);
  }

  lemma RequestKeepsInv(cfg: Config, c: Chan, s: Step)
    requires Inv(c)
    requires s.Place? || s.Accept? || s.AnswerWith? || s.Hangup? || s.ResetIdle? || s.ResetBlocked? || s.Ack?
    ensures Inv(Next(cfg, c, s))
  {
    match s
    case Place(ani, dnis, category, restricted) => MakeCallKeepsInv(cfg, c, ani, dnis, category, restricted);
    case Accept(mode) => AcceptCallKeepsInv(cfg, c, mode);
    case AnswerWith(double) => AnswerCallKeepsInv(c, double);
    case Hangup(cause) => HangupKeepsInv(cfg, c, cause);
    case Ack => AckKeepsInv(c);
    case _ => ResetKeepsInv(Emit(c, Reset));
  }

  lemma AckKeepsInv(c: Chan)
    requires Inv(c)
    ensures Inv(AckCall(c))
  {
  }

  /** Every state a run can reach satisfies the invariant. */
  lemma {:induction false} RunKeepsInv(cfg: Config, steps: seq<Step>)
    ensures Inv(Run(cfg, NEW_CHAN, steps))
    decreases |steps|
  {
    if steps != [] {
      RunKeepsInv(cfg, steps[..|steps| - 1]);
      StepKeepsInv(cfg, Run(cfg, NEW_CHAN, steps[..|steps| - 1]), steps[|steps| - 1]);
    }
  }
}
