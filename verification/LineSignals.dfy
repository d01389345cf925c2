/**
 Agreement between the state of a channel and the line signal it transmits, and how long an
 outgoing call holds its seize.
 */
module LineSignals {
  import opened Signals
  import opened Protocol
  import opened RunInvariants

  /** The signal a state transmits outside alarms; after a clear forward it is whatever was there before. */
  predicate Prescribes(s: R2State, signal: CasSignal) {
    match s
    case Idle => signal == CasIdle
    case Blocked => signal == CasBlock
    case SeizeAckTxd => signal == CasSeizeAck
    case AnswerTxd => signal == CasAnswer
    case ClearBackTxd => signal == CasClearBack
    case ExecutingDoubleAnswer => signal == CasClearBack
    case ForcedReleaseTxd => signal == CasForcedRelease
    case ClearFwdTxd => signal == CasClearForward
    case ClearBackAfterClearFwdRxd => signal == CasClearForward
    case ClearFwdRxd => signal == CasSeizeAck || signal == CasAnswer || signal == CasClearBack || signal == CasSeize
    case Init => true
    case _ => signal == CasSeize
  }

  ghost predicate TxAgreement(c: Chan) {
    && (!c.inAlarm && c.r2State != Init ==> Prescribes(c.r2State, c.casTx))
    && (c.direction == Forward && c.r2State == ClearFwdRxd ==> c.casTx == CasSeize)
  }

  /** A reachable shape that also agrees with the line. */
  ghost predicate OnLine(c: Chan) { CallShape(c) && TxAgreement(c) }

  /** d shows the far end what c showed, or the call was given up. */
  predicate SameLine(c: Chan, d: Chan) {
    && d.inAlarm == c.inAlarm
    && ((d.r2State == c.r2State && d.casTx == c.casTx && d.direction == c.direction) ||
        (d.r2State == Idle && d.casTx == CasIdle && d.direction == Stopped))
  }

  lemma TryChangeToG2KeepsLine(cfg: Config, c: Chan)
    ensures SameLine(c, TryChangeToG2(cfg, c))
  {
  }

  lemma TryRequestCategoryKeepsLine(cfg: Config, c: Chan)
    ensures SameLine(c, TryRequestCategory(cfg, c))
  {
    if cfg.skipCategory { TryChangeToG2KeepsLine(cfg, c); }
  }

  lemma RequestNextDnisKeepsLine(cfg: Config, c: Chan)
    ensures SameLine(c, RequestNextDnis(cfg, c))
  {
  }

  lemma AfterAniKeepsLine(cfg: Config, c: Chan)
    ensures SameLine(c, AfterAni(cfg, c))
  {
    if !cfg.getAniFirst || DnisComplete(cfg, c) { TryChangeToG2KeepsLine(cfg, c); }
    else { RequestNextDnisKeepsLine(cfg, c); }
  }

  lemma ReceiveAniKeepsLine(cfg: Config, c: Chan, tone: Tone)
    ensures SameLine(c, ReceiveAni(cfg, c, tone))
  {
    if tone == NO_TONE {
    } else if IsDigit(tone) {
      var d := Emit(c.(num := c.num.(ani := c.num.ani + [tone])), AniDigit(tone));
      if cfg.forceMaxAni || Uint32(cfg.maxAni) <= |d.num.ani| { AfterAniKeepsLine(cfg, d); }
    } else if tone == cfg.g1.restricted {
      AfterAniKeepsLine(cfg, c.(num := c.num.(restricted := true)));
    } else if tone == cfg.g1.noMoreAni {
      AfterAniKeepsLine(cfg, c);
    }
  }

  lemma ReceiveDnisKeepsLine(cfg: Config, c: Chan, tone: Tone, u: Reply)
    ensures SameLine(c, ReceiveDnis(cfg, c, tone, u))
  {
    if IsDigit(tone) {
      var d := StoreDnis(c, tone);
      if DnisComplete(cfg, d) || !u.moreDnis {
        if |d.num.dnis| == 1 || !cfg.getAniFirst { TryRequestCategoryKeepsLine(cfg, d); }
        else { TryChangeToG2KeepsLine(cfg, d); }
      }
      else if |d.num.dnis| == 1 && cfg.getAniFirst { TryRequestCategoryKeepsLine(cfg, d); }
      else { RequestNextDnisKeepsLine(cfg, d); }
    } else if cfg.g1.noMoreDnis == tone {
      if |c.num.dnis| == 0 || !cfg.getAniFirst { TryRequestCategoryKeepsLine(cfg, c); }
      else { TryChangeToG2KeepsLine(cfg, c); }
    }
  }

  lemma ReceiveCategoryKeepsLine(cfg: Config, c: Chan, tone: Tone)
    ensures SameLine(c, ReceiveCategory(cfg, c, tone))
  {
    var d := c.(num := c.num.(category := tone));
    if cfg.maxAni > 0 { ReceiveAniKeepsLine(cfg, d, NO_TONE); }
    else if d.mfGroup == GC { }
    else { TryChangeToG2KeepsLine(cfg, d); }
  }

  lemma ForwardToneKeepsLine(cfg: Config, c: Chan, tone: Tone, u: Reply)
    ensures SameLine(c, HandleForwardTone(cfg, c, tone, u))
  {
    var d := Cancel(c, BackCycle);
    if d.mfGroup == BackInit && d.mfState == MfSeizeAckTxd {
      if cfg.getAniFirst && cfg.aniCanComeFirst { ReceiveAniKeepsLine(cfg, d, tone); }
      else { ReceiveDnisKeepsLine(cfg, d, tone, u); }
    }
    else if d.mfGroup == GA && d.mfState == DnisRqTxd { ReceiveDnisKeepsLine(cfg, d, tone, u); }
    else if (d.mfGroup == GA || d.mfGroup == GC) && d.mfState == CategoryRqTxd {
      ReceiveCategoryKeepsLine(cfg, d, tone);
    }
    else if (d.mfGroup == GA || d.mfGroup == GC) && d.mfState == AniRqTxd { ReceiveAniKeepsLine(cfg, d, tone); }
    else if d.mfGroup == GB && d.mfState == ChgGiiTxd { OfferKeepsLine(cfg, d); }
    else { ErrorIsSameLine(c, d); }
  }

  lemma OfferKeepsLine(cfg: Config, c: Chan)
    ensures SameLine(c, OfferCall(cfg, c))
  {
  }

  lemma ErrorIsSameLine(c: Chan, d: Chan)
    requires d == c.(timers := d.timers)
    ensures forall r :: SameLine(c, ProtocolError(d, r))
  {
  }

  lemma ForwardSilenceKeepsLine(c: Chan)
    ensures SameLine(c, HandleForwardSilence(c))
  {
    SilenceKeepsLine(c);
    FinishKeepsLine(SetSilence(c));
    SilenceRead(c);
  }

  lemma SilenceRead(c: Chan)
    ensures var d, r := SetSilence(c), HandleForwardSilence(c);
            r == d || r == FinishAccept(d) || r == CancelAll(d) ||
            r == ProtocolError(d, InvalidMfState) || r == ProtocolError(d, InvalidMfGroup)
  {
  }

  lemma SilenceKeepsLine(c: Chan)
    ensures var d := SetSilence(c);
            SameLine(c, d) && d.r2State == c.r2State && d.casTx == c.casTx && d.direction == c.direction
  {
  }

  lemma FinishKeepsLine(c: Chan)
    ensures SameLine(c, FinishAccept(c))
  {
  }

  lemma SendDnisKeepsLine(cfg: Config, c: Chan, offset: int)
    ensures SameLine(c, SendDnis(cfg, c, offset))
  {
  }

  lemma SendAniKeepsLine(cfg: Config, c: Chan)
    ensures SameLine(c, SendAni(cfg, c))
  {
    if c.mfState == AniEndTxd && (cfg.ga.nextDnis == cfg.ga.nextAni || cfg.ga.nextDnis == cfg.gc.nextAni) {
      SendDnisKeepsLine(cfg, c.(mfGroup := GI), 1);
    }
  }

  // ---------------------------------------------------------------------------------------
  // Agreement over a step

  lemma SameLineAgrees(c: Chan, d: Chan)
    requires TxAgreement(c) && SameLine(c, d)
    ensures TxAgreement(d)
  {
  }

  lemma SendClearForwardLine(c: Chan)
    ensures var d := SendClearForward(c);
            d.r2State == ClearFwdTxd && d.casTx == CasClearForward && d.direction == c.direction
  {
  }

  lemma ForwardHangupAgrees(c: Chan)
    requires TxAgreement(c) && c.direction == Forward && ForwardState(c.r2State) && !c.inAlarm
    ensures TxAgreement(ForwardHangup(c))
  {
    if c.r2State != SeizeTxd && c.r2State != DoubleSeizure && c.r2State != ClearFwdRxd { SendClearForwardLine(c); }
  }

  lemma MarkAnsweredLine(c: Chan)
    ensures var d := MarkAnswered(c); d.r2State == AnswerRxd && d.casTx == c.casTx && d.direction == c.direction
  {
  }

  lemma AcceptToneAgrees(cfg: Config, c: Chan, mode: CallMode, u: Reply)
    requires OnLine(c) && c.direction == Forward && !ForwardMuted(c.r2State)
    ensures TxAgreement(HandleAcceptTone(cfg, c, mode, u))
  {
    var early := Emit(c.(r2State := AcceptRxd), CallAccepted(mode));
    var late := Emit(Schedule(c.(r2State := AcceptRxd), Answer), CallAccepted(mode));
    if c.r2State == AnswerRxdMfPending {
      if u.dropOnAccept { SendClearForwardLine(Emit(early, UserHangup)); } else { MarkAnsweredLine(early); }
    } else if u.dropOnAccept {
      SendClearForwardLine(Emit(late, UserHangup));
    }
  }

  lemma RegisterRequestAgrees(cfg: Config, c: Chan, tone: Tone, u: Reply)
    requires OnLine(c) && c.direction == Forward && !ForwardMuted(c.r2State)
    ensures TxAgreement(HandleBackwardSilence(cfg, c, tone, u))
  {
    match c.mfGroup
    case GI => GroupAAgrees(cfg, c, tone, u);
    case GII => GroupBAgrees(cfg, c, tone, u);
    case GIII => GroupCAgrees(cfg, c, tone);
    case _ => ErrorIsSameLine(c, c);
  }

  lemma RejectedAgrees(c: Chan, cause: Cause)
    requires OnLine(c) && c.direction == Forward && !ForwardMuted(c.r2State)
    ensures TxAgreement(RejectedByTone(c, cause))
  {
  }

  lemma GroupAAgrees(cfg: Config, c: Chan, tone: Tone, u: Reply)
    requires OnLine(c) && c.direction == Forward && !ForwardMuted(c.r2State)
    ensures TxAgreement(HandleGroupARequest(cfg, c, tone, u))
  {
    if IsDnisRequest(cfg, tone) {
      DnisRequestKeepsLine(cfg, c, tone);
      SameLineAgrees(c, HandleDnisRequest(cfg, c, tone));
    }
    else if c.num.categorySent && tone == cfg.ga.nextAni {
      SendAniKeepsLine(cfg, c);
      SameLineAgrees(c, SendAni(cfg, c));
    }
    else if tone == CategoryRequestTone(cfg) || tone == cfg.ga.changeToG2 { SendCategoryAgrees(c); }
    else if tone == cfg.ga.addressComplete { AcceptToneAgrees(cfg, c, WithCharge, u); }
    else if tone == cfg.ga.congestion { RejectedAgrees(c, NetworkCongestion); }
    else { ErrorIsSameLine(c, c); }
  }

  lemma SendCategoryAgrees(c: Chan)
    requires TxAgreement(c)
    ensures forall g :: TxAgreement(SendCategory(c.(mfGroup := g)))
  {
  }

  lemma DnisRequestKeepsLine(cfg: Config, c: Chan, tone: Tone)
    requires IsDnisRequest(cfg, tone)
    ensures SameLine(c, HandleDnisRequest(cfg, c, tone))
  {
    if tone == cfg.ga.nextDnis { SendDnisKeepsLine(cfg, c, 1); }
    else if tone == cfg.ga.dnisMinus1 { SendDnisKeepsLine(cfg, c, -1); }
    else if tone == cfg.ga.dnisMinus2 { SendDnisKeepsLine(cfg, c, -2); }
    else if tone == cfg.ga.dnisMinus3 { SendDnisKeepsLine(cfg, c, -3); }
    else { SendDnisKeepsLine(cfg, c.(num := c.num.(dnisIndex := 0)), 0); }
  }

  lemma GroupBAgrees(cfg: Config, c: Chan, tone: Tone, u: Reply)
    requires OnLine(c) && c.direction == Forward && !ForwardMuted(c.r2State)
    ensures TxAgreement(HandleGroupBRequest(cfg, c, tone, u))
  {
    if tone == cfg.gb.acceptCharge || tone == cfg.gb.acceptNoCharge || tone == cfg.gb.specialInfo {
      AcceptToneAgrees(cfg, c, ModeFromTone(cfg, tone), u);
    }
    else if tone == cfg.gb.busy { RejectedAgrees(c, BusyNumber); }
    else if tone == cfg.gb.congestion { RejectedAgrees(c, NetworkCongestion); }
    else if tone == cfg.gb.unallocated { RejectedAgrees(c, UnallocatedNumber); }
    else if tone == cfg.gb.numberChanged { RejectedAgrees(c, NumberChanged); }
    else if tone == cfg.gb.outOfOrder { RejectedAgrees(c, OutOfOrder); }
    else { ErrorIsSameLine(c, c); }
  }

  lemma GroupCAgrees(cfg: Config, c: Chan, tone: Tone)
    requires OnLine(c) && c.direction == Forward && !ForwardMuted(c.r2State)
    ensures TxAgreement(HandleGroupCRequest(cfg, c, tone))
  {
    if tone == cfg.gc.nextAni {
      SendAniKeepsLine(cfg, c);
      SameLineAgrees(c, SendAni(cfg, c));
    }
    else if tone == cfg.gc.changeToG2 { SendCategoryAgrees(c); }
    else if tone == cfg.gc.nextDnisAndGa {
      SendDnisKeepsLine(cfg, c.(mfGroup := GI), 1);
      SameLineAgrees(c, SendDnis(cfg, c.(mfGroup := GI), 1));
    }
    else if tone == cfg.gc.congestion { RejectedAgrees(c, NetworkCongestion); }
    else { ErrorIsSameLine(c, c); }
  }

  lemma MfAgrees(cfg: Config, c: Chan, tone: Tone, u: Reply)
    requires OnLine(c)
    ensures TxAgreement(HandleMedia(cfg, c, tone, u))
  {
    if c.mfState != MfOff && tone != c.readTone {
      if tone != NO_TONE && c.readTone != NO_TONE { ErrorIsSameLine(c, c); }
      else if tone != NO_TONE { ToneOnAgrees(cfg, c, tone, u); }
      else { ToneOffAgrees(cfg, c, u); }
    }
  }

  lemma ToneOnAgrees(cfg: Config, c: Chan, tone: Tone, u: Reply)
    requires OnLine(c) && c.mfState != MfOff && tone != NO_TONE && c.readTone == NO_TONE
    ensures TxAgreement(HandleMfTone(cfg, c, tone, u))
  {
    var d := c.(readTone := tone);
    if c.direction == Backward {
      ForwardToneKeepsLine(cfg, d, tone, u);
      SameLineAgrees(c, HandleForwardTone(cfg, d, tone, u));
    }
  }

  lemma ToneOffAgrees(cfg: Config, c: Chan, u: Reply)
    requires OnLine(c) && c.mfState != MfOff && c.readTone != NO_TONE
    ensures TxAgreement(HandleMfTone(cfg, c, NO_TONE, u))
  {
    if c.direction == Backward {
      ForwardSilenceKeepsLine(c);
      SameLineAgrees(c, HandleForwardSilence(c).(readTone := NO_TONE));
    } else {
      RegisterRequestAgrees(cfg, c, c.readTone, u);
    }
  }

  lemma CasAgrees(cfg: Config, c: Chan, bits: Bits)
    requires OnLine(c) && (cfg.autoSeizeAck || c.r2State != Idle || bits != BITS_SEIZE)
    ensures TxAgreement(HandleCas(cfg, c, bits))
  {
    if c.casRead != bits && !c.inAlarm { ChangeAgrees(cfg, c.(casRead := bits), bits); }
  }

  lemma ChangeAgrees(cfg: Config, c: Chan, bits: Bits)
    requires OnLine(c) && !c.inAlarm && (cfg.autoSeizeAck || c.r2State != Idle || bits != BITS_SEIZE)
    ensures TxAgreement(CasChanged(cfg, c, bits))
  {
    match c.r2State
    case SeizeTxd => SeizeAnsweredAgrees(cfg, c, bits);
    case SeizeTxdClearFwdPending => SeizeAnsweredAgrees(cfg, c, bits);
    case AnswerRxd => ReleaseAgrees(cfg, c, bits);
    case AnswerRxdMfPending => ReleaseAgrees(cfg, c, bits);
    case AcceptRxd => AcceptedCasAgrees(cfg, c, bits);
    case Idle => if bits == BITS_SEIZE { IncomingAgrees(cfg, c); }
    case ClearFwdTxd => ClearingCasAgrees(cfg, c, bits);
    case ClearBackToneRxd => ClearingCasAgrees(cfg, c, bits);
    case ClearBackAfterClearFwdRxd => ClearingCasAgrees(cfg, c, bits);
    case _ => if BackwardState(c.r2State) { BackwardCasAgrees(cfg, c, bits); } else { OtherCasAgrees(cfg, c, bits); }
  }

  lemma AcceptedCasAgrees(cfg: Config, c: Chan, bits: Bits)
    requires OnLine(c) && c.r2State == AcceptRxd
    ensures TxAgreement(CasChanged(cfg, c, bits))
  {
    MarkAnsweredLine(c);
  }

  lemma ClearingCasAgrees(cfg: Config, c: Chan, bits: Bits)
    requires OnLine(c) && (c.r2State == ClearFwdTxd || c.r2State == ClearBackToneRxd ||
        c.r2State == ClearBackAfterClearFwdRxd)
    ensures TxAgreement(CasChanged(cfg, c, bits))
  {
  }

  lemma BackwardCasAgrees(cfg: Config, c: Chan, bits: Bits)
    requires OnLine(c) && BackwardState(c.r2State)
    ensures TxAgreement(CasChanged(cfg, c, bits))
  {
  }

  /** The other states in which a change of bits ends the call, is noted, or is an error. */
  lemma OtherCasAgrees(cfg: Config, c: Chan, bits: Bits)
    requires OnLine(c) && !BackwardState(c.r2State) && !c.r2State.Idle?
    requires !c.r2State.SeizeTxd? && !c.r2State.SeizeTxdClearFwdPending?
    requires !c.r2State.AnswerRxd? && !c.r2State.AnswerRxdMfPending? && !c.r2State.AcceptRxd?
    requires !c.r2State.ClearFwdTxd? && !c.r2State.ClearBackToneRxd? && !c.r2State.ClearBackAfterClearFwdRxd?
    ensures TxAgreement(CasChanged(cfg, c, bits))
  {
  }

  lemma IncomingAgrees(cfg: Config, c: Chan)
    requires cfg.autoSeizeAck
    ensures TxAgreement(HandleIncomingCall(cfg, c))
  {
  }

  lemma SeizeAnsweredAgrees(cfg: Config, c: Chan, bits: Bits)
    requires OnLine(c) && (c.r2State == SeizeTxd || c.r2State == SeizeTxdClearFwdPending)
    ensures TxAgreement(SeizeAnswered(cfg, c, bits))
  {
    var d := Cancel(c, Seize);
    if bits == BITS_SEIZE_ACK {
      if c.r2State == SeizeTxd {
        SendDnisKeepsLine(cfg, d.(r2State := SeizeAckRxd, mfGroup := GI), 0);
      } else {
        SendClearForwardLine(d);
      }
    }
  }

  lemma ReleaseAgrees(cfg: Config, c: Chan, bits: Bits)
    requires OnLine(c) && (c.r2State == AnswerRxd || c.r2State == AnswerRxdMfPending)
    ensures TxAgreement(ReleaseOrError(cfg, c, bits))
  {
  }

  lemma TimerAgrees(cfg: Config, c: Chan, id: int)
    requires OnLine(c) && TimerOwnership(c.timers, c.direction)
    ensures TxAgreement(TimerFires(cfg, c, id))
  {
    var d := Expired(c, id);
    if id in c.timers.live {
      match c.timers.live[id]
      case SeizePersist => SendClearForwardLine(d);
      case BackCycle => BackCycleAgrees(cfg, c, d);
      case DoubleAnswer => DoubleAnswerAgrees(c, d);
      case _ =>
    }
  }

  lemma BackCycleAgrees(cfg: Config, c: Chan, d: Chan)
    requires TxAgreement(c) && d == c.(timers := d.timers)
    ensures TxAgreement(MfBackCycleExpired(cfg, d))
  {
    var e := Schedule(d, BackResumeCycle);
    TryRequestCategoryKeepsLine(cfg, e);
    TryChangeToG2KeepsLine(cfg, e);
    SameLineAgrees(c, TryRequestCategory(cfg, e));
    SameLineAgrees(c, TryChangeToG2(cfg, e));
  }

  lemma DoubleAnswerAgrees(c: Chan, d: Chan)
    requires TxAgreement(c) && d == c.(timers := d.timers)
    ensures TxAgreement(DoubleAnswerExpired(d))
  {
  }

  lemma HangupAgrees(cfg: Config, c: Chan, cause: Cause)
    requires OnLine(c)
    ensures TxAgreement(DisconnectCall(cfg, c, cause))
  {
    if c.callState != CallIdle {
      if c.direction == Forward { ForwardHangupAgrees(Emit(c, UserHangup)); }
      else { BackwardHangupAgrees(cfg, Emit(c, UserHangup), cause); }
    }
  }

  lemma BackwardHangupAgrees(cfg: Config, c: Chan, cause: Cause)
    requires OnLine(c) && c.direction == Backward
    ensures TxAgreement(BackwardHangup(cfg, c, cause))
  {
    RejectionKeepsLine(cfg, c, cause);
    assert TxAgreement(SendForcedRelease(c)) && TxAgreement(SendClearBackward(c)) by { ReleaseLine(c); }
  }

  lemma RejectionKeepsLine(cfg: Config, c: Chan, cause: Cause)
    ensures SameLine(c, PrepareTone(c.(mfState := DisconnectTxd), RejectTone(cfg, cause)))
  {
  }

  lemma ReleaseLine(c: Chan)
    requires c.direction == Backward
    ensures TxAgreement(SendForcedRelease(c)) && TxAgreement(SendClearBackward(c))
  {
  }

  /** The far end's seize may be seen in this step. */
  predicate SeesSeize(c: Chan, s: Step) {
    (s.CasSample? && s.bits == BITS_SEIZE && c.r2State == Idle) || (s.ClearAlarm? && s.bits == BITS_SEIZE)
  }

  /** Every step but a manual seize acknowledgement, and a seize that waits for one, keeps the agreement. */
  lemma StepAgrees(cfg: Config, c: Chan, s: Step)
    requires OnLine(c) && TimerOwnership(c.timers, c.direction) && !s.Ack? && (cfg.autoSeizeAck || !SeesSeize(c, s))
    ensures TxAgreement(Next(cfg, c, s))
  {
    match s
    case CasSample(bits) => CasAgrees(cfg, c, bits);
    case MfSample(tone, reply) => MfAgrees(cfg, c, tone, reply);
    case Fire(id) => TimerAgrees(cfg, c, id);
    case Hangup(cause) => HangupAgrees(cfg, c, cause);
    case ClearAlarm(bits) => AlarmOffAgrees(cfg, c, bits);
    case AnswerWith(_) => AnswerAgrees(cfg, c, s);
    case _ => OtherStepAgrees(cfg, c, s);
  }

  lemma AnswerAgrees(cfg: Config, c: Chan, s: Step)
    requires OnLine(c) && s.AnswerWith?
    ensures TxAgreement(Next(cfg, c, s))
  {
  }

  lemma OtherStepAgrees(cfg: Config, c: Chan, s: Step)
    requires OnLine(c) && !s.Ack? && !s.AnswerWith? && !s.CasSample? && !s.MfSample? && !s.Fire? && !s.Hangup? &&
        !s.ClearAlarm?
    ensures TxAgreement(Next(cfg, c, s))
  {
  }

  lemma AlarmOffAgrees(cfg: Config, c: Chan, bits: Bits)
    requires cfg.autoSeizeAck || bits != BITS_SEIZE
    ensures TxAgreement(AlarmOff(cfg, c, bits))
  {
    var d := Emit(Emit(c.(inAlarm := false), HardwareAlarm(false)), Reset);
    CasAgrees(cfg, if d.r2State != Blocked then SetIdle(d) else SetBlocked(d), bits);
  }

  // ---------------------------------------------------------------------------------------
  // Acknowledgement by hand

  /**
   Before the acknowledgement an incoming call shows the idle line, after it the seize ack; a call that is dropped by
   the far end before it is acknowledged shows the idle line still.
   */
  ghost predicate AgreesByHand(c: Chan, acked: bool) {
    if c.r2State == SeizeAckTxd then c.casTx == if acked then CasSeizeAck else CasIdle
    else TxAgreement(c) || Unanswered(c)
  }

  predicate Unanswered(c: Chan) { c.r2State == ClearFwdRxd && c.direction == Backward && c.casTx == CasIdle }

  /** Whether an incoming call has been acknowledged after a step; a seize seen in it starts another one. */
  predicate AckedAfter(cfg: Config, c: Chan, s: Step, acked: bool) {
    if s.Ack? then true else if c.r2State == SeizeAckTxd && !s.ClearAlarm? then acked else cfg.autoSeizeAck
  }

  lemma StepAgreesByHand(cfg: Config, c: Chan, s: Step, acked: bool)
    requires Inv(c) && AgreesByHand(c, acked) && (s.Ack? ==> c.r2State == SeizeAckTxd)
    ensures AgreesByHand(Next(cfg, c, s), AckedAfter(cfg, c, s, acked))
  {
    if SeesSeize(c, s) {
      SeizeByHand(cfg, c, s, acked);
    } else if c.casTx == CasIdle && (c.r2State == SeizeAckTxd || c.r2State == ClearFwdRxd) && !s.Ack? {
      UnacknowledgedStep(cfg, c, s);
    } else if !s.Ack? {
      AcknowledgedStep(cfg, c, s, acked);
    }
  }

  lemma AcknowledgedStep(cfg: Config, c: Chan, s: Step, acked: bool)
    requires Inv(c) && AgreesByHand(c, acked) && !s.Ack? && !SeesSeize(c, s)
    requires c.casTx != CasIdle || (c.r2State != SeizeAckTxd && c.r2State != ClearFwdRxd)
    ensures AgreesByHand(Next(cfg, c, s), AckedAfter(cfg, c, s, acked))
  {
    var d := Next(cfg, c, s);
    assert CallShape(d) by { StepKeepsInv(cfg, c, s); }
    assert TxAgreement(d) by { StepAgrees(cfg, c, s); }
    if c.r2State != SeizeAckTxd || s.ClearAlarm? {
      assert d.r2State != SeizeAckTxd by { EntersBySeize(cfg, c, s); }
    }
    AgreementGoesOn(c, d, s, AckedAfter(cfg, c, s, acked), acked);
  }

  lemma AgreementGoesOn(c: Chan, d: Chan, s: Step, after: bool, acked: bool)
    requires TxAgreement(d) && CallShape(d) && CallShape(c) && AgreesByHand(c, acked)
    requires c.casTx != CasIdle || (c.r2State != SeizeAckTxd && c.r2State != ClearFwdRxd)
    requires c.r2State != SeizeAckTxd || s.ClearAlarm? ==> d.r2State != SeizeAckTxd
    requires c.r2State == SeizeAckTxd && !s.ClearAlarm? ==> after == acked
    ensures AgreesByHand(d, after)
  {
  }

  lemma SeizeByHand(cfg: Config, c: Chan, s: Step, acked: bool)
    requires CallShape(c) && AgreesByHand(c, acked) && SeesSeize(c, s)
    ensures AgreesByHand(Next(cfg, c, s), AckedAfter(cfg, c, s, acked))
  {
    if s.ClearAlarm? {
      var d := Emit(Emit(c.(inAlarm := false), HardwareAlarm(false)), Reset);
      var e := if d.r2State != Blocked then SetIdle(d) else SetBlocked(d);
      assert AlarmOff(cfg, c, s.bits) == HandleCas(cfg, e, s.bits);
      SeizeOnRestingLine(cfg, e);
    } else if c.inAlarm || c.casRead == s.bits {
      assert Next(cfg, c, s) == c;
    } else {
      SeizeOnRestingLine(cfg, c);
    }
  }

  lemma SeizeOnRestingLine(cfg: Config, c: Chan)
    requires !c.inAlarm && ((c.r2State == Idle && c.casTx == CasIdle) || (c.r2State == Blocked && c.casTx == CasBlock))
    requires c.direction == Stopped
    ensures AgreesByHand(HandleCas(cfg, c, BITS_SEIZE), cfg.autoSeizeAck)
  {
  }

  lemma SameLineByHand(c: Chan, d: Chan)
    requires c.direction == Backward && c.casTx == CasIdle && (c.r2State == SeizeAckTxd || c.r2State == ClearFwdRxd)
    requires SameLine(c, d)
    ensures AgreesByHand(d, false)
  {
  }

  /** An incoming call that shows the idle line goes on doing so, or is over, or its user answers or releases it. */
  lemma UnacknowledgedStep(cfg: Config, c: Chan, s: Step)
    requires CallShape(c) && TimerOwnership(c.timers, c.direction) && !s.Ack? && !SeesSeize(c, s)
    requires c.casTx == CasIdle && c.direction == Backward && (c.r2State == SeizeAckTxd || c.r2State == ClearFwdRxd)
    ensures AgreesByHand(Next(cfg, c, s), false)
    ensures Next(cfg, c, s).r2State == SeizeAckTxd ==> c.r2State == SeizeAckTxd && !s.ClearAlarm?
  {
    match s
    case MfSample(tone, reply) => UnacknowledgedTone(cfg, c, tone, reply);
    case Fire(id) => UnacknowledgedExpiry(cfg, c, id);
    case Hangup(cause) => UnacknowledgedHangup(cfg, c, cause);
    case ClearAlarm(bits) => AlarmOffAgrees(cfg, c, bits); AlarmOffEnters(cfg, c, bits);
    case _ => UnacknowledgedOther(cfg, c, s);
  }

  lemma UnacknowledgedTone(cfg: Config, c: Chan, tone: Tone, u: Reply)
    requires CallShape(c)
    requires c.casTx == CasIdle && c.direction == Backward && (c.r2State == SeizeAckTxd || c.r2State == ClearFwdRxd)
    ensures SameLine(c, HandleMedia(cfg, c, tone, u)) && AgreesByHand(HandleMedia(cfg, c, tone, u), false)
  {
    if tone != NO_TONE {
      ForwardToneKeepsLine(cfg, c.(readTone := tone), tone, u);
    } else {
      ForwardSilenceKeepsLine(c);
    }
    SameLineByHand(c, HandleMedia(cfg, c, tone, u));
  }

  lemma UnacknowledgedExpiry(cfg: Config, c: Chan, id: int)
    requires CallShape(c) && TimerOwnership(c.timers, c.direction)
    requires c.casTx == CasIdle && c.direction == Backward && (c.r2State == SeizeAckTxd || c.r2State == ClearFwdRxd)
    ensures SameLine(c, TimerFires(cfg, c, id)) && AgreesByHand(TimerFires(cfg, c, id), false)
  {
    var d := Expired(c, id);
    if id in c.timers.live && c.timers.live[id] == BackCycle {
      var e := Schedule(d, BackResumeCycle);
      TryRequestCategoryKeepsLine(cfg, e);
      TryChangeToG2KeepsLine(cfg, e);
    }
    SameLineByHand(c, TimerFires(cfg, c, id));
  }

  lemma UnacknowledgedHangup(cfg: Config, c: Chan, cause: Cause)
    requires CallShape(c)
    requires c.casTx == CasIdle && c.direction == Backward && (c.r2State == SeizeAckTxd || c.r2State == ClearFwdRxd)
    ensures AgreesByHand(DisconnectCall(cfg, c, cause), false)
    ensures DisconnectCall(cfg, c, cause).r2State == SeizeAckTxd ==> c.r2State == SeizeAckTxd
  {
    RejectionKeepsLine(cfg, Emit(c, UserHangup), cause);
    ReleaseLine(Emit(c, UserHangup));
  }

  lemma UnacknowledgedOther(cfg: Config, c: Chan, s: Step)
    requires CallShape(c) && !s.Ack? && !s.MfSample? && !s.Fire? && !s.Hangup? && !s.ClearAlarm?
    requires c.casTx == CasIdle && c.direction == Backward && (c.r2State == SeizeAckTxd || c.r2State == ClearFwdRxd)
    ensures AgreesByHand(Next(cfg, c, s), false)
    ensures Next(cfg, c, s).r2State == SeizeAckTxd ==> c.r2State == SeizeAckTxd
  {
  }

  lemma AlarmOffEnters(cfg: Config, c: Chan, bits: Bits)
    requires bits != BITS_SEIZE
    ensures AlarmOff(cfg, c, bits).r2State != SeizeAckTxd
  {
  }

  /** A channel comes to SeizeAckTxd by the seize of the far end only. */
  lemma EntersBySeize(cfg: Config, c: Chan, s: Step)
    requires CallShape(c) && TimerOwnership(c.timers, c.direction) && !SeesSeize(c, s)
    requires c.r2State != SeizeAckTxd || s.ClearAlarm?
    ensures Next(cfg, c, s).r2State != SeizeAckTxd
  {
    match s
    case CasSample(bits) => CasEnters(cfg, c.(casRead := bits), bits);
    case MfSample(tone, reply) => ToneEnters(cfg, c, tone, reply);
    case Fire(id) => ExpiryEnters(cfg, c, id);
    case ClearAlarm(bits) => AlarmOffEnters(cfg, c, bits);
    case _ => OtherEnters(cfg, c, s);
  }

  lemma CasEnters(cfg: Config, c: Chan, bits: Bits)
    requires c.r2State != SeizeAckTxd && (c.r2State == Idle ==> bits != BITS_SEIZE)
    ensures CasChanged(cfg, c, bits).r2State != SeizeAckTxd
  {
    if c.r2State == SeizeTxd || c.r2State == SeizeTxdClearFwdPending { SeizeAnsweredEnters(cfg, c, bits); }
    else if BackwardState(c.r2State) { BackwardCasEnters(cfg, c, bits); }
  }

  lemma SeizeAnsweredEnters(cfg: Config, c: Chan, bits: Bits)
    ensures SeizeAnswered(cfg, c, bits).r2State != SeizeAckTxd
  {
    SendDnisKeepsLine(cfg, Cancel(c, Seize).(r2State := SeizeAckRxd, mfGroup := GI), 0);
  }

  lemma BackwardCasEnters(cfg: Config, c: Chan, bits: Bits)
    requires BackwardState(c.r2State)
    ensures CasChanged(cfg, c, bits).r2State != SeizeAckTxd
  {
  }

  lemma OtherEnters(cfg: Config, c: Chan, s: Step)
    requires CallShape(c) && c.r2State != SeizeAckTxd && !s.CasSample? && !s.MfSample? && !s.Fire? && !s.ClearAlarm?
    ensures Next(cfg, c, s).r2State != SeizeAckTxd
  {
  }

  lemma ExpiryEnters(cfg: Config, c: Chan, id: int)
    requires c.r2State != SeizeAckTxd
    ensures TimerFires(cfg, c, id).r2State != SeizeAckTxd
  {
    if id in c.timers.live && c.timers.live[id] == BackCycle {
      var e := Schedule(Expired(c, id), BackResumeCycle);
      TryRequestCategoryKeepsLine(cfg, e);
      TryChangeToG2KeepsLine(cfg, e);
    }
  }

  lemma ToneEnters(cfg: Config, c: Chan, tone: Tone, u: Reply)
    requires c.r2State != SeizeAckTxd
    ensures HandleMedia(cfg, c, tone, u).r2State != SeizeAckTxd
  {
    if c.direction == Backward {
      ForwardToneKeepsLine(cfg, c.(readTone := tone), tone, u);
      ForwardSilenceKeepsLine(c);
    } else if tone == NO_TONE {
      SilenceEnters(cfg, c, c.readTone, u);
    }
  }

  lemma SilenceEnters(cfg: Config, c: Chan, tone: Tone, u: Reply)
    requires c.r2State != SeizeAckTxd
    ensures HandleBackwardSilence(cfg, c, tone, u).r2State != SeizeAckTxd
  {
    match c.mfGroup
    case GI => GroupAEnters(cfg, c, tone, u);
    case GII => GroupBEnters(cfg, c, tone, u);
    case GIII => GroupCEnters(cfg, c, tone);
    case _ =>
  }

  lemma AcceptToneEnters(cfg: Config, c: Chan, mode: CallMode, u: Reply)
    requires c.r2State != SeizeAckTxd
    ensures HandleAcceptTone(cfg, c, mode, u).r2State != SeizeAckTxd
  {
  }

  lemma GroupAEnters(cfg: Config, c: Chan, tone: Tone, u: Reply)
    requires c.r2State != SeizeAckTxd
    ensures HandleGroupARequest(cfg, c, tone, u).r2State != SeizeAckTxd
  {
    if IsDnisRequest(cfg, tone) {
      DnisRequestKeepsLine(cfg, c, tone);
    } else {
      GroupAResults(cfg, c, tone, u);
      SendAniKeepsLine(cfg, c);
      AcceptToneEnters(cfg, c, WithCharge, u);
      CategoryEnters(c);
    }
  }

  lemma GroupAResults(cfg: Config, c: Chan, tone: Tone, u: Reply)
    requires !IsDnisRequest(cfg, tone)
    ensures var e := HandleGroupARequest(cfg, c, tone, u);
            || e == SendAni(cfg, c) || e == SendCategory(c) || e == SendCategory(c.(mfGroup := GII))
            || e == SendCategory(c.(mfGroup := GIII)) || e == HandleAcceptTone(cfg, c, WithCharge, u)
            || e.r2State == ClearBackToneRxd || e.r2State == Idle
  {
  }

  lemma CategoryEnters(c: Chan)
    requires c.r2State != SeizeAckTxd
    ensures SendCategory(c).r2State != SeizeAckTxd && SendCategory(c.(mfGroup := GII)).r2State != SeizeAckTxd
    ensures SendCategory(c.(mfGroup := GIII)).r2State != SeizeAckTxd
  {
  }

  lemma GroupBEnters(cfg: Config, c: Chan, tone: Tone, u: Reply)
    requires c.r2State != SeizeAckTxd
    ensures HandleGroupBRequest(cfg, c, tone, u).r2State != SeizeAckTxd
  {
    AcceptToneEnters(cfg, c, ModeFromTone(cfg, tone), u);
  }

  lemma GroupCEnters(cfg: Config, c: Chan, tone: Tone)
    requires c.r2State != SeizeAckTxd
    ensures HandleGroupCRequest(cfg, c, tone).r2State != SeizeAckTxd
  {
    SendAniKeepsLine(cfg, c);
    SendDnisKeepsLine(cfg, c.(mfGroup := GI), 1);
  }

  /** Out of turn, an acknowledgement leaves the agreement only where the seize ack is what the state shows anyway. */
  lemma AckOutOfTurnExactly(c: Chan)
    requires CallShape(c) && c.r2State != SeizeAckTxd
    ensures AgreesByHand(AckCall(c), true) <==>
            c.inAlarm || c.r2State == Init || (c.r2State == ClearFwdRxd && c.direction == Backward)
  {
  }
}
