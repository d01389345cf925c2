/**
 One channel as an object whose fields the handlers update, in the form the protocol file has, over the array
 scheduler. Every method is proved against the function of the same name on channel values.
 */
module Channels {
  import opened Signals
  import opened Scheduler
  import opened LatePasses
  import Passes
  import R = RunInvariants
  import T = RunTheorems
  import P = Protocol

  method IsNumeric(s: string) returns (numeric: bool)
    ensures numeric == AllDigits(s)
  {
    for i := 0 to |s|
      invariant AllDigits(s[..i])
    {
      if !IsDigit(s[i]) {
        return false;
      }
    }
    assert s[..|s|] == s;
    return true;
  }

  class Channel {
    const cfg: Config
    const sched: TimerQueue
    /** The time of day during the step. */
    var clock: TimeVal

    var r2State: R2State
    var callState: CallState
    var direction: Direction
    var mfState: MfState
    var mfGroup: MfGroup
    var writeTone: Tone
    var readTone: Tone
    var casRead: Bits
    var casTx: CasSignal
    var inAlarm: bool
    var answered: bool

    /** The buffers and marks of ANI, DNIS and category. */
    var num: P.Numbers

    /** The callbacks made so far. */
    var log: P.History

    ghost predicate Valid()
      reads this, sched, sched.slots
    {
      sched.Valid()
    }

    /** The channel as a value. */
    ghost function View(): P.Chan
      reads this, sched, sched.slots
      requires Valid()
    {
      P.Chan(r2State, callState, direction, mfState, mfGroup, writeTone, readTone, casRead, casTx, inAlarm, answered,
             num, sched.View(), log)
    }

    constructor (cfg: Config, clock: TimeVal)
      ensures Valid() && fresh(sched) && fresh(sched.slots) && this.cfg == cfg && View() == P.NEW_CHAN
    {
      this.cfg := cfg;
      this.clock := clock;
      sched := new TimerQueue();
      r2State, callState, direction := Init, CallIdle, Stopped;
      mfState, mfGroup := MfOff, NoGroup;
      writeTone, readTone := NO_TONE, NO_TONE;
      casRead, casTx, inAlarm, answered := 0x0, CasInvalid, false, false;
      num := P.NO_NUMBERS;
      log := P.Empty;
    }

    // -------------------------------------------------------------------------------------
    // Timers, reset and end of call

    method Schedule(t: Timer)
      requires Valid()
      modifies this, sched, sched.slots
      ensures Valid() && View() == P.Schedule(old(View()), t)
    {
      var full := sched.Schedule(clock, Duration(cfg, t), t);
      if full {
        log := P.Snoc(log, P.TimerSlotsExhausted);
      }
    }

    method Cancel(t: Timer)
      requires Valid()
      modifies this, sched, sched.slots
      ensures Valid() && View() == P.Cancel(old(View()), t)
    {
      sched.Cancel(t);
    }

    method TurnOffMf()
      requires Valid()
      modifies this, sched, sched.slots
      ensures Valid() && View() == P.TurnOffMf(old(View()))
    {
      if mfState == MfOff {
        return;
      }
      Cancel(BackCycle);
      mfState := MfOff;
    }

    method ClearCall()
      requires Valid()
      modifies this, sched, sched.slots
      ensures Valid()
      ensures View() == old(View()).(
        callState := CallIdle, direction := Stopped, answered := false, mfGroup := NoGroup)
    {
      mfGroup := NoGroup;
      callState := CallIdle;
      direction := Stopped;
      answered := false;
    }

    method ProtoInit()
      requires Valid()
      modifies this, sched, sched.slots
      ensures Valid() && View() == P.ProtoInit(old(View()))
    {
      sched.CancelAll();
      num := P.NO_NUMBERS;
      r2State := Idle;
      TurnOffMf();
      ClearCall();
      writeTone := NO_TONE;
      readTone := NO_TONE;
    }

    method SetIdle()
      requires Valid()
      modifies this, sched, sched.slots
      ensures Valid() && View() == P.SetIdle(old(View()))
    {
      ProtoInit();
      casTx := CasIdle;
    }

    method SetBlocked()
      requires Valid()
      modifies this, sched, sched.slots
      ensures Valid() && View() == P.SetBlocked(old(View()))
    {
      ProtoInit();
      r2State := Blocked;
      casTx := CasBlock;
    }

    method ProtocolError(reason: ErrorReason)
      requires Valid()
      modifies this, sched, sched.slots
      ensures Valid() && View() == P.ProtocolError(old(View()), reason)
    {
      SetIdle();
      log := P.Snoc(log, P.ProtocolFault(reason));
    }

    method ReportDisconnection(cause: Cause)
      requires Valid()
      modifies this, sched, sched.slots
      ensures Valid() && View() == P.ReportDisconnection(old(View()), cause)
    {
      callState := Disconnected;
      log := P.Snoc(log, P.CallDisconnect(cause));
    }

    method ReportCallEnd()
      requires Valid()
      modifies this, sched, sched.slots
      ensures Valid() && View() == P.ReportCallEnd(old(View()))
    {
      SetIdle();
      log := P.Snoc(log, P.CallEnd);
    }

    // -------------------------------------------------------------------------------------
    // Tone transmission

    method PrepareTone(tone: Tone)
      requires Valid()
      modifies this, sched, sched.slots
      ensures Valid() && View() == P.PrepareTone(old(View()), tone)
    {
      if writeTone != tone {
        if tone != NO_TONE && direction == Backward {
          Schedule(BackCycle);
        }
        writeTone := tone;
      }
    }

    method SetSilence()
      requires Valid()
      modifies this, sched, sched.slots
      ensures Valid() && View() == P.SetSilence(old(View()))
    {
      PrepareTone(NO_TONE);
      writeTone := NO_TONE;
    }

    // -------------------------------------------------------------------------------------
    // Forward side

    /** The end of ANI has been sent and is asked for again with the tone that also asks for DNIS. */
    predicate AniMistakenForDnis()
      reads this
    {
      mfState == AniEndTxd && (cfg.ga.nextDnis == cfg.ga.nextAni || cfg.ga.nextDnis == cfg.gc.nextAni)
    }

    method SendTone(state: MfState, tone: Tone)
      requires Valid()
      modifies this, sched, sched.slots
      ensures Valid() && View() == P.PrepareTone(old(View()).(mfState := state), tone)
    {
      mfState := state;
      PrepareTone(tone);
    }

    method WaitForTimeout()
      requires Valid()
      modifies this, sched, sched.slots
      ensures Valid() && View() == P.Schedule(old(View()).(mfState := WaitingTimeout), FwdSafety)
    {
      mfState := WaitingTimeout;
      Schedule(FwdSafety);
    }

    method MoveDnis(offset: int)
      requires Valid()
      modifies this, sched, sched.slots
      ensures Valid() && View() == old(View()).(num := P.MoveDnis(old(View()).num, offset))
    {
      if offset < 0 {
        num := num.(dnisIndex := if num.dnisIndex >= -offset then num.dnisIndex + offset else 0);
      } else {
        num := num.(dnisIndex := num.dnisIndex + offset);
      }
    }

    method SendDnis(offset: int)
      requires Valid()
      modifies this, sched, sched.slots
      ensures Valid() && View() == P.SendDnis(cfg, old(View()), offset)
    {
      MoveDnis(offset);
      var tone := P.DnisAt(num);
      if tone != NO_TONE {
        SendTone(DnisTxd, tone);
      } else if cfg.g1.noMoreDnis != NO_TONE && mfState != DnisEndTxd && mfState != WaitingTimeout {
        SendTone(DnisEndTxd, cfg.g1.noMoreDnis);
      } else {
        WaitForTimeout();
      }
    }

    method SendCategory()
      requires Valid()
      modifies this, sched, sched.slots
      ensures Valid() && View() == P.SendCategory(old(View()))
    {
      mfState := CategoryTxd;
      num := num.(categorySent := true);
      PrepareTone(num.category);
    }

    method SendAniDigit(tone: Tone)
      requires Valid()
      requires !AniMistakenForDnis() && tone == P.AniAt(num) && tone != NO_TONE
      modifies this, sched, sched.slots
      ensures Valid() && View() == P.SendAni(cfg, old(View()))
    {
      SendTone(AniTxd, tone);
      num := num.(aniPtr := Some(num.aniPtr.value + 1));
    }

    method SendAniEnd()
      requires Valid()
      requires !AniMistakenForDnis() && P.AniAt(num) == NO_TONE
      modifies this, sched, sched.slots
      ensures Valid() && View() == P.SendAni(cfg, old(View()))
    {
      if cfg.g1.restricted != NO_TONE && num.aniPtr.None? {
        SendTone(AniEndTxd, cfg.g1.restricted);
      } else if cfg.g1.noMoreAni != NO_TONE && !num.restricted {
        SendTone(AniEndTxd, cfg.g1.noMoreAni);
      } else if cfg.g1.restricted != NO_TONE && num.restricted {
        SendTone(AniEndTxd, cfg.g1.restricted);
      } else {
        WaitForTimeout();
      }
    }

    method SendAni()
      requires Valid()
      modifies this, sched, sched.slots
      ensures Valid() && View() == P.SendAni(cfg, old(View()))
    {
      if AniMistakenForDnis() {
        mfGroup := GI;
        SendDnis(1);
      } else if P.AniAt(num) != NO_TONE {
        SendAniDigit(P.AniAt(num));
      } else {
        SendAniEnd();
      }
    }

    method SendClearForward()
      requires Valid()
      modifies this, sched, sched.slots
      ensures Valid() && View() == P.SendClearForward(old(View()))
    {
      Schedule(SetCallDown);
      r2State := ClearFwdTxd;
      TurnOffMf();
      casTx := CasClearForward;
    }

    method MarkAnswered()
      requires Valid()
      modifies this, sched, sched.slots
      ensures Valid() && View() == P.MarkAnswered(old(View()))
    {
      Cancel(Answer);
      r2State := AnswerRxd;
      callState := Answered;
      TurnOffMf();
      answered := true;
      log := P.Snoc(log, P.CallAnswered);
    }

    method AcceptedCallback(u: P.Reply)
      requires Valid()
      modifies this, sched, sched.slots
      ensures Valid() && View() == P.AcceptedCallback(cfg, old(View()), u)
    {
      if u.dropOnAccept {
        DisconnectCall(NormalClearing);
      }
    }

    method HandleAcceptTone(mode: CallMode, u: P.Reply)
      requires Valid()
      modifies this, sched, sched.slots
      ensures Valid() && View() == P.HandleAcceptTone(cfg, old(View()), mode, u)
    {
      if r2State == AnswerRxdMfPending {
        var previousMfState, previousCallState := mfState, callState;
        r2State := AcceptRxd;
        log := P.Snoc(log, P.CallAccepted(mode));
        AcceptedCallback(u);
        if r2State != AcceptRxd || mfState != previousMfState || callState != previousCallState {
          return;
        }
        MarkAnswered();
      } else {
        r2State := AcceptRxd;
        Schedule(Answer);
        log := P.Snoc(log, P.CallAccepted(mode));
        AcceptedCallback(u);
      }
    }

    method RejectedByTone(cause: Cause)
      requires Valid()
      modifies this, sched, sched.slots
      ensures Valid() && View() == P.RejectedByTone(old(View()), cause)
    {
      r2State := ClearBackToneRxd;
      ReportDisconnection(cause);
    }

    method HandleDnisRequest(tone: Tone) returns (handled: bool)
      requires Valid()
      modifies this, sched, sched.slots
      ensures Valid()
      ensures View() == if P.IsDnisRequest(cfg, tone) then P.HandleDnisRequest(cfg, old(View()), tone) else old(View())
      ensures handled == P.IsDnisRequest(cfg, tone)
    {
      handled := true;
      if tone == cfg.ga.nextDnis {
        SendDnis(1);
      } else if tone == cfg.ga.dnisMinus1 {
        SendDnis(-1);
      } else if tone == cfg.ga.dnisMinus2 {
        SendDnis(-2);
      } else if tone == cfg.ga.dnisMinus3 {
        SendDnis(-3);
      } else if tone == cfg.ga.allDnisAgain {
        num := num.(dnisIndex := 0);
        SendDnis(0);
      } else {
        handled := false;
      }
    }

    method HandleGroupARequest(tone: Tone, u: P.Reply)
      requires Valid()
      modifies this, sched, sched.slots
      ensures Valid() && View() == P.HandleGroupARequest(cfg, old(View()), tone, u)
    {
      var categoryTone := if cfg.ga.category != NO_TONE then cfg.ga.category else cfg.ga.categoryAndGc;
      var handled := HandleDnisRequest(tone);
      if handled {
      } else if num.categorySent && tone == cfg.ga.nextAni {
        SendAni();
      } else if tone == categoryTone {
        if categoryTone == cfg.ga.categoryAndGc {
          mfGroup := GIII;
        }
        SendCategory();
      } else if tone == cfg.ga.changeToG2 {
        mfGroup := GII;
        SendCategory();
      } else if tone == cfg.ga.addressComplete {
        HandleAcceptTone(WithCharge, u);
      } else if tone == cfg.ga.congestion {
        RejectedByTone(NetworkCongestion);
      } else {
        ProtocolError(InvalidMfTone);
      }
    }

    method HandleGroupBRequest(tone: Tone, u: P.Reply)
      requires Valid()
      modifies this, sched, sched.slots
      ensures Valid() && View() == P.HandleGroupBRequest(cfg, old(View()), tone, u)
    {
      if tone == cfg.gb.acceptCharge || tone == cfg.gb.acceptNoCharge || tone == cfg.gb.specialInfo {
        HandleAcceptTone(P.ModeFromTone(cfg, tone), u);
      } else if tone == cfg.gb.busy {
        RejectedByTone(BusyNumber);
      } else if tone == cfg.gb.congestion {
        RejectedByTone(NetworkCongestion);
      } else if tone == cfg.gb.unallocated {
        RejectedByTone(UnallocatedNumber);
      } else if tone == cfg.gb.numberChanged {
        RejectedByTone(NumberChanged);
      } else if tone == cfg.gb.outOfOrder {
        RejectedByTone(OutOfOrder);
      } else {
        ProtocolError(InvalidMfTone);
      }
    }

    method HandleGroupCRequest(tone: Tone)
      requires Valid()
      modifies this, sched, sched.slots
      ensures Valid() && View() == P.HandleGroupCRequest(cfg, old(View()), tone)
    {
      if tone == cfg.gc.nextAni {
        SendAni();
      } else if tone == cfg.gc.changeToG2 {
        mfGroup := GII;
        SendCategory();
      } else if tone == cfg.gc.nextDnisAndGa {
        mfGroup := GI;
        SendDnis(1);
      } else if tone == cfg.gc.congestion {
        RejectedByTone(NetworkCongestion);
      } else {
        ProtocolError(InvalidMfTone);
      }
    }

    method HandleBackwardTone()
      requires Valid()
      modifies this, sched, sched.slots
      ensures Valid() && View() == P.HandleBackwardTone(old(View()))
    {
      Cancel(FwdSafety);
      SetSilence();
    }

    method HandleBackwardSilence(tone: Tone, u: P.Reply)
      requires Valid()
      modifies this, sched, sched.slots
      ensures Valid() && View() == P.HandleBackwardSilence(cfg, old(View()), tone, u)
    {
      match mfGroup {
        case GI => HandleGroupARequest(tone, u);
        case GII => HandleGroupBRequest(tone, u);
        case GIII => HandleGroupCRequest(tone);
        case _ => ProtocolError(InvalidMfGroup);
      }
    }

    // -------------------------------------------------------------------------------------
    // Backward side

    method OfferCall()
      requires Valid()
      modifies this, sched, sched.slots
      ensures Valid() && View() == P.OfferCall(cfg, old(View()))
    {
      if callState != Collecting {
        ProtocolError(InvalidR2State);
        return;
      }
      callState := Offered;
      log := P.Snoc(log, P.CallOffered(num.ani, num.dnis, P.ToneToCategory(cfg, num.category), num.restricted));
    }

    method RequestCategory()
      requires Valid()
      modifies this, sched, sched.slots
      ensures Valid() && View() == P.RequestCategory(cfg, old(View()))
    {
      mfGroup := if cfg.ga.category != NO_TONE then GA else GC;
      mfState := CategoryRqTxd;
      PrepareTone(if cfg.ga.category != NO_TONE then cfg.ga.category else cfg.ga.categoryAndGc);
    }

    method BypassChangeToG2()
      requires Valid()
      modifies this, sched, sched.slots
      ensures Valid() && View() == P.BypassChangeToG2(cfg, old(View()))
    {
      SendTone(AcceptedTxd, cfg.ga.addressComplete);
      OfferCall();
    }

    method RequestChangeToG2()
      requires Valid()
      modifies this, sched, sched.slots
      ensures Valid() && View() == P.RequestChangeToG2(cfg, old(View()))
    {
      var tone := if mfGroup == GC then cfg.gc.changeToG2 else cfg.ga.changeToG2;
      mfGroup := GB;
      mfState := ChgGiiTxd;
      PrepareTone(tone);
    }

    method TryChangeToG2()
      requires Valid()
      modifies this, sched, sched.slots
      ensures Valid() && View() == P.TryChangeToG2(cfg, old(View()))
    {
      if cfg.immediateAccept {
        BypassChangeToG2();
        return;
      }
      RequestChangeToG2();
    }

    method TryRequestCategory()
      requires Valid()
      modifies this, sched, sched.slots
      ensures Valid() && View() == P.TryRequestCategory(cfg, old(View()))
    {
      if cfg.skipCategory {
        TryChangeToG2();
        return;
      }
      RequestCategory();
    }

    method RequestNextDnis()
      requires Valid()
      modifies this, sched, sched.slots
      ensures Valid() && View() == P.RequestNextDnis(cfg, old(View()))
    {
      var tone := if mfGroup == GC then cfg.gc.nextDnisAndGa else cfg.ga.nextDnis;
      mfGroup := GA;
      mfState := DnisRqTxd;
      PrepareTone(tone);
    }

    method ReceiveDnis(tone: Tone, u: P.Reply)
      requires Valid()
      modifies this, sched, sched.slots
      ensures Valid() && View() == P.ReceiveDnis(cfg, old(View()), tone, u)
    {
      if IsDigit(tone) {
        if |num.dnis| != MAX_DIGITS - 1 {
          num := num.(dnis := num.dnis + [tone]);
        }
        log := P.Snoc(log, P.DnisDigit(tone));
        if |num.dnis| >= Uint32(cfg.maxDnis) || !u.moreDnis {
          if |num.dnis| == 1 || !cfg.getAniFirst {
            TryRequestCategory();
          } else {
            TryChangeToG2();
          }
        } else if |num.dnis| == 1 && cfg.getAniFirst {
          TryRequestCategory();
        } else {
          RequestNextDnis();
        }
      } else if cfg.g1.noMoreDnis == tone {
        if |num.dnis| == 0 || !cfg.getAniFirst {
          TryRequestCategory();
        } else {
          TryChangeToG2();
        }
      } else {
        ProtocolError(InvalidMfTone);
      }
    }

    method AfterAni()
      requires Valid()
      modifies this, sched, sched.slots
      ensures Valid() && View() == P.AfterAni(cfg, old(View()))
    {
      if !cfg.getAniFirst || |num.dnis| >= Uint32(cfg.maxDnis) {
        TryChangeToG2();
      } else {
        RequestNextDnis();
      }
    }

    method RequestNextAni()
      requires Valid()
      modifies this, sched, sched.slots
      ensures Valid() && View() == P.RequestNextAni(cfg, old(View()))
    {
      SendTone(AniRqTxd, if cfg.gc.nextAni != NO_TONE then cfg.gc.nextAni else cfg.ga.nextAni);
    }

    method ReceiveAni(tone: Tone)
      requires Valid()
      modifies this, sched, sched.slots
      ensures Valid() && View() == P.ReceiveAni(cfg, old(View()), tone)
    {
      if tone == NO_TONE {
        RequestNextAni();
      } else if IsDigit(tone) {
        num := num.(ani := num.ani + [tone]);
        log := P.Snoc(log, P.AniDigit(tone));
        if !cfg.forceMaxAni && Uint32(cfg.maxAni) > |num.ani| {
          RequestNextAni();
        } else {
          AfterAni();
        }
      } else if tone == cfg.g1.noMoreAni || tone == cfg.g1.restricted {
        if tone == cfg.g1.restricted {
          num := num.(restricted := true);
        }
        AfterAni();
      } else {
        ProtocolError(InvalidMfTone);
      }
    }

    method ReceiveCategory(tone: Tone)
      requires Valid()
      modifies this, sched, sched.slots
      ensures Valid() && View() == P.ReceiveCategory(cfg, old(View()), tone)
    {
      num := num.(category := tone);
      if cfg.maxAni > 0 {
        ReceiveAni(NO_TONE);
      } else if mfGroup == GC {
        RequestChangeToG2();
      } else {
        TryChangeToG2();
      }
    }

    method HandleForwardTone(tone: Tone, u: P.Reply)
      requires Valid()
      modifies this, sched, sched.slots
      ensures Valid() && View() == P.HandleForwardTone(cfg, old(View()), tone, u)
    {
      Cancel(BackCycle);
      if mfGroup == BackInit {
        if mfState != MfSeizeAckTxd {
          ProtocolError(InvalidMfState);
        } else if cfg.getAniFirst && cfg.aniCanComeFirst {
          ReceiveAni(tone);
        } else {
          ReceiveDnis(tone, u);
        }
      } else if mfGroup == GA || mfGroup == GC {
        if mfState == DnisRqTxd && mfGroup == GA {
          ReceiveDnis(tone, u);
        } else if mfState == CategoryRqTxd {
          ReceiveCategory(tone);
        } else if mfState == AniRqTxd {
          ReceiveAni(tone);
        } else {
          ProtocolError(InvalidMfState);
        }
      } else if mfGroup == GB {
        if mfState == ChgGiiTxd {
          OfferCall();
        } else {
          ProtocolError(InvalidMfState);
        }
      } else {
        ProtocolError(InvalidMfGroup);
      }
    }

    method FinishAccept()
      requires Valid()
      modifies this, sched, sched.slots
      ensures Valid() && View() == P.FinishAccept(old(View()))
    {
      TurnOffMf();
      callState := Accepted;
      Schedule(AnswerDelay);
    }

    method HandleForwardSilence()
      requires Valid()
      modifies this, sched, sched.slots
      ensures Valid() && View() == P.HandleForwardSilence(old(View()))
    {
      SetSilence();
      if mfGroup == GA {
        if mfState == AcceptedTxd {
          FinishAccept();
        }
      } else if mfGroup == GB {
        if mfState == ChgGiiTxd {
        } else if mfState == AcceptedTxd {
          FinishAccept();
        } else if mfState == DisconnectTxd {
          sched.CancelAll();
        } else {
          ProtocolError(InvalidMfState);
        }
      } else if mfGroup != GC {
        ProtocolError(InvalidMfGroup);
      }
    }

    method SendClearBackward()
      requires Valid()
      modifies this, sched, sched.slots
      ensures Valid() && View() == P.SendClearBackward(old(View()))
    {
      r2State := ClearBackTxd;
      TurnOffMf();
      casTx := CasClearBack;
    }

    method SendForcedRelease()
      requires Valid()
      modifies this, sched, sched.slots
      ensures Valid() && View() == P.SendForcedRelease(old(View()))
    {
      r2State := ForcedReleaseTxd;
      TurnOffMf();
      casTx := CasForcedRelease;
    }

    method StartCollecting()
      requires Valid()
      modifies this, sched, sched.slots
      ensures Valid()
      ensures View() == old(View()).(
        mfState := MfSeizeAckTxd, mfGroup := BackInit, r2State := SeizeAckTxd, callState := Collecting,
        direction := Backward)
    {
      mfState := MfSeizeAckTxd;
      mfGroup := BackInit;
      r2State := SeizeAckTxd;
      callState := Collecting;
      direction := Backward;
    }

    method HandleIncomingCall()
      requires Valid()
      modifies this, sched, sched.slots
      ensures Valid() && View() == P.HandleIncomingCall(cfg, old(View()))
    {
      StartCollecting();
      log := P.Snoc(log, P.CallInit);
      if cfg.autoSeizeAck {
        AckCall();
      }
    }

    method AckCall()
      requires Valid()
      modifies this, sched, sched.slots
      ensures Valid() && View() == P.AckCall(old(View()))
    {
      casTx := CasSeizeAck;
    }

    // -------------------------------------------------------------------------------------
    // Line signals

    method ClearForwardOrError(bits: Bits)
      requires Valid()
      modifies this, sched, sched.slots
      ensures Valid() && View() == P.ClearForwardOrError(old(View()), bits)
    {
      if bits == BITS_CLEAR_FORWARD {
        r2State := ClearFwdRxd;
        ReportDisconnection(NormalClearing);
      } else {
        ProtocolError(InvalidCasBits);
      }
    }

    method SeizeAnswered(bits: Bits)
      requires Valid()
      modifies this, sched, sched.slots
      ensures Valid() && View() == P.SeizeAnswered(cfg, old(View()), bits)
    {
      if bits == BITS_SEIZE_ACK {
        Cancel(Seize);
        if r2State == SeizeTxdClearFwdPending {
          SendClearForward();
          return;
        }
        r2State := SeizeAckRxd;
        mfGroup := GI;
        SendDnis(0);
        log := P.Snoc(log, P.CallProceed);
      } else if bits == BITS_SEIZE {
        r2State := DoubleSeizure;
        Cancel(Seize);
        ReportDisconnection(Glare);
      } else {
        ProtocolError(InvalidCasBits);
      }
    }

    method ClearedByBackward(state: R2State, cause: Cause)
      requires Valid()
      modifies this, sched, sched.slots
      ensures Valid() && View() == P.ClearedByBackward(cfg, old(View()), state, cause)
    {
      r2State := state;
      if cfg.timers.meteringPulse != 0 {
        Schedule(MeteringPulse);
      } else {
        ReportDisconnection(cause);
      }
    }

    method ReleasedDuringSetup(bits: Bits)
      requires Valid()
      modifies this, sched, sched.slots
      ensures Valid()
      ensures View() == match P.BackwardDisconnection(bits)
                        case Some((s, e)) => P.ReportDisconnection(old(View()).(r2State := s), e)
                        case None => P.ProtocolError(old(View()), InvalidCasBits)
    {
      match P.BackwardDisconnection(bits) {
        case Some((state, cause)) =>
          r2State := state;
          ReportDisconnection(cause);
        case None =>
          ProtocolError(InvalidCasBits);
      }
    }

    method CasWhenIdle(bits: Bits)
      requires Valid()
      requires r2State == Idle
      modifies this, sched, sched.slots
      ensures Valid() && View() == P.CasChanged(cfg, old(View()), bits)
    {
      if bits == BITS_BLOCK {
        log := P.Snoc(log, P.LineBlocked);
      } else if bits == BITS_IDLE {
        log := P.Snoc(log, P.LineIdle);
      } else if bits == BITS_SEIZE {
        HandleIncomingCall();
      } else {
        ProtocolError(InvalidCasBits);
      }
    }

    method CasWhenOut(bits: Bits)
      requires Valid()
      requires r2State == Init || r2State == Blocked
      modifies this, sched, sched.slots
      ensures Valid() && View() == P.CasChanged(cfg, old(View()), bits)
    {
      if bits == BITS_IDLE {
        log := P.Snoc(log, P.LineIdle);
      } else if r2State == Init {
        if bits == BITS_BLOCK {
          log := P.Snoc(log, P.LineBlocked);
        } else {
          ProtocolError(InvalidR2State);
        }
      }
    }

    method CasInSetup(bits: Bits)
      requires Valid()
      requires r2State == AcceptRxd || r2State == SeizeAckRxd
      modifies this, sched, sched.slots
      ensures Valid() && View() == P.CasChanged(cfg, old(View()), bits)
    {
      if bits != BITS_ANSWER {
        ReleasedDuringSetup(bits);
      } else if r2State == AcceptRxd {
        MarkAnswered();
      } else {
        r2State := AnswerRxdMfPending;
      }
    }

    method CasAfterClearing(bits: Bits)
      requires Valid()
      requires r2State == DoubleSeizure || r2State == ClearFwdTxd
      modifies this, sched, sched.slots
      ensures Valid() && View() == P.CasChanged(cfg, old(View()), bits)
    {
      if r2State == DoubleSeizure {
        if bits == BITS_CLEAR_FORWARD {
          r2State := ClearFwdRxd;
        } else {
          ProtocolError(InvalidCasBits);
        }
      } else if P.BackwardDisconnection(bits).Some? {
        r2State := ClearBackAfterClearFwdRxd;
      } else {
        EndOn(BITS_IDLE, bits);
      }
    }

    method CasChanged(bits: Bits)
      requires Valid()
      modifies this, sched, sched.slots
      ensures Valid() && View() == P.CasChanged(cfg, old(View()), bits)
    {
      match r2State {
        case Init => CasWhenOut(bits);
        case Blocked => CasWhenOut(bits);
        case Idle => CasWhenIdle(bits);
        case SeizeAckTxd => ClearForwardOrError(bits);
        case AnswerTxd => ClearForwardOrError(bits);
        case ExecutingDoubleAnswer => ClearForwardOrError(bits);
        case SeizeTxd => SeizeAnswered(bits);
        case SeizeTxdClearFwdPending => SeizeAnswered(bits);
        case DoubleSeizure => CasAfterClearing(bits);
        case ClearFwdTxd => CasAfterClearing(bits);
        case DoubleSeizureClearFwdPending => EndOn(BITS_CLEAR_FORWARD, bits);
        case ClearBackTxd => EndOn(BITS_CLEAR_FORWARD, bits);
        case ForcedReleaseTxd => EndOn(BITS_CLEAR_FORWARD, bits);
        case ClearBackToneRxd => EndOn(BITS_IDLE, bits);
        case ClearBackAfterClearFwdRxd => EndOn(BITS_IDLE, bits);
        case AcceptRxd => CasInSetup(bits);
        case SeizeAckRxd => CasInSetup(bits);
        case AnswerRxdMfPending => ReleaseOrError(bits);
        case AnswerRxd => ReleaseOrError(bits);
        case ClearBackRxd => MeteringOrError(bits);
        case ForcedReleaseRxd => MeteringOrError(bits);
        case ClearFwdRxd => ProtocolError(InvalidR2State);
      }
    }

    method EndOn(expected: Bits, bits: Bits)
      requires Valid()
      modifies this, sched, sched.slots
      ensures Valid()
      ensures View() == if bits == expected then P.ReportCallEnd(old(View()))
                        else P.ProtocolError(old(View()), InvalidCasBits)
    {
      if bits == expected {
        ReportCallEnd();
      } else {
        ProtocolError(InvalidCasBits);
      }
    }

    method ReleaseOrError(bits: Bits)
      requires Valid()
      modifies this, sched, sched.slots
      ensures Valid() && View() == P.ReleaseOrError(cfg, old(View()), bits)
    {
      if bits == BITS_CLEAR_BACK {
        ClearedByBackward(ClearBackRxd, NormalClearing);
      } else if bits == BITS_FORCED_RELEASE {
        ClearedByBackward(ForcedReleaseRxd, ForcedRelease);
      } else {
        ProtocolError(InvalidCasBits);
      }
    }

    method MeteringOrError(bits: Bits)
      requires Valid()
      modifies this, sched, sched.slots
      ensures Valid() && View() == P.MeteringOrError(cfg, old(View()), bits)
    {
      if cfg.timers.meteringPulse != 0 && bits == BITS_ANSWER {
        Cancel(MeteringPulse);
        r2State := AnswerRxd;
        log := P.Snoc(log, P.BillingPulse);
      } else {
        ProtocolError(InvalidCasBits);
      }
    }

    method HandleCas(bits: Bits)
      requires Valid()
      modifies this, sched, sched.slots
      ensures Valid() && View() == P.HandleCas(cfg, old(View()), bits)
    {
      if casRead == bits || inAlarm {
        return;
      }
      casRead := bits;
      CasChanged(bits);
    }

    // -------------------------------------------------------------------------------------
    // Tone detection

    method HandleMfTone(tone: Tone, u: P.Reply)
      requires Valid()
      modifies this, sched, sched.slots
      ensures Valid() && View() == P.HandleMfTone(cfg, old(View()), tone, u)
    {
      if tone != NO_TONE {
        if readTone == tone {
          return;
        }
        if readTone != NO_TONE {
          ProtocolError(BrokenMfSequence);
          return;
        }
        readTone := tone;
        match direction {
          case Backward => HandleForwardTone(tone, u);
          case Forward => HandleBackwardTone();
          case Stopped => ProtocolError(LibraryBug);
        }
      } else {
        if readTone == NO_TONE {
          return;
        }
        match direction {
          case Backward => HandleForwardSilence();
          case Forward => HandleBackwardSilence(readTone, u);
          case Stopped => ProtocolError(LibraryBug);
        }
        readTone := NO_TONE;
      }
    }

    method HandleMedia(tone: Tone, u: P.Reply)
      requires Valid()
      modifies this, sched, sched.slots
      ensures Valid() && View() == P.HandleMedia(cfg, old(View()), tone, u)
    {
      if mfState != MfOff {
        HandleMfTone(tone, u);
      }
    }

    // -------------------------------------------------------------------------------------
    // Timer callbacks

    method MfBackCycleExpired()
      requires Valid()
      modifies this, sched, sched.slots
      ensures Valid() && View() == P.MfBackCycleExpired(cfg, old(View()))
    {
      if cfg.g1.noMoreDnis == NO_TONE && mfGroup == GA && (mfState == DnisRqTxd || mfState == AniRqTxd) {
        Schedule(BackResumeCycle);
        if !cfg.aniCanComeFirst && !cfg.getAniFirst {
          TryRequestCategory();
        } else {
          TryChangeToG2();
        }
      } else {
        ProtocolError(BackMfTimeout);
      }
    }

    method MeteringPulseExpired()
      requires Valid()
      modifies this, sched, sched.slots
      ensures Valid() && View() == P.MeteringPulseExpired(old(View()))
    {
      if r2State == ForcedReleaseRxd {
        ReportDisconnection(ForcedRelease);
      } else {
        ReportDisconnection(NormalClearing);
      }
    }

    method DoubleAnswerExpired()
      requires Valid()
      modifies this, sched, sched.slots
      ensures Valid() && View() == P.DoubleAnswerExpired(old(View()))
    {
      if r2State == AnswerTxd {
        SendClearBackward();
        r2State := ExecutingDoubleAnswer;
        Schedule(DoubleAnswer);
      } else if r2State == ExecutingDoubleAnswer {
        casTx := CasAnswer;
        r2State := AnswerTxd;
      }
    }

    method Dispatch(t: Timer)
      requires Valid()
      modifies this, sched, sched.slots
      ensures Valid() && View() == P.Dispatch(cfg, old(View()), t)
    {
      match t {
        case FwdSafety => ProtocolError(FwdSafetyTimeout);
        case Seize => ProtocolError(SeizeTimeout);
        case SeizePersist => SendClearForward();
        case Answer => ReportDisconnection(NoAnswer);
        case MeteringPulse => MeteringPulseExpired();
        case SetCallDown => ReportCallEnd();
        case DoubleAnswer => DoubleAnswerExpired();
        case BackResumeCycle => SetSilence();
        case BackCycle => MfBackCycleExpired();
        case AnswerDelay => log := P.Snoc(log, P.CallAccepted(UnknownMode));
      }
    }

    /** openr2_chan_handle_timers: a pass, with any number of timers due. */
    method HandleTimers()
      requires Valid()
      modifies this, sched, sched.slots
      ensures Valid()
      ensures View() == CallBack(old(View()), old(sched.Contents()), old(clock))
      ensures R.Inv(old(View())) ==>
                (R.Inv(View()) <==>
                 !Passes.Harmful(cfg, old(View()), DueCallbacks(old(sched.Contents()), old(clock))))
    {
      ghost var q, now, before := sched.Contents(), clock, View();
      InOrderDistinct(q, sched.lastId);
      var due := sched.TakeDue(clock);
      ghost var taken := View();
      assert taken == AfterTake(before, q, now);
      var i := 0;
      while i < |due|
        invariant i <= |due| && Valid()
        invariant View() == Passes.CallBack(cfg, taken, Callbacks(due)[..i])
      {
        Passes.OneMoreCalledBack(cfg, taken, Callbacks(due), i);
        Dispatch(due[i].callback);
        i := i + 1;
      }
      assert Callbacks(due)[..i] == Callbacks(due);
      PassKeepsInv(cfg, before, q, now);
    }

    /** What a pass makes of a channel. */
    ghost function CallBack(c: P.Chan, q: seq<Entry>, now: TimeVal): P.Chan {
      Passes.CallBack(cfg, AfterTake(c, q, now), DueCallbacks(q, now))
    }

    // -------------------------------------------------------------------------------------
    // User requests

    method SeizeLine()
      requires Valid()
      modifies this, sched, sched.slots
      ensures Valid() && View() == P.Schedule(old(View()).(casTx := CasSeize, r2State := SeizeTxd), Seize)
    {
      casTx := CasSeize;
      r2State := SeizeTxd;
      Schedule(Seize);
    }

    method StartDialing(n: P.Numbers)
      requires Valid()
      modifies this, sched, sched.slots
      ensures Valid()
      ensures View() == P.Emit(old(View()).(
        num := n, callState := Dialing, direction := Forward, mfGroup := FwdInit), P.CallPlaced)
    {
      num := n;
      callState := Dialing;
      direction := Forward;
      mfGroup := FwdInit;
      log := P.Snoc(log, P.CallPlaced);
    }

    method MakeCall(aniGiven: Option<string>, dnisGiven: string, party: Category, hidden: bool) returns (res: int)
      requires Valid()
      modifies this, sched, sched.slots
      ensures Valid() && View() == P.MakeCall(cfg, old(View()), aniGiven, dnisGiven, party, hidden)
      ensures res == if P.CanMakeCall(old(View())) then 0 else -1
    {
      if inAlarm || callState != CallIdle || casRead != BITS_IDLE {
        return -1;
      }
      var copyAni := false;
      if aniGiven.Some? {
        copyAni := IsNumeric(aniGiven.value);
      }
      var copyDnis := IsNumeric(dnisGiven);
      SeizeLine();
      StartDialing(P.Numbers(if copyDnis then P.Truncated(dnisGiven) else "", 0,
                       if copyAni then P.Truncated(aniGiven.value) else "", if copyAni then Some(0) else None,
                       hidden, P.CategoryToTone(cfg, party), num.categorySent));
      res := 0;
    }

    method AcceptCall(mode: CallMode) returns (res: int)
      requires Valid()
      modifies this, sched, sched.slots
      ensures Valid() && View() == P.AcceptCall(cfg, old(View()), mode)
      ensures res == if old(callState) == Offered then 0 else -1
    {
      if callState != Offered {
        return -1;
      }
      SendTone(AcceptedTxd, P.ToneFromMode(cfg, mode));
      res := 0;
    }

    method AnswerCall(double: bool) returns (res: int)
      requires Valid()
      modifies this, sched, sched.slots
      ensures Valid() && View() == P.AnswerCall(old(View()), double)
      ensures res == if old(callState) == Accepted then 0 else -1
    {
      if callState != Accepted {
        return -1;
      }
      casTx := CasAnswer;
      callState := Answered;
      r2State := AnswerTxd;
      answered := true;
      if double {
        Schedule(DoubleAnswer);
      }
      res := 0;
    }

    method AwaitPersist()
      requires Valid()
      modifies this, sched, sched.slots
      ensures Valid()
      ensures View() == P.Schedule(old(View()).(r2State := DoubleSeizureClearFwdPending), SeizePersist)
    {
      r2State := DoubleSeizureClearFwdPending;
      Schedule(SeizePersist);
    }

    method ForwardHangup()
      requires Valid()
      modifies this, sched, sched.slots
      ensures Valid() && View() == P.ForwardHangup(old(View()))
    {
      if r2State == SeizeTxd || r2State == DoubleSeizure {
        Postpone();
      } else if r2State == ClearFwdRxd {
        ReportCallEnd();
      } else {
        SendClearForward();
      }
    }

    method Postpone()
      requires Valid() && (r2State == SeizeTxd || r2State == DoubleSeizure)
      modifies this, sched, sched.slots
      ensures Valid() && View() == P.ForwardHangup(old(View()))
    {
      if r2State == SeizeTxd {
        r2State := SeizeTxdClearFwdPending;
      } else {
        AwaitPersist();
      }
    }

    method BackwardHangup(cause: Cause)
      requires Valid()
      modifies this, sched, sched.slots
      ensures Valid() && View() == P.BackwardHangup(cfg, old(View()), cause)
    {
      if callState == Offered {
        SendTone(DisconnectTxd, P.RejectTone(cfg, cause));
      } else if r2State == ClearFwdRxd {
        ReportCallEnd();
      } else if cause == ForcedRelease {
        SendForcedRelease();
      } else {
        SendClearBackward();
      }
    }

    method DisconnectCall(cause: Cause)
      requires Valid()
      modifies this, sched, sched.slots
      ensures Valid() && View() == P.DisconnectCall(cfg, old(View()), cause)
    {
      if callState == CallIdle {
        return;
      }
      log := P.Snoc(log, P.UserHangup);
      if direction == Backward {
        BackwardHangup(cause);
      } else {
        ForwardHangup();
      }
    }

    // -------------------------------------------------------------------------------------
    // Hardware alarms

    method AlarmOn()
      requires Valid()
      modifies this, sched, sched.slots
      ensures Valid() && View() == P.AlarmOn(old(View()))
    {
      inAlarm := true;
      log := P.Snoc(log, P.HardwareAlarm(true));
      if callState != CallIdle {
        ProtocolError(AlarmRaised);
      }
      casRead := 0x0;
      casTx := CasInvalid;
    }

    method AlarmOff(bits: Bits)
      requires Valid()
      modifies this, sched, sched.slots
      ensures Valid() && View() == P.AlarmOff(cfg, old(View()), bits)
    {
      inAlarm := false;
      log := P.Snoc(P.Snoc(log, P.HardwareAlarm(false)), P.Reset);
      if r2State != Blocked {
        SetIdle();
      } else {
        SetBlocked();
      }
      HandleCas(bits);
    }

    // -------------------------------------------------------------------------------------
    // The steps of a run

    /** One step of a run other than an expiry, which HandleTimers performs. */
    method Perform(s: P.Step)
      requires Valid() && !s.Fire?
      modifies this, sched, sched.slots
      ensures Valid() && View() == P.Next(cfg, old(View()), s)
      ensures R.Inv(old(View())) ==> R.Inv(View())
    {
      ghost var before := View();
      StepOfRun(cfg, before, s);
      match s {
        case CasSample(bits) => HandleCas(bits);
        case MfSample(tone, reply) => HandleMedia(tone, reply);
        case Place(aniGiven, dnisGiven, party, hidden) => var _ := MakeCall(aniGiven, dnisGiven, party, hidden);
        case Accept(mode) => var _ := AcceptCall(mode);
        case AnswerWith(double) => var _ := AnswerCall(double);
        case Hangup(cause) => DisconnectCall(cause);
        case ResetIdle => log := P.Snoc(log, P.Reset); SetIdle();
        case ResetBlocked => log := P.Snoc(log, P.Reset); SetBlocked();
        case Ack => AckCall();
        case RaiseAlarm => AlarmOn();
        case ClearAlarm(bits) => AlarmOff(bits);
      }
    }

    /**
     Any sequence of line and tone samples, requests and passes: the object follows the steps and passes of the model.
     As long as no pass is harmful, calls are conserved and every event the user was told of was in its place.
     */
    method Drive(inputs: seq<Input>) returns (ghost passes: seq<Found>)
      requires Valid() && R.Inv(View())
      requires forall i :: 0 <= i < |inputs| && inputs[i].Do? ==> !inputs[i].step.Fire?
      modifies this, sched, sched.slots
      ensures Valid() && Follows(cfg, old(View()), inputs, passes, View())
      ensures AllHarmless(cfg, passes) ==> R.Inv(View()) && T.Conserved(View()) && T.InOrder(View().log)
    {
      ghost var start := View();
      passes := [];
      var n := 0;
      assert inputs[..0] == [];
      while n < |inputs|
        invariant n <= |inputs| && Valid()
        invariant Driven(cfg, start, inputs[..n], passes, View())
      {
        ghost var before := View();
        var more := Take(inputs[n]);
        DrivenOn(cfg, start, inputs, n, passes, before, more, View());
        passes := passes + more;
        n := n + 1;
      }
      assert inputs[..n] == inputs;
      if AllHarmless(cfg, passes) { SoundChannel(View()); }
    }

    /** One input, and what the pass found if it is one. */
    method Take(input: Input) returns (ghost more: seq<Found>)
      requires Valid() && (input.Do? ==> !input.step.Fire?)
      modifies this, sched, sched.slots
      ensures Valid() && Answers(cfg, old(View()), input, more, View())
      ensures R.Inv(old(View())) && AllHarmless(cfg, more) ==> R.Inv(View())
    {
      match input {
        case Do(step) =>
          more := [];
          Perform(step);
        case Tick(now) =>
          clock := now;
          more := [Found(View(), sched.Contents(), now)];
          InOrderDistinct(sched.Contents(), sched.lastId);
          HandleTimers();
          assert AllHarmless(cfg, more) ==> more[0].Harmless(cfg);
      }
    }
  }

  /** What drives a channel object: a step of a run, or a pass of the scheduler at a time of day. */
  datatype Input = Do(step: P.Step) | Tick(now: TimeVal)

  /** A pass, by what it found: the channel, the array of timers and the time of day. */
  datatype Found = Found(chan: P.Chan, entries: seq<Entry>, now: TimeVal) {
    ghost predicate Consistent() { DistinctIds(entries) && chan.timers.live == LiveOf(entries) }

    predicate Harmless(cfg: Config) { !Passes.Harmful(cfg, chan, DueCallbacks(entries, now)) }

    function After(cfg: Config): P.Chan {
      Passes.CallBack(cfg, AfterTake(chan, entries, now), DueCallbacks(entries, now))
    }
  }

  predicate AllHarmless(cfg: Config, passes: seq<Found>) { forall i :: 0 <= i < |passes| ==> passes[i].Harmless(cfg) }

  lemma HarmlessParts(cfg: Config, first: seq<Found>, rest: seq<Found>)
    ensures AllHarmless(cfg, first + rest) ==> AllHarmless(cfg, first) && AllHarmless(cfg, rest)
  {
    if AllHarmless(cfg, first + rest) {
      assert forall i :: 0 <= i < |first| ==> (first + rest)[i] == first[i];
      assert forall i :: 0 <= i < |rest| ==> (first + rest)[|first| + i] == rest[i];
    }
  }

  /** An input takes c to d: a step as the step function says, a pass by the callbacks of what it finds due on c. */
  ghost predicate Answers(cfg: Config, c: P.Chan, input: Input, more: seq<Found>, d: P.Chan) {
    match input
    case Do(step) => more == [] && d == P.Next(cfg, c, step)
    case Tick(now) =>
      |more| == 1 && more[0].chan == c && more[0].now == now && more[0].Consistent() && d == more[0].After(cfg)
  }

  /** The inputs take c to d, by these passes. */
  ghost predicate Follows(cfg: Config, c: P.Chan, inputs: seq<Input>, passes: seq<Found>, d: P.Chan)
    decreases |inputs|
  {
    if inputs == [] then passes == [] && d == c
    else
      var front, input := inputs[..|inputs| - 1], inputs[|inputs| - 1];
      exists b, before, last ::
        passes == before + last && Follows(cfg, c, front, before, b) && Answers(cfg, b, input, last, d)
  }

  /** And if no pass was harmful, d is as good as c was. */
  ghost predicate Driven(cfg: Config, c: P.Chan, inputs: seq<Input>, passes: seq<Found>, d: P.Chan) {
    Follows(cfg, c, inputs, passes, d) && (AllHarmless(cfg, passes) ==> R.Inv(d))
  }

  lemma DrivenOn(cfg: Config, c: P.Chan, inputs: seq<Input>, k: nat, passes: seq<Found>, b: P.Chan, more: seq<Found>,
                 d: P.Chan)
    requires k < |inputs| && Driven(cfg, c, inputs[..k], passes, b) && Answers(cfg, b, inputs[k], more, d)
    requires R.Inv(b) && AllHarmless(cfg, more) ==> R.Inv(d)
    ensures Driven(cfg, c, inputs[..k + 1], passes + more, d)
  {
    FollowsOn(cfg, c, inputs, k, passes, b, more, d);
    HarmlessParts(cfg, passes, more);
  }

  lemma FollowsOn(cfg: Config, c: P.Chan, inputs: seq<Input>, k: nat, passes: seq<Found>, b: P.Chan, more: seq<Found>,
                  d: P.Chan)
    requires k < |inputs| && Follows(cfg, c, inputs[..k], passes, b) && Answers(cfg, b, inputs[k], more, d)
    ensures Follows(cfg, c, inputs[..k + 1], passes + more, d)
  {
    assert inputs[..k + 1][..k] == inputs[..k];
  }

  lemma StepOfRun(cfg: Config, c: P.Chan, s: P.Step)
    ensures R.Inv(c) ==> R.Inv(P.Next(cfg, c, s))
  {
    if R.Inv(c) { R.StepKeepsInv(cfg, c, s); }
  }

  /** A pass of the array scheduler keeps the invariant exactly when what is due is not harmful. */
  lemma PassKeepsInv(cfg: Config, c: P.Chan, q: seq<Entry>, now: TimeVal)
    requires DistinctIds(q) && c.timers.live == LiveOf(q)
    ensures R.Inv(c) ==>
              (R.Inv(Passes.CallBack(cfg, AfterTake(c, q, now), DueCallbacks(q, now))) <==>
               !Passes.Harmful(cfg, c, DueCallbacks(q, now)))
  {
    if R.Inv(c) {
      PassTakes(c, q, now);
      Passes.PassKeepsInvExactly(cfg, c, AfterTake(c, q, now), DueCallbacks(q, now));
    }
  }

  lemma SoundChannel(c: P.Chan)
    requires R.Inv(c)
    ensures T.Conserved(c) && T.InOrder(c.log)
  {
    T.InvConserves(c);
    forall h, e | T.Earlier(P.Snoc(h, e), c.log) ensures T.InTurn(h, e) { T.InvOrders(c, h, e); }
  }
}
