/**
 The timers that guard the waiting states when the slots of the scheduler run out: which steps leave a wait unguarded,
 exactly, and a run that does.
 */
module Guards {
  import opened Signals
  import opened Protocol
  import opened RunInvariants
  import opened RunTheorems
  import opened LineSignals
  import LatePasses

  /** A timer of this purpose is running. */
  ghost predicate Runs(tt: TimerTable, t: Timer) { exists id :: id in tt.live && tt.live[id] == t }

  /** What has to end the wait a channel is in, if nothing else does. */
  function WaitOf(c: Chan): Option<Timer> {
    match c.r2State
    case SeizeTxd => Some(Seize)
    case SeizeTxdClearFwdPending => Some(Seize)
    case ClearFwdTxd => Some(SetCallDown)
    case ClearBackAfterClearFwdRxd => Some(SetCallDown)
    case DoubleSeizureClearFwdPending => Some(SeizePersist)
    case ExecutingDoubleAnswer => Some(DoubleAnswer)
    case AcceptRxd => if c.callState == Dialing then Some(Answer) else None
    case SeizeAckRxd => if c.mfState == WaitingTimeout && c.readTone == NO_TONE then Some(FwdSafety) else None
    case _ => None
  }

  ghost predicate Guarded(c: Chan) { WaitOf(c).Some? ==> Runs(c.timers, WaitOf(c).value) }

  /**
   The timers there are when a step asks for the one that guards a wait: an expiry and an acknowledgement have given up
   a slot before, and a user who drops the call from inside the acceptance has taken one.
   */
  function AtRequest(c: Chan, s: Step, t: Timer): TimerTable {
    match s
    case Fire(id) => c.timers.(live := c.timers.live - {id})
    case CasSample(bits) =>
      if AwaitsAck(c) && bits == BITS_SEIZE_ACK && bits != c.casRead then CancelTimer(c.timers, Seize) else c.timers
    case MfSample(_, _) =>
      if t == SetCallDown && c.r2State != AnswerRxdMfPending then AddTimer(c.timers, Answer) else c.timers
    case _ => c.timers
  }

  /** There is a slot for the timer, or one of its purpose is running already. */
  ghost predicate HasGuard(c: Chan, s: Step, t: Timer) {
    !SlotsFull(AtRequest(c, s, t)) || Runs(AtRequest(c, s, t), t)
  }

  ghost predicate KeepsGuard(cfg: Config, c: Chan, s: Step) {
    var d := Next(cfg, c, s);
    WaitOf(d).Some? ==> HasGuard(c, s, WaitOf(d).value)
  }

  /** A step that takes c to d leaves its wait guarded exactly when there is a guard for it. */
  ghost predicate Exactly(c: Chan, s: Step, d: Chan) {
    WaitOf(d).Some? ==> (Runs(d.timers, WaitOf(d).value) <==> HasGuard(c, s, WaitOf(d).value))
  }

  lemma Requested(tt: TimerTable, t: Timer)
    ensures Runs(AddTimer(tt, t), t) <==> !SlotsFull(tt) || Runs(tt, t)
    ensures forall u :: u != t ==> (Runs(AddTimer(tt, t), u) ==> Runs(tt, u))
    ensures (forall id :: id in tt.live ==> id <= tt.lastId) ==> forall u :: Runs(tt, u) ==> Runs(AddTimer(tt, t), u)
  {
    var d := AddTimer(tt, t);
    if !SlotsFull(tt) { assert d.live[tt.lastId + 1] == t; }
    forall u | Runs(tt, u) && (forall id :: id in tt.live ==> id <= tt.lastId) ensures Runs(d, u) {
      var id :| id in tt.live && tt.live[id] == u;
      assert d.live[id] == u;
    }
  }

  // ---------------------------------------------------------------------------------------
  // Steps

  /** From a guarded channel a step leaves the wait it enters or stays in guarded exactly when it has a guard for it. */
  lemma GuardKeptExactly(cfg: Config, c: Chan, s: Step)
    requires Core(c) && Guarded(c)
    ensures Guarded(Next(cfg, c, s)) <==> KeepsGuard(cfg, c, s)
  {
    StepGuards(cfg, c, s);
  }

  lemma StepGuards(cfg: Config, c: Chan, s: Step)
    requires Core(c) && Guarded(c)
    ensures Exactly(c, s, Next(cfg, c, s))
  {
    match s
    case CasSample(bits) => SampleGuards(cfg, c, bits);
    case MfSample(tone, reply) => ToneGuards(cfg, c, tone, reply);
    case Fire(id) => ExpiryGuards(cfg, c, id);
    case Hangup(cause) => HangupGuards(cfg, c, cause);
    case _ => RequestGuards(cfg, c, s);
  }

  lemma RequestGuards(cfg: Config, c: Chan, s: Step)
    requires Core(c) && Guarded(c) && !s.CasSample? && !s.MfSample? && !s.Fire? && !s.Hangup?
    ensures Exactly(c, s, Next(cfg, c, s))
  {
    match s
    case Place(ani, dnis, category, restricted) => Requested(c.timers, Seize);
    case ClearAlarm(bits) => AlarmClears(cfg, c, bits);
    case Accept(mode) => AcceptWaits(cfg, c, mode);
    case AnswerWith(double) => AnswerWaits(c, double);
    case _ => ResetWaits(cfg, c, s);
  }

  lemma ResetWaits(cfg: Config, c: Chan, s: Step)
    requires Core(c) && (s.ResetIdle? || s.ResetBlocked? || s.RaiseAlarm? || s.Ack?)
    ensures WaitOf(Next(cfg, c, s)) == None || (WaitOf(Next(cfg, c, s)) == WaitOf(c) &&
        Next(cfg, c, s).timers == c.timers)
  {
  }

  lemma AcceptWaits(cfg: Config, c: Chan, mode: CallMode)
    requires Core(c)
    ensures AcceptCall(cfg, c, mode) == c || WaitOf(AcceptCall(cfg, c, mode)) == None
  {
  }

  lemma AnswerWaits(c: Chan, double: bool)
    ensures AnswerCall(c, double) == c || WaitOf(AnswerCall(c, double)) == None
  {
  }

  lemma AlarmClears(cfg: Config, c: Chan, bits: Bits)
    ensures WaitOf(AlarmOff(cfg, c, bits)) == None
  {
  }

  /** Clearing forward, from whatever state. */
  lemma ClearGuards(c: Chan)
    requires TimerOwnership(c.timers, c.direction) && c.direction == Forward
    ensures var d := SendClearForward(c);
            && d.r2State == ClearFwdTxd
            && (Runs(d.timers, SetCallDown) <==> !SlotsFull(c.timers) || Runs(c.timers, SetCallDown))
  {
    var tt := AddTimer(c.timers, SetCallDown);
    AddTimerOwnership(c.timers, SetCallDown, Forward);
    CancelTimerEffect(tt, BackCycle, Forward);
    Requested(c.timers, SetCallDown);
    assert SendClearForward(c).timers == tt || SendClearForward(c).timers == CancelTimer(tt, BackCycle);
  }

  lemma HangupGuards(cfg: Config, c: Chan, cause: Cause)
    requires Core(c) && Guarded(c)
    ensures Exactly(c, Hangup(cause), DisconnectCall(cfg, c, cause))
  {
    if c.direction == Backward {
      assert WaitOf(DisconnectCall(cfg, c, cause)) == None by { BackwardLeaves(cfg, c, cause); }
    } else if c.callState != CallIdle {
      assert DisconnectCall(cfg, c, cause) == ForwardHangup(Emit(c, UserHangup));
      ForwardHangupGuards(c, Emit(c, UserHangup), cause);
    }
  }

  lemma ForwardHangupGuards(c: Chan, e: Chan, cause: Cause)
    requires Core(c) && Guarded(c) && c.direction == Forward && e == Emit(c, UserHangup)
    ensures Exactly(c, Hangup(cause), ForwardHangup(e))
  {
    if c.r2State == DoubleSeizure {
      Requested(e.timers, SeizePersist);
    } else if c.r2State != SeizeTxd && c.r2State != ClearFwdRxd {
      ClearedExactly(c, e, cause);
    }
  }

  lemma ClearedExactly(c: Chan, e: Chan, cause: Cause)
    requires TimerOwnership(c.timers, Forward) && c.direction == Forward && e == Emit(c, UserHangup)
    requires c.r2State != SeizeTxd && c.r2State != DoubleSeizure && c.r2State != ClearFwdRxd
    ensures Exactly(c, Hangup(cause), ForwardHangup(e))
  {
    HangupClears(e);
    ClearGuards(e);
  }

  lemma HangupClears(c: Chan)
    requires c.r2State != SeizeTxd && c.r2State != DoubleSeizure && c.r2State != ClearFwdRxd
    ensures ForwardHangup(c) == SendClearForward(c)
  {
  }

  lemma BackwardLeaves(cfg: Config, c: Chan, cause: Cause)
    requires Core(c) && c.direction == Backward
    ensures WaitOf(DisconnectCall(cfg, c, cause)) == None
  {
  }

  lemma SampleGuards(cfg: Config, c: Chan, bits: Bits)
    requires Core(c) && Guarded(c)
    ensures Exactly(c, CasSample(bits), HandleCas(cfg, c, bits))
  {
    if bits != c.casRead && !c.inAlarm {
      if AwaitsAck(c) && bits == BITS_SEIZE_ACK {
        AcknowledgementGuards(cfg, c.(casRead := bits));
      } else {
        OtherSampleGuards(cfg, c.(casRead := bits), bits);
      }
    }
  }

  /** Every other change of bits ends the wait, or leaves a cleared call with its timers. */
  lemma OtherSampleGuards(cfg: Config, c: Chan, bits: Bits)
    requires Core(c) && !c.inAlarm && !(AwaitsAck(c) && bits == BITS_SEIZE_ACK)
    ensures var d := CasChanged(cfg, c, bits);
            WaitOf(d) == None || (WaitOf(d) == WaitOf(c) && d.timers == c.timers)
  {
    if NoCallState(c.r2State) { NoCallWaits(cfg, c, bits); }
    else if BackwardState(c.r2State) { BackwardWaits(cfg, c, bits); }
    else if ForwardMuted(c.r2State) { MutedWaits(cfg, c, bits); }
    else { ForwardWaits(cfg, c, bits); }
  }

  lemma NoCallWaits(cfg: Config, c: Chan, bits: Bits)
    requires NoCallState(c.r2State)
    ensures WaitOf(CasChanged(cfg, c, bits)) == None
  {
  }

  lemma BackwardWaits(cfg: Config, c: Chan, bits: Bits)
    requires BackwardState(c.r2State)
    ensures WaitOf(CasChanged(cfg, c, bits)) == None
  {
  }

  lemma MutedWaits(cfg: Config, c: Chan, bits: Bits)
    requires ForwardMuted(c.r2State) && !(AwaitsAck(c) && bits == BITS_SEIZE_ACK)
    ensures var d := CasChanged(cfg, c, bits); WaitOf(d) == None || (WaitOf(d) == WaitOf(c) && d.timers == c.timers)
  {
  }

  lemma ForwardWaits(cfg: Config, c: Chan, bits: Bits)
    requires !NoCallState(c.r2State) && !BackwardState(c.r2State) && !ForwardMuted(c.r2State)
    ensures WaitOf(CasChanged(cfg, c, bits)) == None
  {
  }

  lemma AcknowledgementGuards(cfg: Config, c: Chan)
    requires Core(c) && AwaitsAck(c)
    ensures var d := CasChanged(cfg, c, BITS_SEIZE_ACK); var tt := CancelTimer(c.timers, Seize);
            WaitOf(d).Some? ==> (Guarded(d) <==> !SlotsFull(tt) || Runs(tt, WaitOf(d).value))
  {
    var e := Cancel(c, Seize);
    if c.r2State == SeizeTxdClearFwdPending {
      assert TimerOwnership(e.timers, Forward) by { CancelTimerEffect(c.timers, Seize, Forward); }
      ClearGuards(e);
      assert CasChanged(cfg, c, BITS_SEIZE_ACK) == SendClearForward(e);
    } else {
      FirstDigitGuards(cfg, c, e.(r2State := SeizeAckRxd, mfGroup := GI));
    }
  }

  lemma FirstDigitGuards(cfg: Config, c: Chan, f: Chan)
    requires Core(c) && c.r2State == SeizeTxd && f == Cancel(c, Seize).(r2State := SeizeAckRxd, mfGroup := GI)
    ensures var d := CasChanged(cfg, c, BITS_SEIZE_ACK);
            WaitOf(d).Some? ==> WaitOf(d) == Some(FwdSafety) && d.timers == AddTimer(f.timers, FwdSafety)
    ensures Runs(AddTimer(f.timers, FwdSafety), FwdSafety) <==> !SlotsFull(f.timers) || Runs(f.timers, FwdSafety)
  {
    DnisIsPlain(cfg, f, 0);
    Requested(f.timers, FwdSafety);
    assert CasChanged(cfg, c, BITS_SEIZE_ACK) == Emit(SendDnis(cfg, f, 0), CallProceed);
  }

  lemma ExpiryGuards(cfg: Config, c: Chan, id: int)
    requires Core(c) && Guarded(c)
    ensures Exactly(c, Fire(id), TimerFires(cfg, c, id))
  {
    if id in c.timers.live {
      var e := c.(timers := c.timers.(live := c.timers.live - {id}));
      match c.timers.live[id]
      case SeizePersist => PersistGuards(c, id);
      case DoubleAnswer => Requested(e.timers, DoubleAnswer); DoubleAnswerGuards(cfg, c, e);
      case _ => OtherExpiryGuards(cfg, c, id);
    } else {
      assert c.timers.live - {id} == c.timers.live;
    }
  }

  lemma PersistGuards(c: Chan, id: int)
    requires Core(c) && id in c.timers.live && c.timers.live[id] == SeizePersist
    ensures var e := c.(timers := c.timers.(live := c.timers.live - {id})); var d := SendClearForward(e);
            && d.r2State == ClearFwdTxd
            && (Runs(d.timers, SetCallDown) <==> !SlotsFull(e.timers) || Runs(e.timers, SetCallDown))
  {
    ClearGuards(c.(timers := c.timers.(live := c.timers.live - {id})));
  }

  lemma DoubleAnswerGuards(cfg: Config, c: Chan, e: Chan)
    requires Core(c) && c.direction == Backward && e == c.(timers := e.timers)
    requires Runs(AddTimer(e.timers, DoubleAnswer), DoubleAnswer) <==>
               !SlotsFull(e.timers) || Runs(e.timers, DoubleAnswer)
    ensures var d := DoubleAnswerExpired(e);
            WaitOf(d) == None ||
            (WaitOf(d) == Some(DoubleAnswer) && (Guarded(d) <==> !SlotsFull(e.timers) || Runs(e.timers, DoubleAnswer)))
  {
  }

  lemma OtherExpiryGuards(cfg: Config, c: Chan, id: int)
    requires Core(c) && Guarded(c) && id in c.timers.live
    requires c.timers.live[id] != SeizePersist && c.timers.live[id] != DoubleAnswer
    ensures Exactly(c, Fire(id), TimerFires(cfg, c, id))
  {
    var e, d := c.(timers := c.timers.(live := c.timers.live - {id})), TimerFires(cfg, c, id);
    OtherExpiryWaits(cfg, c, id);
    if WaitOf(d).Some? {
      var j :| j in c.timers.live && c.timers.live[j] == WaitOf(c).value;
      assert e.timers.live[j] == WaitOf(d).value;
    }
  }

  /** Every other expiry ends the wait, or leaves it with the timers it had but one of another purpose. */
  lemma OtherExpiryWaits(cfg: Config, c: Chan, id: int)
    requires Core(c) && id in c.timers.live
    requires c.timers.live[id] != SeizePersist && c.timers.live[id] != DoubleAnswer
    ensures var e := c.(timers := c.timers.(live := c.timers.live - {id})); var d := TimerFires(cfg, c, id);
            WaitOf(d) == None ||
            (WaitOf(d) == WaitOf(c) && WaitOf(d) != Some(c.timers.live[id]) && d.timers == e.timers)
  {
    match c.timers.live[id] {
      case BackCycle => CycleWaits(cfg, c, id);
      case _ =>
    }
  }

  lemma CycleWaits(cfg: Config, c: Chan, id: int)
    requires Core(c) && id in c.timers.live && c.timers.live[id] == BackCycle
    ensures WaitOf(TimerFires(cfg, c, id)) == None
  {
  }

  // ---------------------------------------------------------------------------------------
  // Tones

  /** e asks for no timer but the safety timer, which it does exactly when it goes on waiting for a request. */
  predicate Plain(c: Chan, e: Chan) {
    && e.r2State == c.r2State && e.callState == c.callState && e.readTone == c.readTone
    && e.timers == if e.mfState == WaitingTimeout then AddTimer(c.timers, FwdSafety) else c.timers
  }

  lemma DnisIsPlain(cfg: Config, c: Chan, offset: int)
    requires c.direction == Forward
    ensures Plain(c, SendDnis(cfg, c, offset))
  {
  }

  lemma AniIsPlain(cfg: Config, c: Chan)
    requires c.direction == Forward
    ensures Plain(c, SendAni(cfg, c))
  {
    DnisIsPlain(cfg, c.(mfGroup := GI), 1);
  }

  lemma CategoryIsPlain(c: Chan)
    requires c.direction == Forward
    ensures Plain(c, SendCategory(c))
  {
  }

  /** What a request comes to: an item, an acceptance, or the end of the wait. */
  ghost predicate Replied(cfg: Config, c: Chan, u: Reply, e: Chan) {
    || Plain(c, e)
    || WaitOf(e.(readTone := NO_TONE)) == None
    || exists mode :: e == HandleAcceptTone(cfg, c, mode, u)
  }

  lemma GroupAReplies(cfg: Config, c: Chan, tone: Tone, u: Reply)
    requires c.direction == Forward
    ensures Replied(cfg, c, u, HandleGroupARequest(cfg, c, tone, u))
  {
    if IsDnisRequest(cfg, tone) {
      DnisRequestIsPlain(cfg, c, tone);
    } else if c.num.categorySent && tone == cfg.ga.nextAni {
      AniIsPlain(cfg, c);
    } else {
      CategoryIsPlain(c);
      CategoryIsPlain(c.(mfGroup := GIII));
      CategoryIsPlain(c.(mfGroup := GII));
    }
  }

  lemma DnisRequestIsPlain(cfg: Config, c: Chan, tone: Tone)
    requires c.direction == Forward && IsDnisRequest(cfg, tone)
    ensures Plain(c, HandleDnisRequest(cfg, c, tone))
  {
    DnisIsPlain(cfg, c, 1);
    DnisIsPlain(cfg, c, -1);
    DnisIsPlain(cfg, c, -2);
    DnisIsPlain(cfg, c, -3);
    DnisIsPlain(cfg, c.(num := c.num.(dnisIndex := 0)), 0);
  }

  lemma GroupCReplies(cfg: Config, c: Chan, tone: Tone, u: Reply)
    requires c.direction == Forward
    ensures Replied(cfg, c, u, HandleGroupCRequest(cfg, c, tone))
  {
    AniIsPlain(cfg, c);
    CategoryIsPlain(c.(mfGroup := GII));
    DnisIsPlain(cfg, c.(mfGroup := GI), 1);
  }

  lemma GroupBReplies(cfg: Config, c: Chan, tone: Tone, u: Reply)
    requires c.direction == Forward
    ensures Replied(cfg, c, u, HandleGroupBRequest(cfg, c, tone, u))
  {
  }

  lemma SilenceReplies(cfg: Config, c: Chan, tone: Tone, u: Reply)
    requires c.direction == Forward
    ensures Replied(cfg, c, u, HandleBackwardSilence(cfg, c, tone, u))
  {
    match c.mfGroup
    case GI => GroupAReplies(cfg, c, tone, u);
    case GII => GroupBReplies(cfg, c, tone, u);
    case GIII => GroupCReplies(cfg, c, tone, u);
    case _ =>
  }

  lemma ToneGuards(cfg: Config, c: Chan, tone: Tone, u: Reply)
    requires Core(c) && Guarded(c)
    ensures Exactly(c, MfSample(tone, u), HandleMedia(cfg, c, tone, u))
  {
    var d := HandleMedia(cfg, c, tone, u);
    if d == c {
      if WaitOf(c).Some? { NothingAsked(c, tone, u); }
    } else if c.direction == Backward {
      assert WaitOf(d) == None by { BackwardTones(cfg, c, tone, u); }
    } else if tone != NO_TONE {
      ToneOnGuards(cfg, c, tone, u);
    } else {
      SilenceReplies(cfg, c, c.readTone, u);
      SilenceGuards(cfg, c, u, HandleBackwardSilence(cfg, c, c.readTone, u));
    }
  }

  lemma NothingAsked(c: Chan, tone: Tone, u: Reply)
    requires Core(c) && Guarded(c) && WaitOf(c).Some?
    ensures HasGuard(c, MfSample(tone, u), WaitOf(c).value)
  {
    Requested(c.timers, Answer);
  }

  lemma BackwardTones(cfg: Config, c: Chan, tone: Tone, u: Reply)
    requires Core(c) && c.direction == Backward && HandleMedia(cfg, c, tone, u) != c
    ensures WaitOf(HandleMedia(cfg, c, tone, u)) == None
  {
    assert c.r2State != ExecutingDoubleAnswer;
    if tone != NO_TONE {
      ForwardToneKeepsLine(cfg, c.(readTone := tone), tone, u);
    } else {
      ForwardSilenceKeepsLine(c);
    }
  }

  lemma CancelKeepsRuns(tt: TimerTable, t: Timer, u: Timer, d: Direction)
    requires TimerOwnership(tt, d) && t != u
    ensures Runs(CancelTimer(tt, t), u) <==> Runs(tt, u)
  {
    if Runs(tt, u) {
      var id :| id in tt.live && tt.live[id] == u;
      assert CancelTimer(tt, t).live[id] == u;
    }
  }

  lemma ToneOnGuards(cfg: Config, c: Chan, tone: Tone, u: Reply)
    requires Core(c) && Guarded(c) && c.direction == Forward && tone != NO_TONE && HandleMedia(cfg, c, tone, u) != c
    ensures Exactly(c, MfSample(tone, u), HandleMedia(cfg, c, tone, u))
  {
    var d := HandleMedia(cfg, c, tone, u);
    if c.readTone == NO_TONE {
      assert d == c.(readTone := tone, writeTone := NO_TONE, timers := CancelTimer(c.timers, FwdSafety));
      CancelKeepsRuns(c.timers, FwdSafety, Answer, Forward);
    } else {
      assert d == ProtocolError(c, BrokenMfSequence);
    }
  }

  lemma SilenceGuards(cfg: Config, c: Chan, u: Reply, e: Chan)
    requires Core(c) && Guarded(c) && c.direction == Forward && c.readTone != NO_TONE && c.mfState != MfOff
    requires Replied(cfg, c, u, e)
    ensures var d := e.(readTone := NO_TONE);
            Exactly(c, MfSample(NO_TONE, u), d)
  {
    if WaitOf(e.(readTone := NO_TONE)) == None {
    } else if Plain(c, e) {
      Requested(c.timers, FwdSafety);
    } else {
      var mode :| e == HandleAcceptTone(cfg, c, mode, u);
      AcceptanceGuards(cfg, c, mode, u);
    }
  }

  lemma AcceptanceGuards(cfg: Config, c: Chan, mode: CallMode, u: Reply)
    requires Core(c) && c.direction == Forward && c.mfState != MfOff
    ensures Exactly(c, MfSample(NO_TONE, u), HandleAcceptTone(cfg, c, mode, u).(readTone := NO_TONE))
  {
    var e := Emit(if c.r2State == AnswerRxdMfPending then c.(r2State := AcceptRxd)
        else Schedule(c.(r2State := AcceptRxd), Answer),
                  CallAccepted(mode));
    if u.dropOnAccept {
      assert TimerOwnership(e.timers, Forward) by { AddTimerOwnership(c.timers, Answer, Forward); }
      ClearGuards(Emit(e, UserHangup));
      DroppedInCallback(cfg, c, mode, u, e);
    } else if c.r2State != AnswerRxdMfPending {
      Requested(c.timers, Answer);
    }
  }

  lemma DroppedInCallback(cfg: Config, c: Chan, mode: CallMode, u: Reply, e: Chan)
    requires Core(c) && c.direction == Forward && c.mfState != MfOff && u.dropOnAccept
    requires e == Emit(if c.r2State == AnswerRxdMfPending then c.(r2State := AcceptRxd)
                       else Schedule(c.(r2State := AcceptRxd), Answer), CallAccepted(mode))
    ensures HandleAcceptTone(cfg, c, mode, u) == SendClearForward(Emit(e, UserHangup))
  {
    assert DisconnectCall(cfg, e, NormalClearing) == SendClearForward(Emit(e, UserHangup));
  }

  // ---------------------------------------------------------------------------------------
  // Runs

  ghost predicate GuardedAt(cfg: Config, steps: seq<Step>, i: nat)
    requires i <= |steps|
  {
    Guarded(At(cfg, steps, i))
  }

  ghost predicate KeepsGuardAt(cfg: Config, steps: seq<Step>, i: nat)
    requires i < |steps|
  {
    KeepsGuard(cfg, At(cfg, steps, i), steps[i])
  }

  /** Over any run: every wait in it is guarded exactly when every step of it had a guard for the wait it led to. */
  lemma GuardsKeptExactly(cfg: Config, steps: seq<Step>)
    ensures (forall i :: 0 <= i <= |steps| ==> GuardedAt(cfg, steps, i)) <==>
            (forall i :: 0 <= i < |steps| ==> KeepsGuardAt(cfg, steps, i))
  {
    if forall i :: 0 <= i <= |steps| ==> GuardedAt(cfg, steps, i) {
      forall i | 0 <= i < |steps| ensures KeepsGuardAt(cfg, steps, i) { GuardKeptAt(cfg, steps, i); }
    }
    if forall i :: 0 <= i < |steps| ==> KeepsGuardAt(cfg, steps, i) {
      forall i | 0 <= i <= |steps| ensures GuardedAt(cfg, steps, i) { GuardedUpTo(cfg, steps, i); }
    }
  }

  lemma {:induction false} GuardedUpTo(cfg: Config, steps: seq<Step>, n: nat)
    requires n <= |steps| && forall i :: 0 <= i < n ==> KeepsGuardAt(cfg, steps, i)
    ensures GuardedAt(cfg, steps, n)
    decreases n
  {
    if n == 0 {
      assert At(cfg, steps, 0) == NEW_CHAN;
    } else {
      GuardedUpTo(cfg, steps, n - 1);
      GuardKeptAt(cfg, steps, n - 1);
    }
  }

  lemma GuardKeptAt(cfg: Config, steps: seq<Step>, i: nat)
    requires i < |steps| && GuardedAt(cfg, steps, i)
    ensures GuardedAt(cfg, steps, i + 1) <==> KeepsGuardAt(cfg, steps, i)
  {
    RunKeepsInv(cfg, steps[..i]);
    GuardKeptExactly(cfg, At(cfg, steps, i), steps[i]);
    NextAt(cfg, steps, i);
  }

  /**
   State by state: after a run all of whose steps had a guard the timer that ends the wait is running, and if no request
   of the run found the slots full it is the one the field of its purpose names.
   */
  lemma WaitsAreGuarded(cfg: Config, steps: seq<Step>)
    requires forall i :: 0 <= i < |steps| ==> KeepsGuardAt(cfg, steps, i)
    ensures var c := Run(cfg, NEW_CHAN, steps); var named := !SlotMissed(c.log);
            && (c.r2State == SeizeTxd || c.r2State == SeizeTxdClearFwdPending ==> Guards(c.timers, Seize, named))
            && (c.r2State == ClearFwdTxd || c.r2State == ClearBackAfterClearFwdRxd ==> Runs(c.timers, SetCallDown))
            && (c.r2State == DoubleSeizureClearFwdPending ==> Guards(c.timers, SeizePersist, named))
            && (c.r2State == ExecutingDoubleAnswer ==> Guards(c.timers, DoubleAnswer, named))
            && (c.r2State == AcceptRxd && c.callState == Dialing ==> Guards(c.timers, Answer, named))
            && (c.r2State == SeizeAckRxd && c.mfState == WaitingTimeout && c.readTone == NO_TONE ==>
                  Guards(c.timers, FwdSafety, named))
  {
    GuardsKeptExactly(cfg, steps);
    assert GuardedAt(cfg, steps, |steps|) && steps[..|steps|] == steps;
    RunKeepsInv(cfg, steps);
    var c := Run(cfg, NEW_CHAN, steps);
    if WaitOf(c).Some? && WaitOf(c) != Some(SetCallDown) { GuardsAreNamed(c); }
  }

  lemma GuardsAreNamed(c: Chan)
    requires Inv(c) && Guarded(c) && WaitOf(c).Some? && WaitOf(c) != Some(SetCallDown)
    ensures Guards(c.timers, WaitOf(c).value, !SlotMissed(c.log))
  {
  }

  /** The timer is running and, if named, under the id its field holds. */
  ghost predicate Guards(tt: TimerTable, t: Timer, named: bool) { Runs(tt, t) && (named ==> Armed(tt, t)) }

  /** So a run in which there are never more than eight timers running, of ten slots, guards every wait. */
  lemma {:induction false} SpareSlotsGuard(cfg: Config, steps: seq<Step>)
    requires forall i :: 0 <= i < |steps| ==> |At(cfg, steps, i).timers.live| <= MAX_SCHED_TIMERS - 2
    ensures forall i :: 0 <= i <= |steps| ==> GuardedAt(cfg, steps, i)
  {
    forall i | 0 <= i < |steps| ensures KeepsGuardAt(cfg, steps, i) {
      var c := At(cfg, steps, i);
      RunKeepsInv(cfg, steps[..i]);
      forall t: Timer ensures !SlotsFull(AtRequest(c, steps[i], t)) { SpareSlot(c, steps[i], t); }
    }
    GuardsKeptExactly(cfg, steps);
  }

  lemma SpareSlot(c: Chan, s: Step, t: Timer)
    requires |c.timers.live| <= MAX_SCHED_TIMERS - 2
    ensures !SlotsFull(AtRequest(c, s, t))
  {
    if s.Fire? { FewerLeft(c.timers.live, s.id); }
    FewerLeft(c.timers.live, IdOf(c.timers, Seize));
  }

  lemma FewerLeft(live: map<int, Timer>, id: int)
    ensures |live - {id}| <= |live|
  {
    var rest := live - {id};
    assert rest.Keys <= live.Keys;
    FewerKeys(rest.Keys, live.Keys);
    assert |rest| == |rest.Keys| && |live| == |live.Keys|;
  }

  lemma FewerKeys(x: set<int>, y: set<int>)
    requires x <= y
    ensures |x| <= |y|
  {
    assert y == x + (y - x);
  }

  // ---------------------------------------------------------------------------------------
  // A run that loses its guard

  /** A far end repeats its acceptance: a tone and a silence each time. */
  function Acceptances(n: nat): seq<Step> {
    if n == 0 then [] else Acceptances(n - 1) + [MfSample('6', QUIET), MfSample(NO_TONE, QUIET)]
  }

  const QUIET: Reply := Reply(true, false)

  /** A call that has been accepted n times, with as many answer timers running and no other. */
  ghost predicate AcceptedTimes(c: Chan, n: nat) {
    && c.callState == Dialing && c.direction == Forward && c.mfState == CategoryTxd && c.mfGroup == GII
    && c.r2State == (if n == 0 then SeizeAckRxd else AcceptRxd) && c.readTone == NO_TONE
    && IdOf(c.timers, BackCycle) == 0 && IdOf(c.timers, FwdSafety) == 0
    && |c.timers.live| == n && c.timers.lastId == 2 + n
    && (forall id :: id in c.timers.live ==> id <= c.timers.lastId && c.timers.live[id] == Answer)
  }

  lemma AcceptedOnceMore(c: Chan, n: nat)
    requires AcceptedTimes(c, n) && n < MAX_SCHED_TIMERS
    ensures AcceptedTimes(Next(LatePasses.ITU, Next(LatePasses.ITU, c, MfSample('6', QUIET)), MfSample(NO_TONE, QUIET)),
        n + 1)
  {
    var itu := LatePasses.ITU;
    var d := Next(itu, c, MfSample('6', QUIET));
    assert d == c.(readTone := '6', writeTone := NO_TONE);
    assert HandleMedia(itu, d, NO_TONE, QUIET) == HandleAcceptTone(itu, d, WithCharge, QUIET).(readTone := NO_TONE);
    OneMoreAnswer(c.timers, n);
  }

  lemma OneMoreAnswer(tt: TimerTable, n: nat)
    requires |tt.live| == n < MAX_SCHED_TIMERS
    requires forall id :: id in tt.live ==> id <= tt.lastId && tt.live[id] == Answer
    ensures var d := AddTimer(tt, Answer);
            && |d.live| == n + 1 && d.lastId == tt.lastId + 1
            && (forall id :: id in d.live ==> id <= d.lastId && d.live[id] == Answer)
            && (forall t :: t != Answer ==> IdOf(d, t) == IdOf(tt, t))
  {
    var d := AddTimer(tt, Answer);
    assert tt.lastId + 1 !in tt.live;
    assert d.live.Keys == tt.live.Keys + {tt.lastId + 1};
    assert |d.live| == |d.live.Keys|;
  }

  lemma {:induction false} AcceptedRepeatedly(c: Chan, n: nat)
    requires AcceptedTimes(c, 0) && n <= MAX_SCHED_TIMERS
    ensures AcceptedTimes(Run(LatePasses.ITU, c, Acceptances(n)), n)
  {
    if n > 0 {
      AcceptedRepeatedly(c, n - 1);
      AcceptedOnceMore(Run(LatePasses.ITU, c, Acceptances(n - 1)), n - 1);
      AcceptancesUnfold(c, n);
    }
  }

  lemma AcceptancesUnfold(c: Chan, n: nat)
    requires n > 0
    ensures var d := Run(LatePasses.ITU, c, Acceptances(n - 1));
            Run(LatePasses.ITU, c, Acceptances(n)) ==
            Next(LatePasses.ITU, Next(LatePasses.ITU, d, MfSample('6', QUIET)), MfSample(NO_TONE, QUIET))
  {
    var itu, d := LatePasses.ITU, Run(LatePasses.ITU, c, Acceptances(n - 1));
    RunConcat(itu, c, Acceptances(n - 1), [MfSample('6', QUIET), MfSample(NO_TONE, QUIET)]);
    TwoSteps(itu, d, MfSample('6', QUIET), MfSample(NO_TONE, QUIET));
  }

  function ToTheCategory(): seq<Step> {
    LatePasses.DROPPED_TWICE[..3] + [CasSample(BITS_SEIZE_ACK), MfSample('3', QUIET), MfSample(NO_TONE, QUIET)]
  }

  /** A call to the category, accepted ten times over, and dropped by its user. */
  function AnswersFillSlots(): seq<Step> {
    ToTheCategory() + Acceptances(MAX_SCHED_TIMERS) + [Hangup(NormalClearing)]
  }

  lemma CategoryReached()
    ensures AcceptedTimes(Run(LatePasses.ITU, NEW_CHAN, ToTheCategory()), 0)
  {
    var itu, first := LatePasses.ITU, LatePasses.DROPPED_TWICE[..3];
    LatePasses.PlacesCall();
    LatePasses.ToCategory(Run(itu, NEW_CHAN, first), QUIET);
    RunConcat(itu, NEW_CHAN, first, [CasSample(BITS_SEIZE_ACK), MfSample('3', QUIET),
        MfSample(NO_TONE, QUIET)]);
  }

  lemma SlotsFill()
    ensures AcceptedTimes(Run(LatePasses.ITU, NEW_CHAN, ToTheCategory() + Acceptances(MAX_SCHED_TIMERS)),
        MAX_SCHED_TIMERS)
  {
    CategoryReached();
    AcceptedRepeatedly(Run(LatePasses.ITU, NEW_CHAN, ToTheCategory()), MAX_SCHED_TIMERS);
    RunConcat(LatePasses.ITU, NEW_CHAN, ToTheCategory(), Acceptances(MAX_SCHED_TIMERS));
  }

  /**
   After that run the channel waits for the far end to go idle with no call-down timer, because its slots are full of
   answer timers, and the expiry of none of these ends the wait.
   */
  lemma FullSlotsLoseGuard()
    ensures var c := Run(LatePasses.ITU, NEW_CHAN, AnswersFillSlots());
            && c.r2State == ClearFwdTxd && !Guarded(c)
            && forall id :: Next(LatePasses.ITU, c, Fire(id)).r2State == ClearFwdTxd
  {
    var steps := ToTheCategory() + Acceptances(MAX_SCHED_TIMERS);
    SlotsFill();
    RunSnoc(LatePasses.ITU, NEW_CHAN, steps, Hangup(NormalClearing));
    UnguardedAfterDrop(Run(LatePasses.ITU, NEW_CHAN, steps));
  }

  lemma UnguardedAfterDrop(c: Chan)
    requires AcceptedTimes(c, MAX_SCHED_TIMERS)
    ensures var d := Next(LatePasses.ITU, c, Hangup(NormalClearing));
            && d.r2State == ClearFwdTxd && !Guarded(d)
            && forall id :: Next(LatePasses.ITU, d, Fire(id)).r2State == ClearFwdTxd
  {
    var d := Next(LatePasses.ITU, c, Hangup(NormalClearing));
    DropsUnguarded(c);
    forall id ensures Next(LatePasses.ITU, d, Fire(id)).r2State == ClearFwdTxd {
      AnswerTimeoutOnly(LatePasses.ITU, d, id);
    }
  }

  lemma DropsUnguarded(c: Chan)
    requires AcceptedTimes(c, MAX_SCHED_TIMERS)
    ensures var d := Next(LatePasses.ITU, c, Hangup(NormalClearing));
            d.r2State == ClearFwdTxd && forall id :: id in d.timers.live ==> d.timers.live[id] == Answer
  {
    HangupClears(Emit(c, UserHangup));
  }

  lemma AnswerTimeoutOnly(cfg: Config, c: Chan, id: int)
    requires c.r2State == ClearFwdTxd && forall j :: j in c.timers.live ==> c.timers.live[j] == Answer
    ensures Next(cfg, c, Fire(id)).r2State == ClearFwdTxd
  {
  }
}
