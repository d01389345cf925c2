/**
 The theorems about whole runs of one channel: any tone table, any far end, any user, any order
 of timer expiries with one timer due per pass of the scheduler.
 */
module RunTheorems {
  import opened Signals
  import opened Protocol
  import opened RunInvariants
  import opened LineSignals

  // ---------------------------------------------------------------------------------------
  // What the flags of a track mean in terms of the events themselves

  predicate Starts(e: Event) { e.CallInit? || e.CallPlaced? }

  predicate Ends(e: Event) { e.CallEnd? || e.ProtocolFault? || e.Reset? }

  /** The latest start of a call with no end after it, if any. */
  function StartOf(h: History): Option<Event> {
    match h
    case Empty => None
    case Snoc(prev, e) => if Starts(e) then Some(e) else if Ends(e) then None else StartOf(prev)
  }

  datatype Kind = Offer | Acceptance | Answering | Release | UserDrop

  predicate IsA(e: Event, k: Kind) {
    match k
    case Offer => e.CallOffered?
    case Acceptance => e.CallAccepted?
    case Answering => e.CallAnswered?
    case Release => e.CallDisconnect?
    case UserDrop => e.UserHangup?
  }

  /** Some event of the call in progress is of the given kind. */
  predicate Happened(h: History, k: Kind) {
    match h
    case Empty => false
    case Snoc(prev, e) => !Starts(e) && !Ends(e) && (IsA(e, k) || Happened(prev, k))
  }

  function Flag(t: Track, k: Kind): bool {
    match k
    case Offer => t.offered
    case Acceptance => t.accepted
    case Answering => t.answered
    case Release => t.released
    case UserDrop => t.hungUp
  }

  lemma {:induction false} FlagMeaning(h: History, k: Kind)
    ensures Flag(TrackOf(h), k) == Happened(h, k)
  {
    if h.Snoc? { FlagMeaning(h.prev, k); }
  }

  lemma {:induction false} PhaseMeaning(h: History)
    ensures TrackOf(h).phase == Incoming <==> StartOf(h) == Some(CallInit)
    ensures TrackOf(h).phase == Outgoing <==> StartOf(h) == Some(CallPlaced)
    ensures TrackOf(h).phase == NoCall <==> StartOf(h).None?
  {
    if h.Snoc? { PhaseMeaning(h.prev); }
  }

  /** h is log or an earlier state of it. */
  predicate Earlier(h: History, log: History) {
    h == log || (log.Snoc? && Earlier(h, log.prev))
  }

  lemma {:induction false} LawfulEarlier(h: History, log: History)
    requires TrackOf(log).lawful && Earlier(h, log)
    ensures TrackOf(h).lawful
  {
    if h != log { LawfulEarlier(h, log.prev); }
  }

  // ---------------------------------------------------------------------------------------
  // Event order

  /**
   An event comes after the right events of its call: an incoming call is offered at most once and never after the
   release was reported, it is accepted only after being offered; an outgoing call is answered at most once, only
   after it was accepted, and never once the user has hung up, be it from inside the accepted callback.
   */
  predicate InTurn(h: History, e: Event) {
    && (e.CallOffered? ==>
          && StartOf(h) == Some(CallInit)
          && !Happened(h, Offer)
          && !Happened(h, Release))
    && (e.CallAccepted? ==>
          && StartOf(h).Some?
          && (StartOf(h) == Some(CallInit) ==> Happened(h, Offer)))
    && (e.CallAnswered? ==>
          && StartOf(h) == Some(CallPlaced)
          && Happened(h, Acceptance)
          && !Happened(h, Answering)
          && !Happened(h, UserDrop))
    && (e.CallDisconnect? || e.CallEnd? ==> StartOf(h).Some?)
    && (Starts(e) ==> StartOf(h).None?)
  }

  ghost predicate InOrder(log: History) { forall h, e :: Earlier(Snoc(h, e), log) ==> InTurn(h, e) }

  lemma InvOrders(c: Chan, h: History, e: Event)
    requires Inv(c) && Earlier(Snoc(h, e), c.log)
    ensures InTurn(h, e)
  {
    LawfulEarlier(Snoc(h, e), c.log);
    PhaseMeaning(h);
    FlagMeaning(h, Offer);
    FlagMeaning(h, Acceptance);
    FlagMeaning(h, Answering);
    FlagMeaning(h, Release);
    FlagMeaning(h, UserDrop);
  }

  /** Whenever an event is delivered in a run, it is in its turn. */
  lemma EventsInOrder(cfg: Config, steps: seq<Step>, h: History, e: Event)
    requires Earlier(Snoc(h, e), Run(cfg, NEW_CHAN, steps).log)
    ensures InTurn(h, e)
  {
    RunKeepsInv(cfg, steps);
    InvOrders(Run(cfg, NEW_CHAN, steps), h, e);
  }

  // ---------------------------------------------------------------------------------------
  // Call conservation

  function CallsStarted(h: History): nat {
    match h
    case Empty => 0
    case Snoc(prev, e) => CallsStarted(prev) + if Starts(e) then 1 else 0
  }

  /** Calls closed by an on_call_end, an on_protocol_error or a reset delivered while the call was in progress. */
  function CallsClosed(h: History): nat {
    match h
    case Empty => 0
    case Snoc(prev, e) => CallsClosed(prev) + if Ends(e) && StartOf(prev).Some? then 1 else 0
  }

  lemma {:induction false} LawfulCallsBalance(h: History)
    requires TrackOf(h).lawful
    ensures CallsStarted(h) == CallsClosed(h) + if StartOf(h).Some? then 1 else 0
  {
    if h.Snoc? {
      LawfulCallsBalance(h.prev);
      PhaseMeaning(h.prev);
    }
  }

  /** Calls are conserved, and the three records of "no call" agree. */
  predicate Conserved(c: Chan) {
    && (c.callState == CallIdle <==> c.direction == Stopped)
    && (c.callState == CallIdle <==> c.r2State == Init || c.r2State == Idle || c.r2State == Blocked)
    && (c.inAlarm ==> c.callState == CallIdle)
    && CallsStarted(c.log) == CallsClosed(c.log) + if c.callState == CallIdle then 0 else 1
  }

  lemma InvConserves(c: Chan)
    requires Inv(c)
    ensures Conserved(c)
  {
    LawfulCallsBalance(c.log);
    PhaseMeaning(c.log);
  }

  lemma CallConservation(cfg: Config, steps: seq<Step>)
    ensures Conserved(Run(cfg, NEW_CHAN, steps))
  {
    RunKeepsInv(cfg, steps);
    InvConserves(Run(cfg, NEW_CHAN, steps));
  }

  // ---------------------------------------------------------------------------------------
  // Timer ids

  /** Cancelling through a field removes the entry that field scheduled, or nothing when the id is stale. */
  lemma CancelRemovesOwnTimer(cfg: Config, steps: seq<Step>, t: Timer, id: int)
    ensures var tt := Run(cfg, NEW_CHAN, steps).timers;
            && (id in tt.live && id !in CancelTimer(tt, t).live <==> Armed(tt, t) && id == IdOf(tt, t))
            && (id in CancelTimer(tt, t).live ==> id in tt.live && CancelTimer(tt, t).live[id] == tt.live[id])
  {
    RunKeepsInv(cfg, steps);
  }

  // ---------------------------------------------------------------------------------------
  // Transmitted signal

  lemma {:induction false} SignalAgreesWithState(cfg: Config, steps: seq<Step>)
    requires cfg.autoSeizeAck && forall i :: 0 <= i < |steps| ==> !steps[i].Ack?
    ensures var c := Run(cfg, NEW_CHAN, steps);
            && (!c.inAlarm && c.r2State != Init ==> Prescribes(c.r2State, c.casTx))
            && TxAgreement(c)
    decreases |steps|
  {
    if steps != [] {
      var before := steps[..|steps| - 1];
      SignalAgreesWithState(cfg, before);
      RunKeepsInv(cfg, before);
      StepAgrees(cfg, Run(cfg, NEW_CHAN, before), steps[|steps| - 1]);
    }
  }

  /** Whether the incoming call a run ends in has been acknowledged, by the context or by hand. */
  predicate Acked(cfg: Config, steps: seq<Step>)
    decreases |steps|
  {
    steps != [] &&
    var before := steps[..|steps| - 1];
    AckedAfter(cfg, Run(cfg, NEW_CHAN, before), steps[|steps| - 1], Acked(cfg, before))
  }

  /**
   The same with or without automatic acknowledgement, over every run that acknowledges nothing but an incoming call: it
   shows the idle line before that and the seize ack after it.
   */
  lemma {:induction false} SignalAgreesByHand(cfg: Config, steps: seq<Step>)
    requires forall i :: 0 <= i < |steps| && steps[i].Ack? ==> At(cfg, steps, i).r2State == SeizeAckTxd
    ensures var c := Run(cfg, NEW_CHAN, steps);
            && AgreesByHand(c, Acked(cfg, steps))
            && (!c.inAlarm && c.r2State != Init && c.r2State != SeizeAckTxd ==>
                  Prescribes(c.r2State, c.casTx) || (c.r2State == ClearFwdRxd && c.casTx == CasIdle))
    decreases |steps|
  {
    if steps != [] {
      var before, last := steps[..|steps| - 1], steps[|steps| - 1];
      forall i | 0 <= i < |before| && before[i].Ack? ensures At(cfg, before, i).r2State == SeizeAckTxd {
        assert before[..i] == steps[..i];
      }
      SignalAgreesByHand(cfg, before);
      RunKeepsInv(cfg, before);
      assert At(cfg, steps, |before|) == Run(cfg, NEW_CHAN, before);
      StepAgreesByHand(cfg, Run(cfg, NEW_CHAN, before), last, Acked(cfg, before));
    }
  }

  /** The steps that make a channel waiting for the seize acknowledgement stop transmitting its seize. */
  predicate GivesUpSeize(c: Chan, s: Step) {
    match s
    case CasSample(bits) =>
      bits != c.casRead && bits != BITS_SEIZE && !(bits == BITS_SEIZE_ACK && c.r2State == SeizeTxd)
    case Fire(id) => id in c.timers.live
    case Hangup(_) => c.r2State == SeizeTxdClearFwdPending
    case ResetIdle => true
    case ResetBlocked => true
    case Ack => true
    case RaiseAlarm => true
    case ClearAlarm(_) => true
    case _ => false
  }

  /**
   A channel that waits for the acknowledgement stops transmitting its seize exactly on these steps. One of them goes
   against section 3.2.3.2 of ITU-T Q.422: a second disconnect request while the first is pending clears at once.
   */
  lemma SeizeGivenUpExactly(cfg: Config, c: Chan, s: Step)
    requires Inv(c) && OnLine(c) && AwaitsAck(c)
    ensures Next(cfg, c, s).casTx == CasSeize <==> !GivesUpSeize(c, s)
    ensures s.Fire? && GivesUpSeize(c, s) ==> c.timers.live[s.id] == Seize
  {
    match s
    case CasSample(bits) => SeizeSampled(cfg, c, bits);
    case Hangup(cause) =>
      if c.r2State == SeizeTxdClearFwdPending { SendClearForwardLine(Emit(c, UserHangup)); }
    case ClearAlarm(bits) => AlarmOffDropsSeize(cfg, c, bits);
    case Fire(_) => SeizeExpires(cfg, c, s);
    case _ => OtherStepsHoldSeize(cfg, c, s);
  }

  lemma SeizeExpires(cfg: Config, c: Chan, s: Step)
    requires Inv(c) && OnLine(c) && AwaitsAck(c) && s.Fire?
    ensures Next(cfg, c, s).casTx == CasSeize <==> !GivesUpSeize(c, s)
    ensures GivesUpSeize(c, s) ==> c.timers.live[s.id] == Seize
  {
  }

  lemma OtherStepsHoldSeize(cfg: Config, c: Chan, s: Step)
    requires Inv(c) && OnLine(c) && AwaitsAck(c) && !s.CasSample? && !s.Hangup? && !s.ClearAlarm? && !s.Fire?
    ensures Next(cfg, c, s).casTx == CasSeize <==> !GivesUpSeize(c, s)
  {
  }

  /** The steps that end the wait: new bits, the seize timer, a reset, an alarm, and a disconnect that is repeated. */
  predicate EndsWait(c: Chan, s: Step) {
    match s
    case CasSample(bits) => bits != c.casRead
    case Fire(id) => id in c.timers.live
    case Hangup(_) => c.r2State == SeizeTxdClearFwdPending
    case ResetIdle => true
    case ResetBlocked => true
    case RaiseAlarm => true
    case ClearAlarm(_) => true
    case _ => false
  }

  lemma GoesOnWaiting(cfg: Config, c: Chan, s: Step)
    requires Inv(c) && AwaitsAck(c) && !EndsWait(c, s)
    ensures AwaitsAck(Next(cfg, c, s))
  {
  }

  /** The channel after the first i steps of a run. */
  function At(cfg: Config, steps: seq<Step>, i: nat): Chan
    requires i <= |steps|
  {
    Run(cfg, NEW_CHAN, steps[..i])
  }

  lemma NextAt(cfg: Config, steps: seq<Step>, i: nat)
    requires i < |steps|
    ensures At(cfg, steps, i + 1) == Next(cfg, At(cfg, steps, i), steps[i])
  {
    assert steps[..i + 1][..i] == steps[..i];
  }

  /**
   Over any run, a call that waits for its acknowledgement keeps the seize on the line up to a step that ends the wait,
   and beyond it exactly if that is the acknowledgement it waits for, or a collision.
   */
  lemma {:induction false} SeizeHeldToTheEnd(cfg: Config, steps: seq<Step>, j: nat) returns (n: nat)
    requires cfg.autoSeizeAck && forall i :: 0 <= i < |steps| ==> !steps[i].Ack?
    requires j <= |steps| && AwaitsAck(At(cfg, steps, j))
    ensures j <= n <= |steps|
    ensures forall i :: j <= i <= n ==> AwaitsAck(At(cfg, steps, i)) && At(cfg, steps, i).casTx == CasSeize
    ensures n < |steps| ==>
              && EndsWait(At(cfg, steps, n), steps[n])
              && (At(cfg, steps, n + 1).casTx == CasSeize <==> !GivesUpSeize(At(cfg, steps, n), steps[n]))
    decreases |steps| - j
  {
    assert At(cfg, steps, j).casTx == CasSeize by { HoldsSeizeAt(cfg, steps, j); }
    if j == |steps| {
      n := j;
    } else if EndsWait(At(cfg, steps, j), steps[j]) {
      EndsWaitAt(cfg, steps, j);
      n := j;
    } else {
      GoesOnAt(cfg, steps, j);
      n := SeizeHeldToTheEnd(cfg, steps, j + 1);
    }
  }

  lemma HoldsSeizeAt(cfg: Config, steps: seq<Step>, j: nat)
    requires cfg.autoSeizeAck && forall i :: 0 <= i < |steps| ==> !steps[i].Ack?
    requires j <= |steps| && AwaitsAck(At(cfg, steps, j))
    ensures At(cfg, steps, j).casTx == CasSeize
  {
    RunKeepsInv(cfg, steps[..j]);
    SignalAgreesWithState(cfg, steps[..j]);
  }

  lemma EndsWaitAt(cfg: Config, steps: seq<Step>, j: nat)
    requires cfg.autoSeizeAck && forall i :: 0 <= i < |steps| ==> !steps[i].Ack?
    requires j < |steps| && AwaitsAck(At(cfg, steps, j))
    ensures At(cfg, steps, j + 1).casTx == CasSeize <==> !GivesUpSeize(At(cfg, steps, j), steps[j])
  {
    RunKeepsInv(cfg, steps[..j]);
    SignalAgreesWithState(cfg, steps[..j]);
    SeizeGivenUpExactly(cfg, At(cfg, steps, j), steps[j]);
    NextAt(cfg, steps, j);
  }

  lemma GoesOnAt(cfg: Config, steps: seq<Step>, j: nat)
    requires j < |steps| && AwaitsAck(At(cfg, steps, j)) && !EndsWait(At(cfg, steps, j), steps[j])
    ensures AwaitsAck(At(cfg, steps, j + 1))
  {
    RunKeepsInv(cfg, steps[..j]);
    GoesOnWaiting(cfg, At(cfg, steps, j), steps[j]);
    NextAt(cfg, steps, j);
  }

  /** A disconnect repeated while the first is pending, a reset or an alarm. */
  predicate Interrupts(c: Chan, s: Step) {
    s.ResetIdle? || s.ResetBlocked? || s.RaiseAlarm? || s.ClearAlarm? ||
        (s.Hangup? && c.r2State == SeizeTxdClearFwdPending)
  }

  /**
   What section 3.2.3.2 of ITU-T Q.422 asks, over any run with at most one disconnect per pending state: the seize is on
   the line until new bits are seen, an acknowledgement or a collision among them, or the seize timer expires.
   */
  lemma SeizeIsHeld(cfg: Config, steps: seq<Step>, j: nat) returns (n: nat)
    requires cfg.autoSeizeAck && forall i :: 0 <= i < |steps| ==> !steps[i].Ack?
    requires j <= |steps| && AwaitsAck(At(cfg, steps, j))
    requires forall i :: j <= i < |steps| ==> !Interrupts(At(cfg, steps, i), steps[i])
    ensures j <= n <= |steps|
    ensures forall i :: j <= i <= n ==> AwaitsAck(At(cfg, steps, i)) && At(cfg, steps, i).casTx == CasSeize
    ensures n < |steps| ==>
              var c := At(cfg, steps, n);
              || (steps[n].CasSample? && steps[n].bits != c.casRead)
              || (steps[n].Fire? && steps[n].id in c.timers.live && c.timers.live[steps[n].id] == Seize)
  {
    n := SeizeHeldToTheEnd(cfg, steps, j);
    if n < |steps| {
      RunKeepsInv(cfg, steps[..n]);
      assert !Interrupts(At(cfg, steps, n), steps[n]);
    }
  }

  lemma SeizeSampled(cfg: Config, c: Chan, bits: Bits)
    requires OnLine(c) && (c.r2State == SeizeTxd || c.r2State == SeizeTxdClearFwdPending)
    ensures HandleCas(cfg, c, bits).casTx == CasSeize <==> !GivesUpSeize(c, CasSample(bits))
  {
    var d := Cancel(c.(casRead := bits), Seize);
    if bits == BITS_SEIZE_ACK {
      if c.r2State == SeizeTxd { SendFirstDigitLine(cfg, d.(r2State := SeizeAckRxd, mfGroup := GI)); }
      else { SendClearForwardLine(d); }
    }
  }

  lemma SendFirstDigitLine(cfg: Config, c: Chan)
    ensures SendDnis(cfg, c, 0).casTx == c.casTx
  {
  }

  lemma AlarmOffDropsSeize(cfg: Config, c: Chan, bits: Bits)
    requires c.r2State != Blocked
    ensures AlarmOff(cfg, c, bits).casTx != CasSeize
  {
  }
}
