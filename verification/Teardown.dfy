/**
 Clearing an answered call. The forward end a and the backward end b sample each other's bits in any
 interleaving; either user, or both, disconnect at any time; the call-down timer may expire.
 */
module Teardown {
  import opened Signals
  import opened Protocol
  import opened RunInvariants
  import opened TwoEnds
  import LineTable
  import RequestTable

  predicate Cleared(a: Chan) { a.r2State == ClearFwdTxd || a.r2State == ClearBackAfterClearFwdRxd }

  /** The bits of the release a disconnect of the backward user puts on the line. */
  function ReleaseBits(cause: Cause): Bits {
    if cause == ForcedRelease then BITS_FORCED_RELEASE else BITS_CLEAR_BACK
  }

  /** A backward end whose disconnect puts a release on the line, or changes the one that is there. */
  predicate Releases(b: Chan) { b.r2State == AnswerTxd || b.r2State == ClearBackTxd || b.r2State == ForcedReleaseTxd }

  /**
   The forward end reads these bits of a release, if they are new to it, as a release: not when it has already taken
   note of one, and not when it is idle and the bits are those of a seize.
   */
  predicate Readable(a: Chan, bits: Bits) {
    match a.r2State
    case ClearBackRxd => bits == a.casRead
    case ForcedReleaseRxd => bits == a.casRead
    case ClearBackAfterClearFwdRxd => bits == a.casRead
    case Idle => bits == BITS_SEIZE ==> a.casRead == BITS_SEIZE
    case _ => true
  }

  /**
   A forced release has the bits of a seize. The call-down timer does not give the channel back before the forward end
   has read a forced release that is on the line, and a disconnect of the backward user puts nothing on the line that
   the forward end cannot read by now.
   */
  predicate InTime(p: Pair, m: Move) {
    match m.action
    case Expire(id) =>
      m.onA && id in p.a.timers.live && p.b.r2State == ForcedReleaseTxd ==> p.a.casRead == BITS_FORCED_RELEASE
    case Drop(cause) => !m.onA && Releases(p.b) ==> Readable(p.a, ReleaseBits(cause))
    case _ => true
  }

  // ---------------------------------------------------------------------------------------
  // The invariant

  ghost predicate CallDownOnly(tt: TimerTable) {
    (forall id :: id in tt.live ==> id <= tt.lastId) && (forall id :: id in tt.live ==> tt.live[id] == SetCallDown)
  }

  /** The forward end, with the counts in its log when the call was answered. */
  ghost predicate ForwardSide(a: Chan, ends: nat, faults: nat) {
    && !a.inAlarm && a.mfState == MfOff
    && (a.r2State == Idle <==> a.callState == CallIdle)
    && (a.r2State == Idle || (a.direction == Forward && (a.callState == Answered || a.callState == Disconnected)))
    && CountFaults(a.log) == faults
    && CountEnds(a.log) == ends + (if a.r2State == Idle then 1 else 0)
    && match a.r2State
       case AnswerRxd => a.casRead == BITS_ANSWER && a.casTx == CasSeize && a.timers.live == map[]
       case ClearBackRxd => a.casRead == BITS_CLEAR_BACK && a.casTx == CasSeize && a.timers.live == map[]
       case ForcedReleaseRxd => a.casRead == BITS_FORCED_RELEASE && a.casTx == CasSeize && a.timers.live == map[]
       case ClearFwdTxd =>
         a.casRead != BITS_IDLE && a.casTx == CasClearForward && CallDownOnly(a.timers) && CallDownArmed(a.timers)
       case ClearBackAfterClearFwdRxd =>
         (a.casRead == BITS_CLEAR_BACK || a.casRead == BITS_FORCED_RELEASE) && a.casTx == CasClearForward &&
         CallDownOnly(a.timers) && CallDownArmed(a.timers)
       case Idle => a.casTx == CasIdle && a.timers.live == map[]
       case _ => false
  }

  /** The backward end, likewise. */
  ghost predicate BackwardSide(b: Chan, ends: nat, faults: nat) {
    && !b.inAlarm && b.mfState == MfOff
    && (b.r2State == Idle <==> b.callState == CallIdle)
    && (b.r2State == Idle || (b.direction == Backward && (b.callState == Answered || b.callState == Disconnected)))
    && CountFaults(b.log) == faults
    && CountEnds(b.log) == ends + (if b.r2State == Idle then 1 else 0)
    && (forall id :: id in b.timers.live ==> b.timers.live[id] == AnswerDelay)
    && match b.r2State
       case AnswerTxd => b.casRead == BITS_SEIZE && b.casTx == CasAnswer
       case ClearBackTxd => b.casRead == BITS_SEIZE && b.casTx == CasClearBack
       case ForcedReleaseTxd => b.casRead == BITS_SEIZE && b.casTx == CasForcedRelease
       case ClearFwdRxd => b.casRead == BITS_CLEAR_FORWARD && b.casTx == CasAnswer
       case Idle => b.casRead == BITS_IDLE && b.casTx == CasIdle
       case _ => false
  }

  /** What the ends know of each other; tones and timers do not matter here. */
  predicate Agreed(a: Chan, b: Chan) {
    && (b.casTx == CasAnswer ==> a.casRead == BITS_ANSWER)
    && (b.casTx == CasClearBack ==> Readable(a, BITS_CLEAR_BACK))
    && (b.casTx == CasForcedRelease ==> Readable(a, BITS_FORCED_RELEASE))
    && (b.casRead == BITS_IDLE ==> a.casTx != CasSeize)
  }

  ghost predicate TeardownInv(p: Pair, ea: nat, fa: nat, eb: nat, fb: nat) {
    ForwardSide(p.a, ea, fa) && BackwardSide(p.b, eb, fb) && Agreed(p.a, p.b)
  }

  // ---------------------------------------------------------------------------------------
  // The forward end acts

  lemma CallDownAdded(tt: TimerTable)
    requires CallDownOnly(tt) && (CallDownArmed(tt) || tt.live == map[])
    ensures CallDownOnly(AddTimer(tt, SetCallDown)) && CallDownArmed(AddTimer(tt, SetCallDown))
  {
    CallDownStarted(tt);
  }

  lemma ForwardEnds(a: Chan, ends: nat, faults: nat)
    requires !a.inAlarm && CountEnds(a.log) == ends && CountFaults(a.log) == faults
    ensures var d := ReportCallEnd(a); ForwardSide(d, ends, faults) && d.r2State == Idle && d.casRead == a.casRead
  {
  }

  lemma ForwardClears(a: Chan, ends: nat, faults: nat)
    requires ForwardSide(a, ends, faults) && a.r2State != Idle
    ensures var d := SendClearForward(Emit(a, UserHangup));
            ForwardSide(d, ends, faults) && d.r2State == ClearFwdTxd && d.casRead == a.casRead
  {
    CallDownAdded(a.timers);
  }

  lemma ForwardDrops(cfg: Config, a: Chan, b: Chan, ends: nat, faults: nat, cause: Cause)
    requires ForwardSide(a, ends, faults) && Agreed(a, b)
    ensures var d := DisconnectCall(cfg, a, cause); ForwardSide(d, ends, faults) && Agreed(d, b)
  {
    if a.r2State != Idle {
      ForwardClears(a, ends, faults);
    }
  }

  lemma ForwardSamples(cfg: Config, a: Chan, b: Chan, ea: nat, fa: nat, eb: nat, fb: nat)
    requires ForwardSide(a, ea, fa) && BackwardSide(b, eb, fb) && Agreed(a, b) && !Metering(cfg)
    ensures var d := HandleCas(cfg, a, BitsOf(b.casTx)); ForwardSide(d, ea, fa) && Agreed(d, b)
  {
    var bits := BitsOf(b.casTx);
    if bits != a.casRead && Cleared(a) && bits == BITS_IDLE { ForwardEnds(a.(casRead := bits), ea, fa); }
  }

  lemma ForwardExpires(cfg: Config, a: Chan, b: Chan, ends: nat, faults: nat, id: int)
    requires ForwardSide(a, ends, faults) && Agreed(a, b) && InTime(Pair(a, b), Move(true, Expire(id)))
    requires b.r2State == ForcedReleaseTxd <==> b.casTx == CasForcedRelease
    ensures var d := TimerFires(cfg, a, id); ForwardSide(d, ends, faults) && Agreed(d, b)
  {
    if id in a.timers.live {
      ForwardEnds(a.(timers := a.timers.(live := a.timers.live - {id})), ends, faults);
    }
  }

  // ---------------------------------------------------------------------------------------
  // The backward end acts

  lemma BackwardEnds(b: Chan, ends: nat, faults: nat)
    requires !b.inAlarm && b.casRead == BITS_IDLE && CountEnds(b.log) == ends && CountFaults(b.log) == faults
    ensures var d := ReportCallEnd(b); BackwardSide(d, ends, faults) && d.r2State == Idle
  {
  }

  lemma BackwardReleases(b: Chan, ends: nat, faults: nat)
    requires BackwardSide(b, ends, faults) && b.r2State != Idle && b.r2State != ClearFwdRxd
    ensures var d := SendClearBackward(Emit(b, UserHangup)); BackwardSide(d, ends, faults) && d.r2State == ClearBackTxd
    ensures var d := SendForcedRelease(Emit(b, UserHangup));
            BackwardSide(d, ends, faults) && d.r2State == ForcedReleaseTxd
  {
  }

  lemma BackwardDrops(cfg: Config, a: Chan, b: Chan, ea: nat, fa: nat, eb: nat, fb: nat, cause: Cause)
    requires ForwardSide(a, ea, fa) && BackwardSide(b, eb, fb) && Agreed(a, b)
    requires InTime(Pair(a, b), Move(false, Drop(cause)))
    ensures var d := DisconnectCall(cfg, b, cause); BackwardSide(d, eb, fb) && Agreed(a, d)
  {
    if b.r2State == ClearFwdRxd { BackwardEnds(Emit(b, UserHangup), eb, fb); }
    else if b.r2State != Idle { BackwardReleases(b, eb, fb); }
  }

  lemma BackwardSamples(cfg: Config, a: Chan, b: Chan, ea: nat, fa: nat, eb: nat, fb: nat)
    requires ForwardSide(a, ea, fa) && BackwardSide(b, eb, fb) && Agreed(a, b)
    ensures var d := HandleCas(cfg, b, BitsOf(a.casTx)); BackwardSide(d, eb, fb) && Agreed(a, d)
  {
    var bits := BitsOf(a.casTx);
    if bits != b.casRead && b.r2State != AnswerTxd { BackwardEnds(b.(casRead := bits), eb, fb); }
  }

  /** The answer delay may still be running when the callee answers at once; it only repeats the acceptance. */
  lemma BackwardExpires(cfg: Config, a: Chan, b: Chan, ends: nat, faults: nat, id: int)
    requires BackwardSide(b, ends, faults) && Agreed(a, b)
    ensures var d := TimerFires(cfg, b, id); BackwardSide(d, ends, faults) && Agreed(a, d)
  {
  }

  // ---------------------------------------------------------------------------------------
  // Runs

  lemma MoveKeeps(k: Configs, p: Pair, m: Move, ea: nat, fa: nat, eb: nat, fb: nat)
    requires TeardownInv(p, ea, fa, eb, fb) && InTime(p, m) && !Metering(k.a)
    ensures TeardownInv(Next2(k, p, m), ea, fa, eb, fb)
  {
    match m.action {
      case Sample =>
        if m.onA { ForwardSamples(k.a, p.a, p.b, ea, fa, eb, fb); }
        else { BackwardSamples(k.b, p.a, p.b, ea, fa, eb, fb); }
      case Expire(id) =>
        if m.onA { ForwardExpires(k.a, p.a, p.b, ea, fa, id); } else { BackwardExpires(k.b, p.a, p.b, eb, fb, id); }
      case Drop(cause) =>
        if m.onA { ForwardDrops(k.a, p.a, p.b, ea, fa, cause); }
        else { BackwardDrops(k.b, p.a, p.b, ea, fa, eb, fb, cause); }
      case _ =>
    }
  }

  /** A call answered at both ends, seen from both ends, with nothing left over from its setup. */
  ghost predicate InConversation(p: Pair) {
    && !p.a.inAlarm && p.a.mfState == MfOff && p.a.direction == Forward && p.a.callState == Answered
    && p.a.r2State == AnswerRxd && p.a.casRead == BITS_ANSWER && p.a.casTx == CasSeize && p.a.timers.live == map[]
    && !p.b.inAlarm && p.b.mfState == MfOff && p.b.direction == Backward && p.b.callState == Answered
    && p.b.r2State == AnswerTxd && p.b.casRead == BITS_SEIZE && p.b.casTx == CasAnswer
    && (forall id :: id in p.b.timers.live ==> p.b.timers.live[id] == AnswerDelay)
  }

  lemma {:induction false} TeardownRun(k: Configs, p: Pair, moves: seq<Move>, ea: nat, fa: nat, eb: nat, fb: nat)
    requires TeardownInv(p, ea, fa, eb, fb) && Admitted(k, p, moves, InTime) && !Metering(k.a)
    ensures TeardownInv(Run2(k, p, moves), ea, fa, eb, fb)
    decreases |moves|
  {
    if moves != [] {
      MoveKeeps(k, p, moves[0], ea, fa, eb, fb);
      TeardownRun(k, Next2(k, p, moves[0]), moves[1..], ea, fa, eb, fb);
    }
  }

  /** Clearing causes no protocol error and ends each side with exactly one end of call, when it is idle again. */
  lemma TeardownIsSafe(k: Configs, p: Pair, moves: seq<Move>)
    requires InConversation(p) && Admitted(k, p, moves, InTime) && !Metering(k.a)
    ensures var q := Run2(k, p, moves);
            && CountFaults(q.a.log) == CountFaults(p.a.log) && CountFaults(q.b.log) == CountFaults(p.b.log)
            && CountEnds(q.a.log) == CountEnds(p.a.log) + (if q.a.r2State == Idle then 1 else 0)
            && CountEnds(q.b.log) == CountEnds(p.b.log) + (if q.b.r2State == Idle then 1 else 0)
            && (q.a.r2State == Idle <==> q.a.callState == CallIdle)
            && (q.b.r2State == Idle <==> q.b.callState == CallIdle)
  {
    TeardownRun(k, p, moves, CountEnds(p.a.log), CountFaults(p.a.log), CountEnds(p.b.log), CountFaults(p.b.log));
  }

  // ---------------------------------------------------------------------------------------
  // What the other user is told

  /** The user of b drops the call and a samples: its user is told of a forced release if and only if it was one. */
  lemma CauseReachesCaller(k: Configs, p: Pair, cause: Cause)
    requires InConversation(p) && !Metering(k.a)
    ensures var q := Run2(k, p, [Move(false, Drop(cause)), Move(true, Sample)]);
            q.a.log == Snoc(p.a.log, CallDisconnect(if cause == ForcedRelease then ForcedRelease else NormalClearing))
  {
    TwoMoves(k, p, Move(false, Drop(cause)), Move(true, Sample));
    ReleaseOnLine(k, p, cause);
    LineTable.ReleaseIsTold(k.a, p.a, if cause == ForcedRelease then 0x0 else 0xC);
  }

  lemma ReleaseOnLine(k: Configs, p: Pair, cause: Cause)
    requires InConversation(p)
    ensures var q := Next2(k, p, Move(false, Drop(cause)));
            q.a == p.a && BitsOf(q.b.casTx) == if cause == ForcedRelease then 0x0 else 0xC
  {
    RequestTable.HangupFollowsTable(k.b, p.b, cause);
  }

  /** With metering the same is told when the pulse timer expires, and nothing before. */
  lemma CauseReachesMetered(k: Configs, p: Pair, cause: Cause)
    requires InConversation(p) && Metering(k.a)
    ensures var q := Run2(k, p, [Move(false, Drop(cause)), Move(true, Sample)]); q.a.log == p.a.log
    ensures var q := Run2(k, p, [Move(false, Drop(cause)), Move(true, Sample),
        Move(true, Expire(p.a.timers.lastId + 1))]);
            q.a.log == Snoc(p.a.log, CallDisconnect(if cause == ForcedRelease then ForcedRelease else NormalClearing))
  {
    var bits := if cause == ForcedRelease then 0x0 else 0xC;
    var m1, m2, m3 := Move(false, Drop(cause)), Move(true, Sample), Move(true, Expire(p.a.timers.lastId + 1));
    TwoMoves(k, p, m1, m2);
    ThreeMoves(k, p, m1, m2, m3);
    ReleaseOnLine(k, p, cause);
    LineTable.PulseBegins(k.a, p.a, bits);
    LineTable.PulseExpires(k.a, HandleCas(k.a, p.a, bits), p.a.timers.lastId + 1);
  }

  /** The user of a drops the call and b samples: its user is told of a normal clearing. */
  lemma ClearingReachesCallee(k: Configs, p: Pair, cause: Cause)
    requires InConversation(p)
    ensures var q := Run2(k, p, [Move(true, Drop(cause)), Move(false, Sample)]);
            q.b.log == Snoc(p.b.log, CallDisconnect(NormalClearing))
  {
    TwoMoves(k, p, Move(true, Drop(cause)), Move(false, Sample));
    ClearForwardOnLine(k, p, cause);
    LineTable.LineFollowsTable(k.b, p.b, 0x8);
  }

  lemma ClearForwardOnLine(k: Configs, p: Pair, cause: Cause)
    requires InConversation(p)
    ensures var q := Next2(k, p, Move(true, Drop(cause))); q.b == p.b && BitsOf(q.a.casTx) == 0x8
  {
    RequestTable.HangupFollowsTable(k.a, p.a, cause);
  }

  // ---------------------------------------------------------------------------------------
  // Convergence

  function RankA(a: Chan): nat {
    match a.r2State
    case AnswerRxd => 4
    case ClearBackRxd => 3
    case ForcedReleaseRxd => 3
    case ClearFwdTxd => if a.casRead == BITS_ANSWER then 2 else 1
    case ClearBackAfterClearFwdRxd => 1
    case _ => 0
  }

  function RankB(b: Chan): nat {
    match b.r2State
    case AnswerTxd => 3
    case ClearBackTxd => 2
    case ForcedReleaseTxd => 2
    case ClearFwdRxd => 1
    case _ => 0
  }

  function Distance(p: Pair): nat { RankA(p.a) + RankB(p.b) }

  /** A sample or an expiry that changes the state of an end or the signal it transmits. */
  predicate Effective(k: Configs, p: Pair, m: Move) {
    var q := Next2(k, p, m);
    && (m.action.Sample? || m.action.Expire?)
    && (q.a.r2State != p.a.r2State || q.a.casTx != p.a.casTx || q.b.r2State != p.b.r2State || q.b.casTx != p.b.casTx)
  }

  /** The forward end, having read one release, cleared and cleared once more, reads the other one. */
  predicate Rereads(p: Pair, m: Move) {
    m.onA && m.action.Sample? && p.a.r2State == ClearFwdTxd && p.a.casRead != BITS_ANSWER &&
        BitsOf(p.b.casTx) != BITS_IDLE
  }

  lemma ForwardRank(k: Configs, p: Pair, m: Move, ea: nat, fa: nat, eb: nat, fb: nat)
    requires TeardownInv(p, ea, fa, eb, fb) && InTime(p, m) && !Metering(k.a) && m.onA
    ensures RankA(Next2(k, p, m).a) <= RankA(p.a)
    ensures m.action.Drop? && !Cleared(p.a) && p.a.r2State != Idle ==> RankA(Next2(k, p, m).a) < RankA(p.a)
    ensures m.action.Expire? && m.action.id in p.a.timers.live ==> RankA(Next2(k, p, m).a) < RankA(p.a)
    ensures m.action.Sample? && BitsOf(p.b.casTx) != p.a.casRead && p.a.r2State != Idle && !Rereads(p, m) ==>
              RankA(Next2(k, p, m).a) < RankA(p.a)
  {
    if m.action.Drop? && p.a.r2State != Idle { ForwardClears(p.a, ea, fa); }
  }

  lemma BackwardRank(k: Configs, p: Pair, m: Move, ea: nat, fa: nat, eb: nat, fb: nat)
    requires TeardownInv(p, ea, fa, eb, fb) && InTime(p, m) && !m.onA
    ensures RankB(Next2(k, p, m).b) <= RankB(p.b)
    ensures m.action.Sample? && p.a.casTx != CasSeize && p.b.r2State != Idle && p.b.r2State != ClearFwdRxd ==>
              RankB(Next2(k, p, m).b) < RankB(p.b)
    ensures m.action.Drop? && p.b.r2State == ClearFwdRxd ==> RankB(Next2(k, p, m).b) < RankB(p.b)
  {
    if m.action.Drop? && p.b.r2State != Idle && p.b.r2State != ClearFwdRxd { BackwardReleases(p.b, eb, fb); }
  }

  /** No move leads away from idle. */
  lemma DistanceNeverGrows(k: Configs, p: Pair, m: Move, ea: nat, fa: nat, eb: nat, fb: nat)
    requires TeardownInv(p, ea, fa, eb, fb) && InTime(p, m) && !Metering(k.a)
    ensures Distance(Next2(k, p, m)) <= Distance(p)
  {
    if m.onA { ForwardRank(k, p, m, ea, fa, eb, fb); } else { BackwardRank(k, p, m, ea, fa, eb, fb); }
  }

  /** A sample or an expiry that has an effect brings the pair strictly closer to idle, unless it is a rereading. */
  lemma EffectiveDescends(k: Configs, p: Pair, m: Move, ea: nat, fa: nat, eb: nat, fb: nat)
    requires TeardownInv(p, ea, fa, eb, fb) && InTime(p, m) && !Metering(k.a) && Effective(k, p, m) && !Rereads(p, m)
    ensures Distance(Next2(k, p, m)) < Distance(p)
  {
    if m.onA {
      ForwardRank(k, p, m, ea, fa, eb, fb);
      if m.action.Sample? && p.a.r2State == Idle { IdleTakesNoCall(k.a, p.a, p.b, ea, fa, eb, fb); }
    } else {
      BackwardRank(k, p, m, ea, fa, eb, fb);
      BackwardEffects(k.b, p.a, p.b, m.action, ea, fa, eb, fb);
    }
  }

  lemma IdleTakesNoCall(cfg: Config, a: Chan, b: Chan, ea: nat, fa: nat, eb: nat, fb: nat)
    requires ForwardSide(a, ea, fa) && BackwardSide(b, eb, fb) && Agreed(a, b) && a.r2State == Idle
    ensures var d := HandleCas(cfg, a, BitsOf(b.casTx)); d.r2State == Idle && d.casTx == a.casTx
  {
  }

  lemma BackwardEffects(cfg: Config, a: Chan, b: Chan, action: Action, ea: nat, fa: nat, eb: nat, fb: nat)
    requires ForwardSide(a, ea, fa) && BackwardSide(b, eb, fb) && Agreed(a, b) && (action.Sample? || action.Expire?)
    requires var d := Act(cfg, b, a, action); d.r2State != b.r2State || d.casTx != b.casTx
    ensures action.Sample? && a.casTx != CasSeize && b.r2State != Idle && b.r2State != ClearFwdRxd
  {
  }

  /** The number of samples and expiries of a run that have an effect, rereadings apart. */
  function Effects(k: Configs, p: Pair, moves: seq<Move>): nat
    decreases |moves|
  {
    if moves == [] then 0
    else
      (if Effective(k, p, moves[0]) && !Rereads(p, moves[0]) then 1 else 0) +
      Effects(k, Next2(k, p, moves[0]), moves[1..])
  }

  lemma {:induction false} EffectsBounded(k: Configs, p: Pair, moves: seq<Move>, ea: nat, fa: nat, eb: nat, fb: nat)
    requires TeardownInv(p, ea, fa, eb, fb) && Admitted(k, p, moves, InTime) && !Metering(k.a)
    ensures Effects(k, p, moves) + Distance(Run2(k, p, moves)) <= Distance(p)
    decreases |moves|
  {
    if moves != [] {
      var m := moves[0];
      MoveKeeps(k, p, m, ea, fa, eb, fb);
      DistanceNeverGrows(k, p, m, ea, fa, eb, fb);
      if Effective(k, p, m) && !Rereads(p, m) { EffectiveDescends(k, p, m, ea, fa, eb, fb); }
      EffectsBounded(k, Next2(k, p, m), moves[1..], ea, fa, eb, fb);
    }
  }

  /** From the conversation on, at most seven samples and expiries of any run have such an effect. */
  lemma TeardownTakesSevenEffects(k: Configs, p: Pair, moves: seq<Move>)
    requires InConversation(p) && Admitted(k, p, moves, InTime) && !Metering(k.a)
    ensures Effects(k, p, moves) <= 7
  {
    EffectsBounded(k, p, moves, CountEnds(p.a.log), CountFaults(p.a.log), CountEnds(p.b.log), CountFaults(p.b.log));
  }

  /**
   Until both ends are idle there is an admitted move that brings the pair closer; once both users have
   disconnected it is a sample or an expiry, so nothing more is asked of them.
   */
  lemma TeardownConverges(k: Configs, p: Pair, ea: nat, fa: nat, eb: nat, fb: nat) returns (m: Move)
    requires TeardownInv(p, ea, fa, eb, fb) && !Metering(k.a) && Distance(p) > 0
    ensures InTime(p, m) && Distance(Next2(k, p, m)) < Distance(p)
    ensures (Cleared(p.a) || p.a.r2State == Idle) && p.b.r2State != ClearFwdRxd ==> m.action.Sample? || m.action.Expire?
  {
    if p.a.r2State == Idle {
      m := Move(false, if p.b.r2State == ClearFwdRxd then Drop(NormalClearing) else Sample);
      BackwardRank(k, p, m, ea, fa, eb, fb);
    } else {
      if !Cleared(p.a) {
        m := Move(true, Drop(NormalClearing));
      } else if Rereads(p, Move(true, Sample)) {
        m := Move(false, Sample);
        BackwardRank(k, p, m, ea, fa, eb, fb);
        return;
      } else if BitsOf(p.b.casTx) != p.a.casRead {
        m := Move(true, Sample);
      } else {
        var id :| id in p.a.timers.live && p.a.timers.live[id] == SetCallDown;
        m := Move(true, Expire(id));
      }
      ForwardRank(k, p, m, ea, fa, eb, fb);
    }
  }

  // ---------------------------------------------------------------------------------------
  // The condition is exact

  /** A fault at either end, or a call at the forward end that nobody placed. */
  predicate Spoiled(p: Pair, fa: nat, fb: nat) {
    CountFaults(p.a.log) > fa || CountFaults(p.b.log) > fb || p.a.callState == Collecting
  }

  /**
   A move is in time exactly when it keeps the invariant; any other is followed, with the next sample of the forward
   end, by a fault there or by a call nobody placed.
   */
  lemma InTimeExactly(k: Configs, p: Pair, m: Move, ea: nat, fa: nat, eb: nat, fb: nat)
    requires TeardownInv(p, ea, fa, eb, fb) && !Metering(k.a)
    ensures InTime(p, m) <==> TeardownInv(Next2(k, p, m), ea, fa, eb, fb)
    ensures InTime(p, m) <==> !Spoiled(Next2(k, Next2(k, p, m), Move(true, Sample)), fa, fb)
  {
    var q := Next2(k, p, m);
    if InTime(p, m) {
      MoveKeeps(k, p, m, ea, fa, eb, fb);
      MoveKeeps(k, q, Move(true, Sample), ea, fa, eb, fb);
    } else if m.action.Drop? {
      DropOutOfTime(k, p, m.action.cause, ea, fa, eb, fb);
    } else {
      ExpiryOutOfTime(k, p, m.action.id, ea, fa, eb, fb);
    }
  }

  lemma DropOutOfTime(k: Configs, p: Pair, cause: Cause, ea: nat, fa: nat, eb: nat, fb: nat)
    requires TeardownInv(p, ea, fa, eb, fb) && !Metering(k.a) && !InTime(p, Move(false, Drop(cause)))
    ensures var q := Next2(k, p, Move(false, Drop(cause)));
            !Agreed(q.a, q.b) && Spoiled(Next2(k, q, Move(true, Sample)), fa, fb)
  {
    var q := Next2(k, p, Move(false, Drop(cause)));
    BackwardReleases(p.b, eb, fb);
    assert q.a == p.a && q.b.casTx == if cause == ForcedRelease then CasForcedRelease else CasClearBack;
    Misread(k.a, q.a, q.b, ea, fa);
  }

  lemma ExpiryOutOfTime(k: Configs, p: Pair, id: int, ea: nat, fa: nat, eb: nat, fb: nat)
    requires TeardownInv(p, ea, fa, eb, fb) && !Metering(k.a) && !InTime(p, Move(true, Expire(id)))
    ensures var q := Next2(k, p, Move(true, Expire(id)));
            !Agreed(q.a, q.b) && Spoiled(Next2(k, q, Move(true, Sample)), fa, fb)
  {
    var q := Next2(k, p, Move(true, Expire(id)));
    ForwardEnds(p.a.(timers := p.a.timers.(live := p.a.timers.live - {id})), ea, fa);
    Misread(k.a, q.a, q.b, ea, fa);
  }

  lemma Misread(cfg: Config, a: Chan, b: Chan, ends: nat, faults: nat)
    requires ForwardSide(a, ends, faults) && !Metering(cfg) && !Readable(a, BitsOf(b.casTx))
    requires b.casTx == CasClearBack || b.casTx == CasForcedRelease
    ensures var d := HandleCas(cfg, a, BitsOf(b.casTx)); CountFaults(d.log) > faults || d.callState == Collecting
  {
  }

  /** The call nobody placed is a fault at the other end as soon as that samples the acknowledgement. */
  lemma UnplacedCallIsFault(k: Configs, p: Pair, ea: nat, fa: nat, eb: nat, fb: nat)
    requires ForwardSide(p.a, ea, fa) && BackwardSide(p.b, eb, fb) && k.a.autoSeizeAck
    requires p.a.r2State == Idle && p.b.r2State == ForcedReleaseTxd && p.a.casRead != BITS_FORCED_RELEASE
    ensures var q := Next2(k, p, Move(true, Sample)); q.a.callState == Collecting && q.b == p.b
    ensures CountFaults(Next2(k, Next2(k, p, Move(true, Sample)), Move(false, Sample)).b.log) == fb + 1
  {
    var q := Next2(k, p, Move(true, Sample));
    assert q.a.casTx == CasSeizeAck && q.b == p.b;
  }

  /** Such moves are possible: the call-down timer expires before the callee's user forces the release. */
  lemma ForcedReleaseAfterCallDown(k: Configs, p: Pair)
    requires InConversation(p)
    ensures var moves := [Move(true, Drop(NormalClearing)), Move(true, Expire(p.a.timers.lastId + 1)),
                          Move(false, Drop(ForcedRelease))] + [Move(true, Sample)];
            Run2(k, p, moves).a.callState == Collecting
  {
    var m1, m2, m3 := Move(true, Drop(NormalClearing)), Move(true, Expire(p.a.timers.lastId + 1)),
                      Move(false, Drop(ForcedRelease));
    var p2 := Next2(k, Next2(k, p, m1), m2);
    CallDownBringsIdle(k, p);
    ForcedReleaseSeizes(k, p2);
    ThreeMoves(k, p, m1, m2, m3);
    Run2Concat(k, p, [m1, m2, m3], [Move(true, Sample)]);
    assert [Move(true, Sample)] == [Move(true, Sample)] + [];
    OneMove(k, Next2(k, p2, m3), Move(true, Sample), []);
  }

  lemma CallDownBringsIdle(k: Configs, p: Pair)
    requires InConversation(p)
    ensures var p2 := Next2(k, Next2(k, p, Move(true, Drop(NormalClearing))),
        Move(true, Expire(p.a.timers.lastId + 1)));
            && p2.b == p.b && p2.a.r2State == Idle && p2.a.casRead == BITS_ANSWER && !p2.a.inAlarm
  {
    CallDownAdded(p.a.timers);
  }

  lemma ForcedReleaseSeizes(k: Configs, p: Pair)
    requires p.a.r2State == Idle && p.a.casRead == BITS_ANSWER && !p.a.inAlarm
    requires p.b.direction == Backward && p.b.callState == Answered && p.b.r2State == AnswerTxd
    ensures Next2(k, Next2(k, p, Move(false, Drop(ForcedRelease))), Move(true, Sample)).a.callState == Collecting
  {
    var q := Next2(k, p, Move(false, Drop(ForcedRelease)));
    assert q.a == p.a && q.b.casTx == CasForcedRelease;
  }

  /** And so is a change of release once the forward end has read the first: a fault at an end that is not idle. */
  lemma ChangeOfReleaseFails(k: Configs, p: Pair)
    requires InConversation(p) && !Metering(k.a)
    ensures var q := Run2(k, p, [Move(false, Drop(NormalClearing)), Move(true, Sample),
        Move(false, Drop(ForcedRelease))] +
                                [Move(true, Sample)]);
            CountFaults(q.a.log) == CountFaults(p.a.log) + 1
  {
    var m1, m2, m3 := Move(false, Drop(NormalClearing)), Move(true, Sample), Move(false, Drop(ForcedRelease));
    ReleaseRead(k, p);
    var p2 := Next2(k, Next2(k, p, m1), m2);
    OtherReleaseRead(k, p2);
    ThreeMoves(k, p, m1, m2, m3);
    Run2Concat(k, p, [m1, m2, m3], [m2]);
    assert [m2] == [m2] + [];
    OneMove(k, Next2(k, p2, m3), m2, []);
  }

  lemma ReleaseRead(k: Configs, p: Pair)
    requires InConversation(p) && !Metering(k.a)
    ensures var q := Next2(k, Next2(k, p, Move(false, Drop(NormalClearing))), Move(true, Sample));
            && q.a.r2State == ClearBackRxd && q.a.casRead == BITS_CLEAR_BACK && !q.a.inAlarm
            && q.b.r2State == ClearBackTxd && q.b.direction == Backward && q.b.callState == Answered
            && CountFaults(q.a.log) == CountFaults(p.a.log)
  {
    var q := Next2(k, p, Move(false, Drop(NormalClearing)));
    assert q.a == p.a && q.b.casTx == CasClearBack;
  }

  lemma OtherReleaseRead(k: Configs, p: Pair)
    requires p.a.r2State == ClearBackRxd && p.a.casRead == BITS_CLEAR_BACK && !p.a.inAlarm && !Metering(k.a)
    requires p.b.r2State == ClearBackTxd && p.b.direction == Backward && p.b.callState == Answered
    ensures var q := Next2(k, Next2(k, p, Move(false, Drop(ForcedRelease))), Move(true, Sample));
            CountFaults(q.a.log) == CountFaults(p.a.log) + 1
  {
    var q := Next2(k, p, Move(false, Drop(ForcedRelease)));
    assert q.a == p.a && q.b.casTx == CasForcedRelease;
  }
}
