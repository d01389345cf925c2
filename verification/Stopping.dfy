/**
 A callee whose user stops the digits early: the DNIS callback answers that it wants no more. This comes to a lower
 limit of digits, so a setup has with it the properties it has with that limit; which limit, and what is offered then.
 */
module Stopping {
  import opened Signals
  import opened Protocol
  import opened TwoEnds
  import opened Setup
  import opened SetupTheorems

  /**
   The settings a callee comes to that is told to stop at the n-th digit. With the ANI first the answer to the first
   digit is not heeded: after the ANI another digit is asked for, unless the limit is one digit.
   */
  function Stopped(cfg: Config, n: nat): Config {
    var limit := Uint32(cfg.maxDnis);
    cfg.(maxDnis := if !cfg.getAniFirst then Min(limit, n) else if limit <= 1 then limit else Max(2, Min(limit, n)))
  }

  function StoppedAt(k: Configs, n: nat): Configs { k.(b := Stopped(k.b, n)) }

  /**
   The callback wants more digits up to the n-th; it is asked about the digit that has just come, and may not be
   heeded.
   */
  predicate StopsAt(cfg: Config, n: nat, b: Chan, reply: Reply) {
    (cfg.getAniFirst && |b.num.dnis| == 0) || (reply.moreDnis <==> |b.num.dnis| + 1 < n)
  }

  predicate InStepStopping(k: Configs, n: nat, p: Pair, m: Move) {
    if !m.onA && m.action.Listen? then StopsAt(k.b, n, p.b, m.action.reply) else InStep(k, p, m)
  }

  function InStepStoppingAt(k: Configs, n: nat): (Pair, Move) -> bool {
    (p: Pair, m: Move) => InStepStopping(k, n, p, m)
  }

  /** The same moves with a callback that always wants more. */
  function Obliging(m: Move): Move {
    if !m.onA && m.action.Listen? then Move(false, Listen(m.action.reply.(moreDnis := true))) else m
  }

  function AllObliging(moves: seq<Move>): seq<Move> { seq(|moves|, i requires 0 <= i < |moves| => Obliging(moves[i])) }

  // ---------------------------------------------------------------------------------------
  // One move

  lemma SendsAlike(cfg: Config, n: nat, c: Chan, offset: int)
    ensures SendDnis(Stopped(cfg, n), c, offset) == SendDnis(cfg, c, offset)
    ensures SendAni(Stopped(cfg, n), c) == SendAni(cfg, c)
  {
  }

  lemma CasAlike(cfg: Config, n: nat, c: Chan, bits: Bits)
    ensures HandleCas(Stopped(cfg, n), c, bits) == HandleCas(cfg, c, bits)
  {
    var d := c.(casRead := bits);
    SeizeAnswersAlike(cfg, n, d, bits);
    ReleasesAlike(cfg, n, d, bits);
    assert HandleIncomingCall(Stopped(cfg, n), d) == HandleIncomingCall(cfg, d);
  }

  lemma SeizeAnswersAlike(cfg: Config, n: nat, c: Chan, bits: Bits)
    ensures SeizeAnswered(Stopped(cfg, n), c, bits) == SeizeAnswered(cfg, c, bits)
  {
    SendsAlike(cfg, n, Cancel(c, Seize).(r2State := SeizeAckRxd, mfGroup := GI), 0);
    assert SeizeAcknowledged(Stopped(cfg, n), c) == SeizeAcknowledged(cfg, c);
  }

  lemma ReleasesAlike(cfg: Config, n: nat, c: Chan, bits: Bits)
    ensures ReleaseOrError(Stopped(cfg, n), c, bits) == ReleaseOrError(cfg, c, bits)
    ensures MeteringOrError(Stopped(cfg, n), c, bits) == MeteringOrError(cfg, c, bits)
  {
  }

  lemma AsksAlike(cfg: Config, n: nat, c: Chan)
    ensures var d := Stopped(cfg, n);
            && TryChangeToG2(d, c) == TryChangeToG2(cfg, c) && TryRequestCategory(d, c) == TryRequestCategory(cfg, c)
            && RequestNextDnis(d, c) == RequestNextDnis(cfg, c) && RequestNextAni(d, c) == RequestNextAni(cfg, c)
            && RequestChangeToG2(d, c) == RequestChangeToG2(cfg, c) && OfferCall(d, c) == OfferCall(cfg, c)
  {
  }

  lemma ExpiryAlike(cfg: Config, n: nat, c: Chan, id: int)
    ensures TimerFires(Stopped(cfg, n), c, id) == TimerFires(cfg, c, id)
  {
    if id in c.timers.live && c.timers.live[id] == BackCycle {
      AsksAlike(cfg, n, Schedule(c.(timers := c.timers.(live := c.timers.live - {id})), BackResumeCycle));
    }
  }

  lemma RequestsAlike(cfg: Config, n: nat, c: Chan, cause: Cause, mode: CallMode)
    ensures DisconnectCall(Stopped(cfg, n), c, cause) == DisconnectCall(cfg, c, cause)
    ensures AcceptCall(Stopped(cfg, n), c, mode) == AcceptCall(cfg, c, mode)
  {
    assert RejectTone(Stopped(cfg, n), cause) == RejectTone(cfg, cause);
    assert BackwardHangup(Stopped(cfg, n), Emit(c, UserHangup), cause) ==
        BackwardHangup(cfg, Emit(c, UserHangup), cause);
  }

  lemma QuietIgnoresLimit(cfg: Config, n: nat, x: Chan, y: Chan, action: Action)
    requires !action.Listen?
    ensures Act(Stopped(cfg, n), x, y, action) == Act(cfg, x, y, action)
  {
    match action
    case Sample => CasAlike(cfg, n, x, BitsOf(y.casTx));
    case Expire(id) => ExpiryAlike(cfg, n, x, id);
    case Drop(cause) => RequestsAlike(cfg, n, x, cause, WithCharge);
    case AcceptAs(mode) => RequestsAlike(cfg, n, x, NormalClearing, mode);
    case Pick =>
  }

  predicate IsLimit(cfg: Config) { 0 <= Uint32(cfg.maxDnis) }

  lemma DnisAlike(cfg: Config, n: nat, c: Chan, tone: Tone, u: Reply)
    requires IsLimit(cfg) && StopsAt(cfg, n, c, u) && (IsDigit(tone) ==> |c.num.dnis| < MAX_DIGITS - 1)
    ensures ReceiveDnis(Stopped(cfg, n), c, tone, u.(moreDnis := true)) == ReceiveDnis(cfg, c, tone, u)
  {
    AsksAlike(cfg, n, c);
    AsksAlike(cfg, n, StoreDnis(c, tone));
  }

  lemma AniAlike(cfg: Config, n: nat, c: Chan, tone: Tone)
    requires IsLimit(cfg) && (cfg.getAniFirst ==> |c.num.dnis| == 1)
    ensures ReceiveAni(Stopped(cfg, n), c, tone) == ReceiveAni(cfg, c, tone)
  {
    var d := Emit(c.(num := c.num.(ani := c.num.ani + [tone])), AniDigit(tone));
    AfterAniAlike(cfg, n, c);
    AfterAniAlike(cfg, n, d);
    AfterAniAlike(cfg, n, c.(num := c.num.(restricted := true)));
    AsksAlike(cfg, n, c);
    AsksAlike(cfg, n, d);
  }

  lemma AfterAniAlike(cfg: Config, n: nat, c: Chan)
    requires IsLimit(cfg) && (cfg.getAniFirst ==> |c.num.dnis| == 1)
    ensures AfterAni(Stopped(cfg, n), c) == AfterAni(cfg, c)
  {
    AsksAlike(cfg, n, c);
  }

  lemma CategoryAlike(cfg: Config, n: nat, c: Chan, tone: Tone)
    requires IsLimit(cfg) && (cfg.getAniFirst ==> |c.num.dnis| == 1)
    ensures ReceiveCategory(Stopped(cfg, n), c, tone) == ReceiveCategory(cfg, c, tone)
  {
    var d := c.(num := c.num.(category := tone));
    AniAlike(cfg, n, d, NO_TONE);
    AsksAlike(cfg, n, d);
  }

  lemma ToneAlike(cfg: Config, n: nat, p: Pair, s: Session, u: Reply)
    requires IsLimit(cfg) && Fair(Stopped(cfg, n), s) && Beat1(Stopped(cfg, n), p, s) && StopsAt(cfg, n, p.b, u)
    ensures HandleMedia(Stopped(cfg, n), p.b, p.a.writeTone, u.(moreDnis := true)) ==
        HandleMedia(cfg, p.b, p.a.writeTone, u)
  {
    var b, tone := p.b.(readTone := p.a.writeTone), p.a.writeTone;
    var c := Cancel(b, BackCycle);
    if p.b.mfState == CategoryRqTxd { CategoryAlike(cfg, n, c, tone); }
    else if p.b.mfState == AniRqTxd { AniAlike(cfg, n, c, tone); }
    else if p.b.mfState == ChgGiiTxd { AsksAlike(cfg, n, c); }
    else { DnisAlike(cfg, n, c, tone, u); }
    ForwardToneAlike(cfg, n, p, s, u);
  }

  lemma ForwardToneAlike(cfg: Config, n: nat, p: Pair, s: Session, u: Reply)
    requires Fair(Stopped(cfg, n), s) && Beat1(Stopped(cfg, n), p, s)
    ensures HandleMedia(cfg, p.b, p.a.writeTone, u) == Received(cfg, Taken(p.b, p.a.writeTone), p.a.writeTone, u)
    ensures var v := u.(moreDnis := true);
            HandleMedia(Stopped(cfg, n), p.b, p.a.writeTone, v) ==
            Received(Stopped(cfg, n), Taken(p.b, p.a.writeTone), p.a.writeTone, v)
  {
    HearsInGroup(Stopped(cfg, n), p, s);
    ReceivedInGroup(Stopped(cfg, n), p.b, p.a.writeTone, u.(moreDnis := true));
    ReceivedInGroup(cfg, p.b, p.a.writeTone, u);
  }

  /** Where the callee hears nothing new, or silence, the limit does not matter. */
  lemma SilenceAlike(cfg: Config, n: nat, b: Chan, tone: Tone, u: Reply)
    requires b.direction != Forward && (tone == NO_TONE || tone == b.readTone || b.mfState == MfOff)
    ensures HandleMedia(Stopped(cfg, n), b, tone, u.(moreDnis := true)) == HandleMedia(cfg, b, tone, u)
  {
  }

  lemma ListensAlike(k: Configs, n: nat, p: Pair, s: Session, d: Option<Decision>, u: Reply)
    requires IsLimit(k.b) && Fair(Stopped(k.b, n), s) && SetupInv(Stopped(k.b, n), p, s, d) && StopsAt(k.b, n, p.b, u)
    ensures HandleMedia(Stopped(k.b, n), p.b, p.a.writeTone, u.(moreDnis := true)) ==
        HandleMedia(k.b, p.b, p.a.writeTone, u)
  {
    if Beat1(Stopped(k.b, n), p, s) { ToneAlike(k.b, n, p, s, u); }
    else { NothingNew(Stopped(k.b, n), p, s, d); SilenceAlike(k.b, n, p.b, p.a.writeTone, u); }
  }

  lemma NothingNew(cfg: Config, p: Pair, s: Session, d: Option<Decision>)
    requires SetupInv(cfg, p, s, d) && !Beat1(cfg, p, s)
    ensures p.b.direction != Forward
    ensures p.a.writeTone == NO_TONE || p.a.writeTone == p.b.readTone || p.b.mfState == MfOff
  {
  }

  /** A move of the callee that is told to stop is the move of the callee with the lower limit. */
  lemma MoveStops(k: Configs, n: nat, p: Pair, s: Session, d: Option<Decision>, m: Move)
    requires IsLimit(k.b) && Fair(Stopped(k.b, n), s) && SetupInv(Stopped(k.b, n), p, s, d) &&
        InStepStopping(k, n, p, m)
    ensures Next2(StoppedAt(k, n), p, Obliging(m)) == Next2(k, p, m)
    ensures InStep(StoppedAt(k, n), p, Obliging(m))
  {
    if !m.onA {
      if m.action.Listen? { ListensAlike(k, n, p, s, d, m.action.reply); }
      else { QuietIgnoresLimit(k.b, n, p.b, p.a, m.action); }
    }
  }

  // ---------------------------------------------------------------------------------------
  // Runs

  lemma {:induction false} RunStops(k: Configs, n: nat, p: Pair, s: Session, d: Option<Decision>, moves: seq<Move>)
    requires IsLimit(k.b) && Good(Stopped(k.b, n), s) && Unambiguous(k.a) && SameTones(k.a, k.b)
    requires SetupInv(Stopped(k.b, n), p, s, d) && Admitted(k, p, moves, InStepStoppingAt(k, n))
    ensures Admitted(StoppedAt(k, n), p, AllObliging(moves), InStepOf(StoppedAt(k, n)))
    ensures Run2(StoppedAt(k, n), p, AllObliging(moves)) == Run2(k, p, moves)
    decreases |moves|
  {
    if moves != [] {
      var next := Next2(k, p, moves[0]);
      var e := DecisionAfter(StoppedAt(k, n), p, Obliging(moves[0]), d);
      MoveStops(k, n, p, s, d, moves[0]);
      assert SetupInv(Stopped(k.b, n), next, s, e) by { SetupStep(StoppedAt(k, n), p, s, d, Obliging(moves[0])); }
      RunStops(k, n, next, s, e, moves[1..]);
      AllObligingFirst(moves);
      FirstOfRun(StoppedAt(k, n), p, AllObliging(moves), InStepOf(StoppedAt(k, n)), next);
    }
  }

  lemma AllObligingFirst(moves: seq<Move>)
    requires moves != []
    ensures var all := AllObliging(moves);
            all != [] && all[0] == Obliging(moves[0]) && all[1..] == AllObliging(moves[1..])
  {
  }

  lemma FirstOfRun(k: Configs, p: Pair, moves: seq<Move>, ok: (Pair, Move) -> bool, q: Pair)
    requires moves != [] && ok(p, moves[0]) && q == Next2(k, p, moves[0]) && Admitted(k, q, moves[1..], ok)
    ensures Admitted(k, p, moves, ok) && Run2(k, p, moves) == Run2(k, q, moves[1..])
  {
  }

  /**
   Whatever digit the user stops at, a run of the setup is a run with the lower limit, if that one does not accept too
   soon: so there is no protocol error, and the number offered is the one promised for that limit.
   */
  lemma StoppedSetupIsSafe(k: Configs, n: nat, p: Pair, call: Call, moves: seq<Move>)
    requires IsLimit(k.b) && SetupPremises(StoppedAt(k, n), p, call) && !AcceptsTooSoon(Stopped(k.b, n))
    requires Admitted(k, Dial(k.a, p, call), moves, InStepStoppingAt(k, n))
    ensures var q := Run2(k, Dial(k.a, p, call), moves);
            && Faultless(k, p, call, moves)
            && (q.b.callState == Offered || q.b.callState == Accepted || q.b.callState == Answered ==>
                  OfferIsRight(StoppedAt(k, n), p, call, OfferMade(q.b.log)))
            && Run2(StoppedAt(k, n), Dial(k.a, p, call), AllObliging(moves)) == q
            && Admitted(StoppedAt(k, n), Dial(k.a, p, call), AllObliging(moves), InStepOf(StoppedAt(k, n)))
  {
    DialledIsSeized(StoppedAt(k, n), p, call);
    RunStops(k, n, Dial(k.a, p, call), SessionOf(k.a, p, call), None, moves);
    SetupIsSafe(StoppedAt(k, n), p, call, AllObliging(moves));
  }

  // ---------------------------------------------------------------------------------------
  // Accepting too soon

  /** The five moves, with the answers of a callback that stops at the n-th digit. */
  function StoppedTooSoon(k: Configs, n: nat, p: Pair): seq<Move> {
    var first := [Move(false, Sample), Move(true, Sample), Move(false, Listen(Reply(1 < n, false)))];
    var q := Next2(k, Run2(k, p, first), Move(true, Listen(Reply(true, false))));
    first + [Move(true, Listen(Reply(true, false))), Move(false, Listen(Reply(|q.b.num.dnis| + 1 < n, false)))]
  }

  lemma FirstMovesStop(k: Configs, n: nat, p: Pair, call: Call)
    requires IsLimit(k.b) && SetupPremises(StoppedAt(k, n), p, call) && AcceptsTooSoon(Stopped(k.b, n))
    ensures var p0 := Dial(k.a, p, call); var p2 := Next2(k, Next2(k, p0, Move(false, Sample)), Move(true, Sample));
            var m3 := Move(false, Listen(Reply(1 < n, false)));
            && InStepStopping(k, n, p2, m3)
            && Run2(StoppedAt(k, n), p0, FirstDigitMoves()) == Next2(k, p2, m3)
  {
    var l, s, p0 := StoppedAt(k, n), SessionOf(k.a, p, call), Dial(k.a, p, call);
    var m1, m2, m3 := Move(false, Sample), Move(true, Sample), Move(false, Listen(Reply(1 < n, false)));
    DialledIsSeized(l, p, call);
    MoveStops(k, n, p0, s, None, m1);
    SeizeIsSeen(l, p0, s);
    MoveStops(k, n, Next2(k, p0, m1), s, None, m2);
    FirstDigitSent(l, p0, s);
    MoveStops(k, n, Next2(k, Next2(k, p0, m1), m2), s, None, m3);
    ThreeMoves(l, p0, m1, m2, Obliging(m3));
  }

  lemma StoppedTooSoonFails(k: Configs, n: nat, p: Pair, call: Call)
    requires IsLimit(k.b) && SetupPremises(StoppedAt(k, n), p, call) && AcceptsTooSoon(Stopped(k.b, n))
    ensures var moves := StoppedTooSoon(k, n, Dial(k.a, p, call));
            Admitted(k, Dial(k.a, p, call), moves, InStepStoppingAt(k, n)) && !Faultless(k, p, call, moves)
  {
    var l, p0, u := StoppedAt(k, n), Dial(k.a, p, call), Reply(true, false);
    var m1, m2, m3 := Move(false, Sample), Move(true, Sample), Move(false, Listen(Reply(1 < n, false)));
    var p3 := Run2(k, p0, [m1, m2, m3]);
    var q := Next2(k, p3, Move(true, Listen(u)));
    var m5 := Move(false, Listen(Reply(|q.b.num.dnis| + 1 < n, false)));
    FirstMovesStop(k, n, p, call);
    ThreeMoves(k, p0, m1, m2, m3);
    AcceptsOnFirstDigit(l, p, call);
    HearsTooSoon(k.a, p3.a, p3.b.writeTone, u);
    SilenceAlike(k.b, n, q.b, q.a.writeTone, m5.action.reply);
    Run2Concat(l, p0, FirstDigitMoves(), SilenceMoves());
    TwoMoves(l, p3, Move(true, Listen(u)), Move(false, Listen(u)));
    AcceptingTooSoonFails(l, p, call);
    Run2Concat(k, p0, [m1, m2, m3], [Move(true, Listen(u)), m5]);
    TwoMoves(k, p3, Move(true, Listen(u)), m5);
    FiveAdmitted(k, n, p0, m3, m5);
  }

  lemma FiveAdmitted(k: Configs, n: nat, p: Pair, m3: Move, m5: Move)
    requires var p2 := Next2(k, Next2(k, p, Move(false, Sample)), Move(true, Sample));
             var p4 := Next2(k, Next2(k, p2, m3), Move(true, Listen(Reply(true, false))));
             InStepStopping(k, n, p2, m3) && InStepStopping(k, n, p4, m5)
    ensures Admitted(k, p, [Move(false, Sample), Move(true, Sample), m3] + [Move(true, Listen(Reply(true, false))), m5],
                     InStepStoppingAt(k, n))
  {
    var m4, ok := Move(true, Listen(Reply(true, false))), InStepStoppingAt(k, n);
    var p1 := Next2(k, p, Move(false, Sample));
    var p2 := Next2(k, p1, Move(true, Sample));
    var p3 := Next2(k, p2, m3);
    var ms := [Move(false, Sample), Move(true, Sample), m3] + [m4, m5];
    assert ms[1..] == [Move(true, Sample), m3, m4, m5] && ms[1..][1..] == [m3, m4, m5];
    assert [m3, m4, m5][1..] == [m4, m5] && [m4, m5][1..] == [m5] && [m5][1..] == [];
    assert Admitted(k, Next2(k, p3, m4), [m5], ok);
    assert Admitted(k, p3, [m4, m5], ok);
    assert Admitted(k, p2, [m3, m4, m5], ok);
    assert Admitted(k, p1, ms[1..], ok);
  }

  /**
   So with a callback that stops at the n-th digit every run is without protocol error exactly under the same
   condition.
   */
  lemma StoppedSafeExactly(k: Configs, n: nat, p: Pair, call: Call)
    requires IsLimit(k.b) && SetupPremises(StoppedAt(k, n), p, call)
    ensures (forall moves :: Admitted(k, Dial(k.a, p, call), moves, InStepStoppingAt(k, n)) ==>
                               Faultless(k, p, call, moves)) <==> !AcceptsTooSoon(Stopped(k.b, n))
  {
    if AcceptsTooSoon(Stopped(k.b, n)) {
      StoppedTooSoonFails(k, n, p, call);
    } else {
      forall moves | Admitted(k, Dial(k.a, p, call), moves, InStepStoppingAt(k, n))
        ensures Faultless(k, p, call, moves)
      {
        StoppedSetupIsSafe(k, n, p, call, moves);
      }
    }
  }

  /**
   In the settings given: the callee accepts too soon with the ANI first, or if it is done with one digit by itself or
   its user.
   */
  lemma StoppedTooSoonMeaning(cfg: Config, n: nat)
    requires IsLimit(cfg)
    ensures AcceptsTooSoon(Stopped(cfg, n)) <==>
            cfg.skipCategory && cfg.immediateAccept && (cfg.getAniFirst || Uint32(cfg.maxDnis) <= 1 || n <= 1)
  {
  }

  /** How many digits are then promised. */
  lemma StoppedNumber(k: Configs, n: nat, call: Call)
    requires IsLimit(k.b) && call.dnis != ""
    ensures var limit := Uint32(k.b.maxDnis);
            |PromisedDnis(StoppedAt(k, n), call)| ==
            Min(|Truncated(call.dnis)|,
                if !k.b.getAniFirst then Max(1, Min(limit, n)) else if limit <= 1 then 1 else Max(2, Min(limit, n)))
  {
  }
}
