/**
 A caller with fewer digits than the callee wants, in a variant that has no tone for the end of the number. The caller
 goes silent, the callee's cycle timer takes the silence for the end of the number, and its request, which no silence of
 the caller will end, is turned off by a timer of its own.
 */
module ShortNumbers {
  import opened Signals
  import opened Protocol
  import opened TwoEnds
  import opened Setup
  import opened SetupTheorems

  // ---------------------------------------------------------------------------------------
  // The same tables with a tone for the end of the number

  const END: Tone := 'F'

  function WithEnd(cfg: Config): Config { cfg.(g1 := cfg.g1.(noMoreDnis := END)) }

  function Ended(k: Configs): Configs { Configs(WithEnd(k.a), WithEnd(k.b)) }

  /** The callee's settings under which the silence of the caller ends the number without harm. */
  predicate EndsBySilence(cfg: Config) {
    && cfg.g1.noMoreDnis == NO_TONE && !cfg.aniCanComeFirst
    && !(cfg.immediateAccept && (cfg.skipCategory || cfg.getAniFirst))
  }

  // ---------------------------------------------------------------------------------------
  // The states around the timeout

  /** The callee has all the digits there are and has asked for another. */
  predicate AtEnd(p: Pair, s: Session) { p.b.mfState == DnisRqTxd && |p.b.num.dnis| == |s.dnis| }

  /** On the way to the timeout or past it, as with an end tone, which is never sent. */
  ghost predicate OnTheWay(k: Configs, p: Pair, s: Session, d: Option<Decision>) {
    && SetupInv(Ended(k).b, p, s, d)
    && !(d.None? && AtEnd(p, s) && Beat1(Ended(k).b, p, s))
  }

  /** The safety timer alone is running, under the id its field holds. */
  ghost predicate SafetyRunning(tt: TimerTable) {
    1 <= IdOf(tt, FwdSafety) <= tt.lastId && tt.live == map[IdOf(tt, FwdSafety) := FwdSafety]
  }

  /** The caller has no more digits and waits, with its safety timer running. */
  ghost predicate CallerOut(cfg: Config, a: Chan, s: Session) {
    && CallerBusy(a.(timers := NO_TIMERS), s) && SafetyRunning(a.timers)
    && a.mfState == WaitingTimeout && a.mfGroup == GI && a.writeTone == NO_TONE && a.readTone == NO_TONE
    && a.num.categorySent == cfg.getAniFirst && (!cfg.getAniFirst ==> AniAtDigit(a, s, 0))
  }

  ghost predicate Waiting(cfg: Config, p: Pair, s: Session) {
    && CallerOut(cfg, p.a, s)
    && CalleeBusy(p.b, s) && Collected(cfg, p.b, s) && CycleRuns(p.b.timers) && AtEnd(p, s)
    && p.b.writeTone == NO_TONE && p.b.readTone == NO_TONE
  }

  /** The timer that turns the request off and the cycle timer of the request. */
  ghost predicate ResumeTimers(tt: TimerTable) {
    var r, c := IdOf(tt, BackResumeCycle), IdOf(tt, BackCycle);
    1 <= r < c <= tt.lastId && tt.live == map[r := BackResumeCycle, c := BackCycle]
  }

  /** The callee has taken the silence for the end and asks for what comes after the number. */
  ghost predicate CalleeResumed(cfg: Config, b: Chan, s: Session) {
    && CalleeBusy(b.(timers := NO_TIMERS), s) && ResumeTimers(b.timers)
    && (b.mfState == CategoryRqTxd || b.mfState == ChgGiiTxd) && Collected(cfg, b, s)
    && (b.mfState == CategoryRqTxd ==> !cfg.getAniFirst)
    && b.writeTone == RequestTone(cfg, b.mfState) && b.writeTone != NO_TONE && b.readTone == NO_TONE
  }

  /** The caller has not heard that. */
  ghost predicate Resumed(cfg: Config, p: Pair, s: Session) { CallerOut(cfg, p.a, s) && CalleeResumed(cfg, p.b, s) }

  /** The caller has, and waits for the tone to end. */
  ghost predicate ResumeHeard(cfg: Config, p: Pair, s: Session) {
    && CalleeResumed(cfg, p.b, s)
    && CallerBusy(p.a, s) && CanServe(cfg, p.a, p.b, s)
    && p.a.writeTone == NO_TONE && p.a.readTone == RequestTone(cfg, p.b.mfState)
  }

  ghost predicate ShortInv(k: Configs, p: Pair, s: Session, d: Option<Decision>) {
    OnTheWay(k, p, s, d) || (d.None? && (Waiting(k.b, p, s) || Resumed(k.b, p, s) || ResumeHeard(k.b, p, s)))
  }

  // ---------------------------------------------------------------------------------------
  // The moves

  /**
   As in any setup, but that the callee's cycle timer may expire while the caller waits with no more digits, and the
   timer that turns its request off once the caller has heard that.
   */
  predicate InShort(k: Configs, p: Pair, m: Move) {
    if !m.onA && m.action.Expire? && m.action.id in p.b.timers.live then
      match p.b.timers.live[m.action.id]
      case AnswerDelay => true
      case BackCycle => p.a.mfState == WaitingTimeout && p.b.mfState == DnisRqTxd
      case BackResumeCycle => p.a.readTone != NO_TONE
      case _ => false
    else InStep(k, p, m)
  }

  function InShortOf(k: Configs): (Pair, Move) -> bool { (p: Pair, m: Move) => InShort(k, p, m) }

  // ---------------------------------------------------------------------------------------
  // Where the end tone makes no difference

  lemma SendsDigitAlike(cfg: Config, c: Chan, offset: int)
    requires DnisAt(MoveDnis(c.num, offset)) != NO_TONE
    ensures SendDnis(WithEnd(cfg), c, offset) == SendDnis(cfg, c, offset)
  {
  }

  lemma CasAlike(cfg: Config, c: Chan, bits: Bits)
    requires c.r2State == SeizeTxd ==> DnisAt(MoveDnis(c.num, 0)) != NO_TONE
    ensures HandleCas(WithEnd(cfg), c, bits) == HandleCas(cfg, c, bits)
  {
    var d := c.(casRead := bits);
    if c.r2State == SeizeTxd {
      SendsDigitAlike(cfg, Cancel(d, Seize).(r2State := SeizeAckRxd, mfGroup := GI), 0);
      assert SeizeAcknowledged(WithEnd(cfg), d) == SeizeAcknowledged(cfg, d);
    }
    assert c.r2State == SeizeTxdClearFwdPending ==> SeizeAcknowledged(WithEnd(cfg), d) == SeizeAcknowledged(cfg, d);
    assert HandleIncomingCall(WithEnd(cfg), d) == HandleIncomingCall(cfg, d);
    ReleasesAlike(cfg, d, bits);
  }

  lemma ReleasesAlike(cfg: Config, c: Chan, bits: Bits)
    ensures ReleaseOrError(WithEnd(cfg), c, bits) == ReleaseOrError(cfg, c, bits)
    ensures MeteringOrError(WithEnd(cfg), c, bits) == MeteringOrError(cfg, c, bits)
  {
  }

  lemma RequestsAlike(cfg: Config, c: Chan, cause: Cause, mode: CallMode)
    ensures DisconnectCall(WithEnd(cfg), c, cause) == DisconnectCall(cfg, c, cause)
    ensures AcceptCall(WithEnd(cfg), c, mode) == AcceptCall(cfg, c, mode)
  {
    assert RejectTone(WithEnd(cfg), cause) == RejectTone(cfg, cause);
    assert BackwardHangup(WithEnd(cfg), Emit(c, UserHangup), cause) == BackwardHangup(cfg, Emit(c, UserHangup), cause);
  }

  lemma ExpiryAlike(cfg: Config, c: Chan, id: int)
    requires id in c.timers.live ==> c.timers.live[id] != BackCycle
    ensures TimerFires(WithEnd(cfg), c, id) == TimerFires(cfg, c, id)
  {
  }

  lemma AsksAlike(cfg: Config, c: Chan)
    ensures var d := WithEnd(cfg);
            && TryChangeToG2(d, c) == TryChangeToG2(cfg, c) && TryRequestCategory(d, c) == TryRequestCategory(cfg, c)
            && RequestNextDnis(d, c) == RequestNextDnis(cfg, c) && RequestNextAni(d, c) == RequestNextAni(cfg, c)
            && RequestChangeToG2(d, c) == RequestChangeToG2(cfg, c) && OfferCall(d, c) == OfferCall(cfg, c)
  {
  }

  lemma DigitAlike(cfg: Config, c: Chan, tone: Tone, u: Reply)
    requires IsDigit(tone)
    ensures ReceiveDnis(WithEnd(cfg), c, tone, u) == ReceiveDnis(cfg, c, tone, u)
  {
    AsksAlike(cfg, StoreDnis(c, tone));
  }

  lemma AniAlike(cfg: Config, c: Chan, tone: Tone)
    ensures ReceiveAni(WithEnd(cfg), c, tone) == ReceiveAni(cfg, c, tone)
  {
    var d := Emit(c.(num := c.num.(ani := c.num.ani + [tone])), AniDigit(tone));
    AsksAlike(cfg, c);
    AsksAlike(cfg, d);
    AsksAlike(cfg, c.(num := c.num.(restricted := true)));
    assert AfterAni(WithEnd(cfg), c) == AfterAni(cfg, c) && AfterAni(WithEnd(cfg), d) == AfterAni(cfg, d);
    assert AfterAni(WithEnd(cfg), c.(num := c.num.(restricted := true))) ==
        AfterAni(cfg, c.(num := c.num.(restricted := true)));
  }

  lemma CategoryAlike(cfg: Config, c: Chan, tone: Tone)
    ensures ReceiveCategory(WithEnd(cfg), c, tone) == ReceiveCategory(cfg, c, tone)
  {
    var d := c.(num := c.num.(category := tone));
    AniAlike(cfg, d, NO_TONE);
    AsksAlike(cfg, d);
  }

  /** The caller reads any request alike but one for a digit it does not have. */
  lemma SilenceAlike(cfg: Config, a: Chan, tone: Tone, u: Reply)
    requires a.mfGroup == GI || a.mfGroup == GII
    requires a.mfGroup == GI && IsDnisRequest(cfg, tone) ==>
               tone == cfg.ga.nextDnis && DnisAt(MoveDnis(a.num, 1)) != NO_TONE
    requires a.mfGroup == GI && tone == cfg.ga.nextAni && a.num.categorySent ==> a.mfState != AniEndTxd
    ensures HandleBackwardSilence(WithEnd(cfg), a, tone, u) == HandleBackwardSilence(cfg, a, tone, u)
  {
    assert IsDnisRequest(WithEnd(cfg), tone) == IsDnisRequest(cfg, tone);
    forall mode ensures HandleAcceptTone(WithEnd(cfg), a, mode, u) == HandleAcceptTone(cfg, a, mode, u) {
      AcceptanceAlike(cfg, a, mode, u);
    }
    if a.mfGroup == GI { GroupAAlike(cfg, a, tone, u); }
  }

  lemma AcceptanceAlike(cfg: Config, a: Chan, mode: CallMode, u: Reply)
    ensures HandleAcceptTone(WithEnd(cfg), a, mode, u) == HandleAcceptTone(cfg, a, mode, u)
  {
    forall c: Chan ensures AcceptedCallback(WithEnd(cfg), c, u) == AcceptedCallback(cfg, c, u) {
      RequestsAlike(cfg, c, NormalClearing, WithCharge);
    }
  }

  lemma GroupAAlike(cfg: Config, a: Chan, tone: Tone, u: Reply)
    requires IsDnisRequest(cfg, tone) ==> tone == cfg.ga.nextDnis && DnisAt(MoveDnis(a.num, 1)) != NO_TONE
    requires tone == cfg.ga.nextAni && a.num.categorySent ==> a.mfState != AniEndTxd
    ensures HandleGroupARequest(WithEnd(cfg), a, tone, u) == HandleGroupARequest(cfg, a, tone, u)
  {
    if IsDnisRequest(cfg, tone) { SendsDigitAlike(cfg, a, 1); }
    AcceptanceAlike(cfg, a, WithCharge, u);
  }

  // ---------------------------------------------------------------------------------------
  // Moves that go on as with an end tone

  /** The caller is about to look for a digit it does not have. */
  ghost predicate RunsOut(k: Configs, p: Pair, s: Session, d: Option<Decision>, m: Move) {
    m.onA && m.action.Listen? && d.None? && AtEnd(p, s) && Beat4(Ended(k).b, p, s)
  }

  lemma MoveAlike(k: Configs, p: Pair, s: Session, d: Option<Decision>, m: Move)
    requires Fair(Ended(k).b, s) && SameTones(k.a, k.b) && OnTheWay(k, p, s, d) && InStep(k, p, m) &&
        !RunsOut(k, p, s, d, m)
    ensures Next2(Ended(k), p, m) == Next2(k, p, m)
  {
    var x, y, cfg := if m.onA then p.a else p.b, if m.onA then p.b else p.a, if m.onA then k.a else k.b;
    match m.action {
      case Sample => FirstDigitThere(k, p, s, d); CasAlike(cfg, x, BitsOf(y.casTx));
      case Listen(reply) =>
        if m.onA { CallerListensAlike(k, p, s, d, reply); } else { CalleeListensAlike(k, p, s, d, reply); }
      case Expire(id) => ExpiryAlike(cfg, x, id);
      case Drop(cause) => RequestsAlike(cfg, x, cause, WithCharge);
      case AcceptAs(mode) => RequestsAlike(cfg, x, NormalClearing, mode);
      case Pick =>
    }
  }

  lemma FirstDigitThere(k: Configs, p: Pair, s: Session, d: Option<Decision>)
    requires Fair(Ended(k).b, s) && SetupInv(Ended(k).b, p, s, d)
    ensures p.b.r2State != SeizeTxd && (p.a.r2State == SeizeTxd ==> DnisAt(MoveDnis(p.a.num, 0)) != NO_TONE)
  {
  }

  lemma CallerListensAlike(k: Configs, p: Pair, s: Session, d: Option<Decision>, u: Reply)
    requires Fair(Ended(k).b, s) && SameTones(k.a, k.b) && OnTheWay(k, p, s, d)
    requires !(d.None? && AtEnd(p, s) && Beat4(Ended(k).b, p, s))
    ensures HandleMedia(WithEnd(k.a), p.a, p.b.writeTone, u) == HandleMedia(k.a, p.a, p.b.writeTone, u)
  {
    if p.a.mfState != MfOff && p.b.writeTone == NO_TONE && p.a.readTone != NO_TONE {
      SilenceIsRead(k, p, s, d);
      SilenceAlike(k.a, p.a, p.a.readTone, u);
      SilenceDispatched(k.a, p.a, u);
      SilenceDispatched(WithEnd(k.a), p.a, u);
    } else {
      TonesAlike(k.a, p.a, p.b.writeTone, u);
    }
  }

  lemma TonesAlike(cfg: Config, a: Chan, tone: Tone, u: Reply)
    requires a.direction == Forward || a.mfState == MfOff
    requires a.mfState == MfOff || tone != NO_TONE || a.readTone == NO_TONE
    ensures HandleMedia(WithEnd(cfg), a, tone, u) == HandleMedia(cfg, a, tone, u)
  {
  }

  lemma SilenceIsRead(k: Configs, p: Pair, s: Session, d: Option<Decision>)
    requires Fair(Ended(k).b, s) && SameTones(k.a, k.b) && SetupInv(Ended(k).b, p, s, d)
    requires !(d.None? && AtEnd(p, s) && Beat4(Ended(k).b, p, s))
    requires p.a.mfState != MfOff && p.b.writeTone == NO_TONE && p.a.readTone != NO_TONE
    ensures var a, tone, cfg := p.a, p.a.readTone, k.a;
            && a.direction == Forward
            && (a.mfGroup == GI || a.mfGroup == GII)
            && (a.mfGroup == GI && IsDnisRequest(cfg, tone) ==>
                  tone == cfg.ga.nextDnis && DnisAt(MoveDnis(a.num, 1)) != NO_TONE)
            && (a.mfGroup == GI && tone == cfg.ga.nextAni && a.num.categorySent ==> a.mfState != AniEndTxd)
  {
    match d
    case None => PendingSilence(k, p, s);
    case Some(e) => DecidedSilence(k, p, s, e);
  }

  lemma PendingSilence(k: Configs, p: Pair, s: Session)
    requires Fair(Ended(k).b, s) && SameTones(k.a, k.b) && SetupInv(Ended(k).b, p, s, None)
    requires !(AtEnd(p, s) && Beat4(Ended(k).b, p, s))
    requires p.a.mfState != MfOff && p.b.writeTone == NO_TONE && p.a.readTone != NO_TONE
    ensures var a, tone, cfg := p.a, p.a.readTone, k.a;
            && a.direction == Forward && a.mfGroup == GI
            && (IsDnisRequest(cfg, tone) ==> tone == cfg.ga.nextDnis && DnisAt(MoveDnis(a.num, 1)) != NO_TONE)
            && (tone == cfg.ga.nextAni && a.num.categorySent ==> a.mfState != AniEndTxd)
  {
    assert Beat4(Ended(k).b, p, s);
  }

  lemma DecidedSilence(k: Configs, p: Pair, s: Session, d: Decision)
    requires Fair(Ended(k).b, s) && SameTones(k.a, k.b) && SetupInv(Ended(k).b, p, s, Some(d))
    requires p.a.mfState != MfOff && p.b.writeTone == NO_TONE && p.a.readTone != NO_TONE
    ensures var a, tone, cfg := p.a, p.a.readTone, k.a;
            && a.direction == Forward
            && (a.mfGroup == GI || a.mfGroup == GII)
            && (a.mfGroup == GI ==> !IsDnisRequest(cfg, tone) && tone != cfg.ga.nextAni)
  {
    assert Decided3(Ended(k).b, p, s, d);
  }

  lemma CalleeListensAlike(k: Configs, p: Pair, s: Session, d: Option<Decision>, u: Reply)
    requires Fair(Ended(k).b, s) && OnTheWay(k, p, s, d)
    ensures HandleMedia(WithEnd(k.b), p.b, p.a.writeTone, u) == HandleMedia(k.b, p.b, p.a.writeTone, u)
  {
    if d.None? && Beat1(Ended(k).b, p, s) { ItemAlike(k, p, s, u); }
    else { NothingNewAlike(k, p, s, d, u); }
  }

  lemma NothingNewAlike(k: Configs, p: Pair, s: Session, d: Option<Decision>, u: Reply)
    requires SetupInv(Ended(k).b, p, s, d) && !(d.None? && Beat1(Ended(k).b, p, s))
    ensures HandleMedia(WithEnd(k.b), p.b, p.a.writeTone, u) == HandleMedia(k.b, p.b, p.a.writeTone, u)
  {
    SilentAlike(k.b, p.b, p.a.writeTone, u);
    assert p.a.writeTone == NO_TONE || p.a.writeTone == p.b.readTone || p.b.mfState == MfOff;
  }

  lemma SilentAlike(cfg: Config, b: Chan, tone: Tone, u: Reply)
    ensures b.direction != Forward && (tone == NO_TONE || tone == b.readTone || b.mfState == MfOff) ==>
              HandleMedia(WithEnd(cfg), b, tone, u) == HandleMedia(cfg, b, tone, u)
  {
  }

  lemma ItemAlike(k: Configs, p: Pair, s: Session, u: Reply)
    requires Fair(Ended(k).b, s) && Beat1(Ended(k).b, p, s) && !AtEnd(p, s)
    ensures HandleMedia(WithEnd(k.b), p.b, p.a.writeTone, u) == HandleMedia(k.b, p.b, p.a.writeTone, u)
  {
    var c, tone := Taken(p.b, p.a.writeTone), p.a.writeTone;
    ToneDispatched(WithEnd(k.b), p, s, u);
    ItemDispatched(k, p, s, u);
    if p.b.mfState == CategoryRqTxd { CategoryAlike(k.b, c, tone); }
    else if p.b.mfState == AniRqTxd { AniAlike(k.b, c, tone); }
    else if p.b.mfState == ChgGiiTxd { AsksAlike(k.b, c); }
    else { assert IsDigit(tone); DigitAlike(k.b, c, tone, u); }
  }

  lemma ItemDispatched(k: Configs, p: Pair, s: Session, u: Reply)
    requires Fair(Ended(k).b, s) && Beat1(Ended(k).b, p, s)
    ensures HandleMedia(k.b, p.b, p.a.writeTone, u) == Received(k.b, Taken(p.b, p.a.writeTone), p.a.writeTone, u)
  {
    HearsInGroup(Ended(k).b, p, s);
    ReceivedInGroup(k.b, p.b, p.a.writeTone, u);
  }

  /** What is asked of a short number: the premises of a setup, with an end tone that will not be missed. */
  ghost predicate ShortPremises(k: Configs, s: Session) {
    && EndsBySilence(k.b) && SameTones(k.a, k.b) && Unambiguous(k.a) && Good(WithEnd(k.b), s)
  }

  lemma GoesOnTheWay(k: Configs, p: Pair, s: Session, d: Option<Decision>, m: Move)
    requires ShortPremises(k, s) && OnTheWay(k, p, s, d) && InStep(k, p, m) && !RunsOut(k, p, s, d, m)
    ensures OnTheWay(k, Next2(k, p, m), s, DecisionAfter(k, p, m, d))
  {
    MoveAlike(k, p, s, d, m);
    assert InStep(Ended(k), p, m) by { AdmittedAlike(k, p, m); }
    SetupStep(Ended(k), p, s, d, m);
    assert DecisionAfter(Ended(k), p, m, d) == DecisionAfter(k, p, m, d);
    if d.None? { NotPastTheEnd(k, p, s, m); }
  }

  lemma AdmittedAlike(k: Configs, p: Pair, m: Move)
    ensures InStep(Ended(k), p, m) <==> InStep(k, p, m)
  {
    forall cause ensures RejectTone(WithEnd(k.b), cause) == RejectTone(k.b, cause) {}
  }

  /** The end tone is not sent but by a caller that runs out. */
  lemma NotPastTheEnd(k: Configs, p: Pair, s: Session, m: Move)
    requires ShortPremises(k, s) && OnTheWay(k, p, s, None) && InStep(Ended(k), p, m) && !RunsOut(k, p, s, None, m)
    ensures var q := Next2(Ended(k), p, m); !(AtEnd(q, s) && Beat1(Ended(k).b, q, s))
  {
    var cfg := Ended(k).b;
    if Seized(p, s) || SeizeSeen(p, s) { NotPastAtSeize(k, p, s, m); }
    else if AwaitingDecision(cfg, p, s) { NotPastAtDecision(k, p, s, m); }
    else if !m.action.Listen? { QuietInBeats(Ended(k), p, s, m); }
    else if m.onA { CallerStaysShort(k, p, s, m.action.reply); }
    else { CalleeStaysShort(k, p, s, m.action.reply); }
  }

  lemma NotPastAtSeize(k: Configs, p: Pair, s: Session, m: Move)
    requires ShortPremises(k, s) && (Seized(p, s) || SeizeSeen(p, s)) && InStep(Ended(k), p, m)
    ensures !AtEnd(Next2(Ended(k), p, m), s)
  {
  }

  lemma NotPastAtDecision(k: Configs, p: Pair, s: Session, m: Move)
    requires ShortPremises(k, s) && AwaitingDecision(Ended(k).b, p, s) && InStep(Ended(k), p, m)
    ensures !AtEnd(Next2(Ended(k), p, m), s)
  {
  }

  lemma CallerStaysShort(k: Configs, p: Pair, s: Session, u: Reply)
    requires ShortPremises(k, s) && OnTheWay(k, p, s, None)
    requires Beat1(Ended(k).b, p, s) || Beat2(Ended(k).b, p, s) || Beat3(Ended(k).b, p, s) ||
        (Beat4(Ended(k).b, p, s) && !AtEnd(p, s))
    ensures var q := p.(a := HandleMedia(Ended(k).a, p.a, p.b.writeTone, u)); !(AtEnd(q, s) && Beat1(Ended(k).b, q, s))
  {
    var cfg := Ended(k).b;
    if Beat1(cfg, p, s) || Beat3(cfg, p, s) { SameToneIgnored(Ended(k).a, p.a, p.b.writeTone, u); }
    else if Beat2(cfg, p, s) {
      CallerHearsRequest(cfg, p, s, u);
      MutingIgnoresLimits(Ended(k).a, cfg, p.a, p.b.writeTone, u);
    }
  }

  lemma CalleeStaysShort(k: Configs, p: Pair, s: Session, u: Reply)
    requires ShortPremises(k, s) && OnTheWay(k, p, s, None) && u.moreDnis
    requires Beat1(Ended(k).b, p, s) || Beat2(Ended(k).b, p, s) || Beat3(Ended(k).b, p, s) || Beat4(Ended(k).b, p, s)
    ensures var q := p.(b := HandleMedia(Ended(k).b, p.b, p.a.writeTone, u)); !(AtEnd(q, s) && Beat1(Ended(k).b, q, s))
  {
    CalleeListens(Ended(k), p, s, u);
  }

  // ---------------------------------------------------------------------------------------
  // Running out, the timeout, and the resumption

  lemma CallerRunsOut(k: Configs, p: Pair, s: Session, u: Reply)
    requires ShortPremises(k, s) && AtEnd(p, s) && Beat4(Ended(k).b, p, s)
    ensures Waiting(k.b, p.(a := HandleMedia(k.a, p.a, p.b.writeTone, u)), s)
  {
    SilenceDispatched(k.a, p.a, u);
    RequestIsRead(k.a, p.a, DnisRqTxd, u);
    NoDigitLeft(k, p, s);
  }

  lemma NoDigitLeft(k: Configs, p: Pair, s: Session)
    requires ShortPremises(k, s) && AtEnd(p, s) && Beat4(Ended(k).b, p, s)
    ensures CallerOut(k.b, SendDnis(k.a, p.a, 1).(readTone := NO_TONE), s)
  {
    var c := p.a.(num := MoveDnis(p.a.num, 1));
    assert DnisAt(c.num) == NO_TONE;
    assert SendDnis(k.a, p.a, 1) == Schedule(c.(mfState := WaitingTimeout), FwdSafety);
  }

  lemma WaitingStep(k: Configs, p: Pair, s: Session, m: Move)
    requires ShortPremises(k, s) && Waiting(k.b, p, s) && InShort(k, p, m)
    ensures Waiting(k.b, Next2(k, p, m), s) || Resumed(k.b, Next2(k, p, m), s)
    ensures DecisionAfter(k, p, m, None) == None
  {
    if !m.onA && m.action.Expire? && m.action.id in p.b.timers.live {
      TakesSilenceForEnd(k.b, p, s, m.action.id);
    } else {
      assert Next2(k, p, m) == p by { QuietWhileWaiting(k, p, s, m); }
    }
  }

  lemma QuietWhileWaiting(k: Configs, p: Pair, s: Session, m: Move)
    requires (Waiting(k.b, p, s) || Resumed(k.b, p, s)) && InStep(k, p, m)
    requires m.action.Expire? ==> m.action.id !in (if m.onA then p.a else p.b).timers.live
    requires m.onA && m.action.Listen? ==> p.b.writeTone == NO_TONE
    ensures Next2(k, p, m) == p
  {
  }

  /** The cycle timer expires: the callee asks for the category, or for the change to group II. */
  lemma TakesSilenceForEnd(cfg: Config, p: Pair, s: Session, id: int)
    requires EndsBySilence(cfg) && Good(WithEnd(cfg), s) && Waiting(cfg, p, s) && id in p.b.timers.live
    ensures Resumed(cfg, p.(b := TimerFires(cfg, p.b, id)), s)
    ensures TimerFires(cfg, p.b, id).num == p.b.num
    ensures !AcceptedAtOnce(TimerFires(cfg, p.b, id))
  {
    CalleeTakesSilence(cfg, p.b, s, id);
  }

  lemma CalleeTakesSilence(cfg: Config, b: Chan, s: Session, id: int)
    requires EndsBySilence(cfg) && Good(WithEnd(cfg), s)
    requires CalleeBusy(b, s) && Collected(cfg, b, s) && CycleRuns(b.timers) && id in b.timers.live
    requires b.mfState == DnisRqTxd && |b.num.dnis| == |s.dnis| && b.writeTone == NO_TONE && b.readTone == NO_TONE
    ensures var d := TimerFires(cfg, b, id); CalleeResumed(cfg, d, s) && d.num == b.num && !AcceptedAtOnce(d)
  {
    var tt := b.timers.(live := b.timers.live - {id});
    var m := if cfg.getAniFirst || cfg.skipCategory then ChgGiiTxd else CategoryRqTxd;
    var resumed := AddTimer(AddTimer(tt, BackResumeCycle), BackCycle);
    TimersResume(b.timers, id);
    assert TimerFires(cfg, b, id) == AskedBy(cfg, b, m, resumed) by { AsksAfterSilence(cfg, b.(timers := tt)); }
    ResumedByAsking(cfg, b, m, resumed, s);
  }

  function AskedBy(cfg: Config, b: Chan, m: MfState, tt: TimerTable): Chan {
    b.(mfGroup := if m == ChgGiiTxd then GB else GA, mfState := m, writeTone := RequestTone(cfg, m), timers := tt)
  }

  lemma TimersResume(tt: TimerTable, id: int)
    requires CycleTimer(tt) && CycleRuns(tt) && id in tt.live
    ensures var rest := tt.(live := tt.live - {id});
            && tt.live[id] == BackCycle && rest.live == map[] && !SlotsFull(AddTimer(rest, BackResumeCycle))
            && ResumeTimers(AddTimer(AddTimer(rest, BackResumeCycle), BackCycle))
  {
    var rest := tt.(live := tt.live - {id});
    assert rest.live.Keys == {};
    assert AddTimer(rest, BackResumeCycle).live == map[tt.lastId + 1 := BackResumeCycle];
  }

  lemma AsksAfterSilence(cfg: Config, b: Chan)
    requires EndsBySilence(cfg) && Unambiguous(cfg) && b.timers.live == map[] && b.direction == Backward
    requires b.mfState == DnisRqTxd && b.mfGroup == GA && b.writeTone == NO_TONE
    requires !SlotsFull(AddTimer(b.timers, BackResumeCycle))
    ensures MfBackCycleExpired(cfg, b) ==
            AskedBy(cfg, b, if cfg.getAniFirst || cfg.skipCategory then ChgGiiTxd else CategoryRqTxd,
                    AddTimer(AddTimer(b.timers, BackResumeCycle), BackCycle))
  {
  }

  lemma ResumedByAsking(cfg: Config, b: Chan, m: MfState, tt: TimerTable, s: Session)
    requires EndsBySilence(cfg) && Good(WithEnd(cfg), s) && ResumeTimers(tt)
    requires CalleeBusy(b, s) && Collected(cfg, b, s) && b.mfState == DnisRqTxd && |b.num.dnis| == |s.dnis|
    requires b.readTone == NO_TONE && m == if cfg.getAniFirst || cfg.skipCategory then ChgGiiTxd else CategoryRqTxd
    ensures CalleeResumed(cfg, AskedBy(cfg, b, m, tt), s)
  {
  }

  lemma ResumedStep(k: Configs, p: Pair, s: Session, m: Move)
    requires ShortPremises(k, s) && Resumed(k.b, p, s) && InShort(k, p, m)
    ensures Resumed(k.b, Next2(k, p, m), s) || ResumeHeard(k.b, Next2(k, p, m), s)
    ensures DecisionAfter(k, p, m, None) == None
  {
    if m.onA && m.action.Listen? {
      HearsResumption(k, p, s, m.action.reply);
    } else {
      assert Next2(k, p, m) == p by { QuietWhileWaiting(k, p, s, m); }
    }
  }

  lemma HearsResumption(k: Configs, p: Pair, s: Session, u: Reply)
    requires ShortPremises(k, s) && Resumed(k.b, p, s)
    ensures ResumeHeard(k.b, p.(a := HandleMedia(k.a, p.a, p.b.writeTone, u)), s)
  {
  }

  lemma HeardStep(k: Configs, p: Pair, s: Session, m: Move)
    requires ShortPremises(k, s) && ResumeHeard(k.b, p, s) && InShort(k, p, m)
    ensures ResumeHeard(k.b, Next2(k, p, m), s) || OnTheWay(k, Next2(k, p, m), s, None)
    ensures DecisionAfter(k, p, m, None) == None
  {
    if !m.onA && m.action.Expire? && m.action.id in p.b.timers.live {
      TurnsRequestOff(k, p, s, m.action.id);
    } else {
      assert Next2(k, p, m) == p by { QuietWhenHeard(k, p, s, m); }
    }
  }

  lemma QuietWhenHeard(k: Configs, p: Pair, s: Session, m: Move)
    requires ResumeHeard(k.b, p, s) && InStep(k, p, m)
    requires m.action.Expire? ==> m.action.id !in (if m.onA then p.a else p.b).timers.live
    ensures Next2(k, p, m) == p
  {
  }

  /** The request is turned off; from here on the setup is the one with the end tone. */
  lemma TurnsRequestOff(k: Configs, p: Pair, s: Session, id: int)
    requires ShortPremises(k, s) && ResumeHeard(k.b, p, s) && id in p.b.timers.live &&
        p.b.timers.live[id] == BackResumeCycle
    ensures OnTheWay(k, p.(b := TimerFires(k.b, p.b, id)), s, None)
  {
  }

  // ---------------------------------------------------------------------------------------
  // Runs

  lemma ShortStep(k: Configs, p: Pair, s: Session, d: Option<Decision>, m: Move)
    requires ShortPremises(k, s) && ShortInv(k, p, s, d) && InShort(k, p, m)
    ensures ShortInv(k, Next2(k, p, m), s, DecisionAfter(k, p, m, d))
  {
    if OnTheWay(k, p, s, d) {
      OnlyDelayExpires(k, p, s, d, m);
      if RunsOut(k, p, s, d, m) { RunsOutStep(k, p, s, m); } else { GoesOnTheWay(k, p, s, d, m); }
    }
    else if Waiting(k.b, p, s) { WaitingStep(k, p, s, m); }
    else if Resumed(k.b, p, s) { ResumedStep(k, p, s, m); }
    else { HeardStep(k, p, s, m); }
  }

  lemma RunsOutStep(k: Configs, p: Pair, s: Session, m: Move)
    requires ShortPremises(k, s) && OnTheWay(k, p, s, None) && RunsOut(k, p, s, None, m)
    ensures Waiting(k.b, Next2(k, p, m), s) && DecisionAfter(k, p, m, None) == None
  {
    CallerRunsOut(k, p, s, m.action.reply);
  }

  /** On the way no timer expires that could not expire in any setup. */
  lemma OnlyDelayExpires(k: Configs, p: Pair, s: Session, d: Option<Decision>, m: Move)
    requires ShortPremises(k, s) && OnTheWay(k, p, s, d) && InShort(k, p, m)
    ensures InStep(k, p, m)
  {
    if !m.onA && m.action.Expire? && m.action.id in p.b.timers.live { NoResumeTimer(k, p, s, d); }
  }

  lemma NoResumeTimer(k: Configs, p: Pair, s: Session, d: Option<Decision>)
    requires ShortPremises(k, s) && OnTheWay(k, p, s, d)
    ensures forall id :: id in p.b.timers.live ==>
                           p.b.timers.live[id] == AnswerDelay || p.b.timers.live[id] == BackCycle
    ensures p.a.mfState == WaitingTimeout && p.b.mfState == DnisRqTxd ==> p.b.timers.live == map[]
  {
    match d
    case None =>
    case Some(e) => DecidedTimers(Ended(k).b, p, s, e);
  }

  lemma DecidedTimers(cfg: Config, p: Pair, s: Session, d: Decision)
    requires SetupInv(cfg, p, s, Some(d))
    ensures forall id :: id in p.b.timers.live ==>
                           p.b.timers.live[id] == AnswerDelay || p.b.timers.live[id] == BackCycle
    ensures p.b.mfState != DnisRqTxd
  {
  }

  lemma {:induction false} ShortRun(k: Configs, p: Pair, s: Session, d: Option<Decision>, moves: seq<Move>)
    requires ShortPremises(k, s) && ShortInv(k, p, s, d) && Admitted(k, p, moves, InShortOf(k))
    ensures ShortInv(k, Run2(k, p, moves), s, FinalDecision(k, p, moves, d))
    decreases |moves|
  {
    if moves != [] {
      ShortStep(k, p, s, d, moves[0]);
      ShortRun(k, Next2(k, p, moves[0]), s, DecisionAfter(k, p, moves[0], d), moves[1..]);
    }
  }

  /** A setup in a variant without an end tone, whatever the length of the number. */
  ghost predicate ShortSetup(k: Configs, p: Pair, call: Call) {
    SetupPremises(Ended(k), p, call) && SameTones(k.a, k.b) && EndsBySilence(k.b) && !AcceptsTooSoon(k.b)
  }

  lemma ShortStarts(k: Configs, p: Pair, call: Call)
    requires ShortSetup(k, p, call)
    ensures ShortPremises(k, SessionOf(k.a, p, call)) && ShortInv(k, Dial(k.a, p, call), SessionOf(k.a, p, call), None)
  {
    assert Dial(Ended(k).a, p, call) == Dial(k.a, p, call) && SessionOf(Ended(k).a, p, call) == SessionOf(k.a, p, call);
    DialledIsSeized(Ended(k), p, call);
  }

  /**
   In every interleaving neither end meets a protocol error, and the callee is offered the number as in a variant that
   can tell it the end; the caller's user hears the callee's decision.
   */
  lemma ShortNumberIsSafe(k: Configs, p: Pair, call: Call, moves: seq<Move>)
    requires ShortSetup(k, p, call) && Admitted(k, Dial(k.a, p, call), moves, InShortOf(k))
    ensures var q := Run2(k, Dial(k.a, p, call), moves);
            var d := FinalDecision(k, Dial(k.a, p, call), moves, None);
            && CountFaults(q.a.log) == CountFaults(p.a.log)
            && CountFaults(q.b.log) == CountFaults(p.b.log)
            && (q.b.callState == Offered || q.b.callState == Accepted || q.b.callState == Answered ==>
                  OfferIsRight(k, p, call, OfferMade(q.b.log)))
            && (d.None? ==> VerdictHeard(q.a.log) == None)
            && (VerdictHeard(q.a.log).Some? ==> VerdictHeard(q.a.log) == Some(Verdict(k.b, d.value)))
            && (q.a.callState == Answered ==> q.b.callState == Answered)
            && (q.b.callState == Answered ==> d.Some? && !d.value.Rejecting?)
  {
    var s := SessionOf(k.a, p, call);
    var q := Run2(k, Dial(k.a, p, call), moves);
    var d := FinalDecision(k, Dial(k.a, p, call), moves, None);
    ShortStarts(k, p, call);
    ShortRun(k, Dial(k.a, p, call), s, None, moves);
    if OnTheWay(k, q, s, d) { DeliversOnTheWay(k, p, call, q, d); }
  }

  lemma DeliversOnTheWay(k: Configs, p: Pair, call: Call, q: Pair, d: Option<Decision>)
    requires ShortSetup(k, p, call) && OnTheWay(k, q, SessionOf(k.a, p, call), d)
    ensures CountFaults(q.a.log) == CountFaults(p.a.log) && CountFaults(q.b.log) == CountFaults(p.b.log)
    ensures q.b.callState == Offered || q.b.callState == Accepted || q.b.callState == Answered ==>
              OfferIsRight(k, p, call, OfferMade(q.b.log))
    ensures d.None? ==> VerdictHeard(q.a.log) == None
    ensures VerdictHeard(q.a.log).Some? ==> VerdictHeard(q.a.log) == Some(Verdict(k.b, d.value))
    ensures q.a.callState == Answered ==> q.b.callState == Answered
    ensures q.b.callState == Answered ==> d.Some? && !d.value.Rejecting?
  {
    var s := SessionOf(k.a, p, call);
    assert |s.dnis| > 0;
    InvDelivers(Ended(k).b, q, s, d);
    VerdictAlike(k.b, d);
    if OfferedAsExpected(Ended(k).b, q.b, s) { OffersOnTheWay(k, p, call, q.b); }
  }

  lemma OffersOnTheWay(k: Configs, p: Pair, call: Call, b: Chan)
    requires ShortSetup(k, p, call) && OfferedAsExpected(Ended(k).b, b, SessionOf(k.a, p, call))
    ensures OfferIsRight(k, p, call, OfferMade(b.log))
  {
    assert SessionOf(Ended(k).a, p, call) == SessionOf(k.a, p, call);
    ExpectedIsRight(Ended(k), p, call, b);
    OfferAlike(k, p, call, OfferMade(b.log));
  }

  lemma VerdictAlike(cfg: Config, d: Option<Decision>)
    ensures d.Some? ==> Verdict(WithEnd(cfg), d.value) == Verdict(cfg, d.value)
  {
  }

  lemma OfferAlike(k: Configs, p: Pair, call: Call, offer: Option<Event>)
    requires call.dnis != "" && OfferIsRight(Ended(k), p, call, offer)
    ensures OfferIsRight(k, p, call, offer)
  {
    assert SessionOf(Ended(k).a, p, call) == SessionOf(k.a, p, call);
    assert PromisedAni(Ended(k), call) == PromisedAni(k, call) && PromisedDnis(Ended(k), call) == PromisedDnis(k, call);
  }

  // ---------------------------------------------------------------------------------------
  // Progress

  /** The distance to the offer, with the states around the timeout in their place. */
  function ShortDistance(cfg: Config, p: Pair, s: Session): int {
    if p.b.callState != Collecting || p.a.r2State == SeizeTxd then Distance(cfg, p, s)
    else if p.a.timers.live != map[] then
      if p.b.writeTone == NO_TONE then 4 * Left(cfg, p.b, s) + 1 else 4 * Left(cfg, p.b, s) + 4
    else if p.b.readTone == NO_TONE && p.a.writeTone == NO_TONE && p.b.writeTone != NO_TONE then
      4 * Left(cfg, p.b, s) + 3
    else Distance(cfg, p, s)
  }

  /**
   Before the offer some admitted move always brings it closer: the timeouts get the setup over the end of the number.
   */
  lemma ShortReachesOffer(k: Configs, p: Pair, s: Session) returns (m: Move)
    requires ShortPremises(k, s) && ShortInv(k, p, s, None) && p.b.callState != Offered
    ensures InShort(k, p, m) && 0 <= ShortDistance(k.b, Next2(k, p, m), s) < ShortDistance(k.b, p, s)
  {
    if Waiting(k.b, p, s) { m := EndsTheWait(k, p, s); }
    else if Resumed(k.b, p, s) { m := HearsTheResumption(k, p, s); }
    else if ResumeHeard(k.b, p, s) { m := EndsTheResumption(k, p, s); }
    else { m := OnTheWayAdvances(k, p, s); }
  }

  lemma EndsTheWait(k: Configs, p: Pair, s: Session) returns (m: Move)
    requires ShortPremises(k, s) && Waiting(k.b, p, s)
    ensures InShort(k, p, m) && 0 <= ShortDistance(k.b, Next2(k, p, m), s) < ShortDistance(k.b, p, s)
  {
    var id := IdOf(p.b.timers, BackCycle);
    m := Move(false, Expire(id));
    WaitingDistance(k.b, p, s);
    EndsInShort(k, p, s, id);
    TimeoutAdvances(k.b, p, s, id);
  }

  lemma EndsInShort(k: Configs, p: Pair, s: Session, id: int)
    requires p.a.mfState == WaitingTimeout && p.b.mfState == DnisRqTxd
    requires id in p.b.timers.live && p.b.timers.live[id] == BackCycle
    ensures InShort(k, p, Move(false, Expire(id)))
    ensures Next2(k, p, Move(false, Expire(id))) == p.(b := TimerFires(k.b, p.b, id))
  {
  }

  lemma TimeoutAdvances(cfg: Config, p: Pair, s: Session, id: int)
    requires EndsBySilence(cfg) && Good(WithEnd(cfg), s) && Waiting(cfg, p, s) && id in p.b.timers.live
    ensures var q := p.(b := TimerFires(cfg, p.b, id)); 0 <= ShortDistance(cfg, q, s) < ShortDistance(cfg, p, s)
  {
    TakesSilenceForEnd(cfg, p, s, id);
    WaitingDistance(cfg, p, s);
    ResumedDistance(cfg, p, p.(b := TimerFires(cfg, p.b, id)), s);
  }

  lemma WaitingDistance(cfg: Config, p: Pair, s: Session)
    requires Waiting(cfg, p, s)
    ensures ShortDistance(cfg, p, s) == 4 * Left(cfg, p.b, s) + 1
    ensures p.a.mfState == WaitingTimeout && p.b.mfState == DnisRqTxd
    ensures IdOf(p.b.timers, BackCycle) in p.b.timers.live && p.b.timers.live[IdOf(p.b.timers, BackCycle)] == BackCycle
  {
    assert IdOf(p.a.timers, FwdSafety) in p.a.timers.live;
  }

  lemma ResumedDistance(cfg: Config, p: Pair, q: Pair, s: Session)
    requires Waiting(cfg, p, s) && Resumed(cfg, q, s) && q.b.num.ani == p.b.num.ani && |q.b.num.dnis| == |p.b.num.dnis|
    ensures 0 <= ShortDistance(cfg, q, s) < 4 * Left(cfg, p.b, s) + 1
  {
    ResumedAway(cfg, q, s);
    ResumedHasLessLeft(cfg, p.b, q.b, s);
  }

  lemma ResumedAway(cfg: Config, p: Pair, s: Session)
    requires Resumed(cfg, p, s)
    ensures ShortDistance(cfg, p, s) == 4 * Left(cfg, p.b, s) + 4
  {
    assert IdOf(p.a.timers, FwdSafety) in p.a.timers.live;
  }

  lemma ResumedHasLessLeft(cfg: Config, b: Chan, d: Chan, s: Session)
    requires b.mfState == DnisRqTxd && CalleeResumed(cfg, d, s)
    requires d.num.ani == b.num.ani && |d.num.dnis| == |b.num.dnis|
    ensures 0 <= Left(cfg, d, s) < Left(cfg, b, s)
  {
  }

  lemma HearsTheResumption(k: Configs, p: Pair, s: Session) returns (m: Move)
    requires ShortPremises(k, s) && Resumed(k.b, p, s)
    ensures InShort(k, p, m) && 0 <= ShortDistance(k.b, Next2(k, p, m), s) < ShortDistance(k.b, p, s)
  {
    m := Move(true, Listen(Reply(true, false)));
    HearsResumption(k, p, s, m.action.reply);
  }

  lemma EndsTheResumption(k: Configs, p: Pair, s: Session) returns (m: Move)
    requires ShortPremises(k, s) && ResumeHeard(k.b, p, s)
    ensures InShort(k, p, m) && 0 <= ShortDistance(k.b, Next2(k, p, m), s) < ShortDistance(k.b, p, s)
  {
    var id := IdOf(p.b.timers, BackResumeCycle);
    m := Move(false, Expire(id));
    TurnsRequestOff(k, p, s, id);
  }

  lemma OnTheWayAdvances(k: Configs, p: Pair, s: Session) returns (m: Move)
    requires ShortPremises(k, s) && OnTheWay(k, p, s, None) && p.b.callState != Offered
    ensures InShort(k, p, m) && 0 <= ShortDistance(k.b, Next2(k, p, m), s) < ShortDistance(k.b, p, s)
  {
    m := SetupReachesOffer(Ended(k), p, s);
    AdmittedAlike(k, p, m);
    AdmittedInShort(k, p, m);
    OnTheWayDistance(k, p, s, None);
    if RunsOut(k, p, s, None, m) {
      RunningOutAdvances(k, p, s, m);
    } else {
      MoveAlike(k, p, s, None, m);
      GoesOnTheWay(k, p, s, None, m);
      OnTheWayDistance(k, Next2(k, p, m), s, DecisionAfter(k, p, m, None));
    }
  }

  lemma AdmittedInShort(k: Configs, p: Pair, m: Move)
    requires InStep(k, p, m)
    ensures InShort(k, p, m)
  {
  }

  lemma OnTheWayDistance(k: Configs, p: Pair, s: Session, d: Option<Decision>)
    requires ShortPremises(k, s) && OnTheWay(k, p, s, d)
    ensures ShortDistance(k.b, p, s) == Distance(Ended(k).b, p, s)
  {
  }

  lemma RunningOutAdvances(k: Configs, p: Pair, s: Session, m: Move)
    requires ShortPremises(k, s) && OnTheWay(k, p, s, None) && RunsOut(k, p, s, None, m)
    ensures 0 <= ShortDistance(k.b, Next2(k, p, m), s) < Distance(Ended(k).b, p, s)
  {
    CallerRunsOut(k, p, s, m.action.reply);
    WaitingDistance(k.b, Next2(k, p, m), s);
  }

  // ---------------------------------------------------------------------------------------
  // A callee that accepts at the timeout

  /**
   A callee that accepts at once and has nothing left to ask for accepts on the timeout. No tone of the caller is on
   whose end would finish the acceptance, so the cycle timer of its acceptance runs on, and its expiry is a protocol
   error.
   */
  lemma AcceptingAtTimeoutFails(k: Configs, p: Pair, s: Session)
    requires Waiting(k.b, p, s) && k.b.g1.noMoreDnis == NO_TONE && AcceptsReadably(k.b)
    requires k.b.immediateAccept && (k.b.skipCategory || k.b.getAniFirst)
    ensures var q := p.(b := TimerFires(k.b, p.b, IdOf(p.b.timers, BackCycle)));
            var id := IdOf(q.b.timers, BackCycle);
            && q.b.callState == Offered && q.b.mfState == AcceptedTxd && q.b.writeTone == k.b.ga.addressComplete
            && id in q.b.timers.live && q.b.timers.live[id] == BackCycle
            && (forall u :: HandleMedia(k.b, q.b, q.a.writeTone, u) == q.b)
            && CountFaults(TimerFires(k.b, q.b, id).log) == CountFaults(p.b.log) + 1
  {
    var d := TimerFires(k.b, p.b, IdOf(p.b.timers, BackCycle));
    AcceptsWhenCycleExpires(k.b, p.b, s);
    AcceptanceTimesOut(k.b, d, IdOf(d.timers, BackCycle));
    forall u ensures HandleMedia(k.b, d, p.a.writeTone, u) == d { SameToneIgnored(k.b, d, p.a.writeTone, u); }
  }

  lemma AcceptsWhenCycleExpires(cfg: Config, b: Chan, s: Session)
    requires cfg.immediateAccept && (cfg.skipCategory || cfg.getAniFirst) && cfg.g1.noMoreDnis == NO_TONE
    requires AcceptsReadably(cfg) && CalleeBusy(b, s) && CycleRuns(b.timers) && Collected(cfg, b, s)
    requires b.mfState == DnisRqTxd && b.writeTone == NO_TONE
    ensures var d := TimerFires(cfg, b, IdOf(b.timers, BackCycle)); var id := IdOf(d.timers, BackCycle);
            && d.callState == Offered && d.mfState == AcceptedTxd && d.writeTone == cfg.ga.addressComplete
            && d.readTone == b.readTone && CountFaults(d.log) == CountFaults(b.log)
            && id in d.timers.live && d.timers.live[id] == BackCycle
  {
    var id := IdOf(b.timers, BackCycle);
    var tt := b.timers.(live := b.timers.live - {id});
    TimersResume(b.timers, id);
    AcceptsAtTimeout(cfg, b.(timers := tt));
    assert TimerFires(cfg, b, id) == MfBackCycleExpired(cfg, b.(timers := tt));
  }

  lemma AcceptanceTimesOut(cfg: Config, b: Chan, id: int)
    requires b.mfState == AcceptedTxd && id in b.timers.live && b.timers.live[id] == BackCycle
    ensures CountFaults(TimerFires(cfg, b, id).log) == CountFaults(b.log) + 1
  {
    var c := b.(timers := b.timers.(live := b.timers.live - {id}));
    assert TimerFires(cfg, b, id) == ProtocolError(c, BackMfTimeout);
  }

  lemma AcceptsAtTimeout(cfg: Config, b: Chan)
    requires cfg.immediateAccept && (cfg.skipCategory || cfg.getAniFirst) && cfg.g1.noMoreDnis == NO_TONE
    requires b.timers.live == map[] && b.direction == Backward && b.callState == Collecting
    requires b.mfState == DnisRqTxd && b.mfGroup == GA && b.writeTone == NO_TONE && cfg.ga.addressComplete != NO_TONE
    requires !SlotsFull(AddTimer(b.timers, BackResumeCycle))
    ensures var d := MfBackCycleExpired(cfg, b);
            && d == b.(mfState := AcceptedTxd, callState := Offered, writeTone := cfg.ga.addressComplete,
                       timers := AddTimer(AddTimer(b.timers, BackResumeCycle), BackCycle), log := d.log)
            && CountFaults(d.log) == CountFaults(b.log)
  {
  }
}
