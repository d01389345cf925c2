/**
 What the caller's and the callee's users can rely on when a call is set up between two channels:
 safety of every run, what is delivered, progress, and the conversation it leads to.
 */
module SetupTheorems {
  import opened Signals
  import opened Protocol
  import opened TwoEnds
  import opened Setup
  import Teardown

  // ---------------------------------------------------------------------------------------
  // Safety and delivery

  /**
   The premises of a setup: two channels at rest on an idle line, tone tables that agree and can be read, and a callee
   whose settings are taken care of, whether or not it accepts too soon.
   */
  ghost predicate SetupPremises(k: Configs, p: Pair, call: Call) {
    AtRest(p.a) && AtRest(p.b) && Unambiguous(k.a) && Unambiguous(k.b) && SameTones(k.a, k.b) && Serviceable(k.b) &&
    Dialable(k, call)
  }

  /** The digits the callee's user is promised: as many as it may want, at least one. */
  function PromisedDnis(k: Configs, call: Call): string
    requires call.dnis != ""
  {
    var digits := Truncated(call.dnis);
    digits[..Min(|digits|, Max(1, Uint32(k.b.maxDnis)))]
  }

  function PromisedAni(k: Configs, call: Call): string {
    if TakesAni(k.b) && call.ani.Some? && AllDigits(call.ani.value) then
      var digits := Truncated(call.ani.value); digits[..Min(|digits|, k.b.maxAni)]
    else ""
  }

  /** The tone the callee learns the category from, if it asks for it. */
  function CategorySeen(k: Configs, call: Call): Tone {
    if k.b.skipCategory then NO_TONE else CategoryToTone(k.a, call.category)
  }

  /**
   The callee asks for the rest of the number after the ANI, does not ask for the ANI first, or needs one digit only.
   */
  predicate ArrivesWhole(k: Configs, call: Call) {
    TakesAni(k.b) || !k.b.getAniFirst || |Truncated(call.dnis)| == 1 || Uint32(k.b.maxDnis) <= 1
  }

  /** What the callee's user is offered; the number is the one promised exactly when it arrives whole. */
  predicate OfferIsRight(k: Configs, p: Pair, call: Call, offer: Option<Event>)
    requires call.dnis != ""
  {
    && offer.Some? && offer.value.CallOffered?
    && offer.value.ani == PromisedAni(k, call)
    && (offer.value.dnis == PromisedDnis(k, call) <==> ArrivesWhole(k, call))
    && (!ArrivesWhole(k, call) ==> offer.value.dnis == call.dnis[..1])
    && offer.value.category == ToneToCategory(k.b, CategorySeen(k, call))
    && offer.value.restricted == RestrictedExpected(k.b, SessionOf(k.a, p, call))
  }

  /**
   In every interleaving neither end meets a protocol error; the callee is offered the caller's numbers and category;
   and what the caller's user hears is the callee's decision.
   */
  lemma SetupIsSafe(k: Configs, p: Pair, call: Call, moves: seq<Move>)
    requires SetupPremises(k, p, call) && !AcceptsTooSoon(k.b)
    requires Admitted(k, Dial(k.a, p, call), moves, InStepOf(k))
    ensures var q := Run2(k, Dial(k.a, p, call), moves);
            var d := FinalDecision(k, Dial(k.a, p, call), moves, None);
            && CountFaults(q.a.log) == CountFaults(p.a.log)
            && CountFaults(q.b.log) == CountFaults(p.b.log)
            && (q.b.callState == Offered || q.b.callState == Accepted || q.b.callState == Answered ==>
                  OfferIsRight(k, p, call, OfferMade(q.b.log)))
            && (d.None? ==> VerdictHeard(q.a.log) == None)
            && (VerdictHeard(q.a.log).Some? ==> VerdictHeard(q.a.log) == Some(Verdict(k.b, d.value)))
            && (q.a.callState == Answered ==> q.b.callState == Answered)
            && (q.b.callState == Answered ==> d.Some? && !d.value.Rejecting?)
  {
    var s := SessionOf(k.a, p, call);
    var q := Run2(k, Dial(k.a, p, call), moves);
    DialledIsSeized(k, p, call);
    SetupRun(k, Dial(k.a, p, call), s, None, moves);
    InvDelivers(k.b, q, s, FinalDecision(k, Dial(k.a, p, call), moves, None));
    if OfferedAsExpected(k.b, q.b, s) { ExpectedIsRight(k, p, call, q.b); }
  }

  lemma ExpectedIsRight(k: Configs, p: Pair, call: Call, b: Chan)
    requires Dialable(k, call) && OfferedAsExpected(k.b, b, SessionOf(k.a, p, call))
    ensures OfferIsRight(k, p, call, OfferMade(b.log))
  {
    ExpectedInRange(k.b, SessionOf(k.a, p, call));
    NumberOffered(k, p, call);
  }

  lemma NumberOffered(k: Configs, p: Pair, call: Call)
    requires Dialable(k, call)
    ensures var s := SessionOf(k.a, p, call);
            && 0 <= AniExpected(k.b, s) <= |s.ani| && 1 <= DnisExpected(k.b, s) <= |s.dnis|
            && s.ani[..AniExpected(k.b, s)] == PromisedAni(k, call)
            && (s.dnis[..DnisExpected(k.b, s)] == PromisedDnis(k, call) <==> ArrivesWhole(k, call))
            && (!ArrivesWhole(k, call) ==> s.dnis[..DnisExpected(k.b, s)] == call.dnis[..1])
  {
    var s := SessionOf(k.a, p, call);
    ExpectedInRange(k.b, s);
    assert |s.dnis[..DnisExpected(k.b, s)]| == DnisExpected(k.b, s);
    assert |PromisedDnis(k, call)| == DnisWanted(k.b, s);
    assert s.dnis[..1] == call.dnis[..1];
  }

  lemma InvDelivers(cfg: Config, q: Pair, s: Session, d: Option<Decision>)
    requires SetupInv(cfg, q, s, d) && |s.dnis| > 0
    ensures CountFaults(q.a.log) == s.faultsA && CountFaults(q.b.log) == s.faultsB
    ensures q.b.callState == Offered || q.b.callState == Accepted || q.b.callState == Answered ==>
              OfferedAsExpected(cfg, q.b, s)
    ensures d.None? ==> VerdictHeard(q.a.log) == None
    ensures VerdictHeard(q.a.log).Some? ==> VerdictHeard(q.a.log) == Some(Verdict(cfg, d.value))
    ensures q.a.callState == Answered ==> q.b.callState == Answered
    ensures q.b.callState == Answered ==> d.Some? && !d.value.Rejecting?
  {
  }

  // ---------------------------------------------------------------------------------------
  // Tone tables of the variants

  /**
   All variants but those of China and Mexico have a table this setup can be read with; not all can accept at once.
   */
  lemma VariantsUnambiguous(v: Variant, maxAni: int, maxDnis: int)
    ensures Unambiguous(Configure(v, maxAni, maxDnis)) <==> v != China && v != Mexico
    ensures v != China ==> Workable(Configure(v, maxAni, maxDnis))
    ensures AcceptsReadably(Configure(v, maxAni, maxDnis)) <==> v != Brazil && v != China && v != Mexico
  {
  }

  /** A category that was not asked for is offered as the first one the variant has no tone for. */
  lemma SkippedCategory(v: Variant, maxAni: int, maxDnis: int)
    ensures ToneToCategory(Configure(v, maxAni, maxDnis), NO_TONE) == if v == Brazil then PayPhone else CollectCall
  {
  }

  /** A category the variant has a tone for arrives as it was given; an unknown one as national subscriber. */
  lemma CategorySurvives(v: Variant, maxAni: int, maxDnis: int, category: Category)
    requires CategoryToTone(Configure(v, maxAni, maxDnis), category) != NO_TONE
    ensures var cfg := Configure(v, maxAni, maxDnis);
            ToneToCategory(cfg, CategoryToTone(cfg, category)) ==
            if category == UnknownCategory then NationalSubscriber else category
  {
  }

  /**
   An acceptance is heard as an acceptance; its mode is heard as it was given exactly for calls with and
   without charge, since a special call is reported as one without charge.
   */
  lemma AcceptanceHeard(v: Variant, maxAni: int, maxDnis: int, mode: CallMode)
    requires DecisionTone(Configure(v, maxAni, maxDnis), Accepting(mode)) != NO_TONE
    ensures var cfg := Configure(v, maxAni, maxDnis); var e := Heard(cfg, DecisionTone(cfg, Accepting(mode)));
            e.CallAccepted? && (e.mode == mode <==> mode == WithCharge || mode == NoCharge)
  {
  }

  /** The cause a rejection stands for: causes with no tone of their own are sent as congestion. */
  function CauseSent(cfg: Config, cause: Cause): Cause {
    match cause
    case BusyNumber => BusyNumber
    case UnallocatedNumber => UnallocatedNumber
    case OutOfOrder => OutOfOrder
    case NumberChanged => if cfg.gb.numberChanged != NO_TONE then NumberChanged else UnallocatedNumber
    case _ => NetworkCongestion
  }

  /**
   A rejection is heard with the cause sent, with two exceptions: Mexico has one tone for busy and unallocated,
   and Colombia's busy tone is the tone its table still keeps for a special acceptance.
   */
  lemma RejectionHeard(v: Variant, maxAni: int, maxDnis: int, cause: Cause)
    ensures var cfg := Configure(v, maxAni, maxDnis); var sent := CauseSent(cfg, cause);
            && DecisionTone(cfg, Rejecting(cause)) != NO_TONE
            && (Heard(cfg, DecisionTone(cfg, Rejecting(cause))) == CallDisconnect(sent) <==>
                  !(v == Mexico && sent == UnallocatedNumber) && !(v == Colombia && sent == BusyNumber))
  {
  }

  // ---------------------------------------------------------------------------------------
  // Progress

  /** How far the pair is from the offer. */
  function Distance(cfg: Config, p: Pair, s: Session): int {
    if p.a.r2State == SeizeTxd then
      4 * (|s.dnis| + |s.ani| + 4) + (if p.b.r2State == Idle then 3 else 2)
    else if p.b.callState == Offered then 0
    else
      1 + 4 * Left(cfg, p.b, s) +
      (if p.b.readTone == NO_TONE && p.a.writeTone != NO_TONE then 0
       else if p.a.readTone == NO_TONE then 3
       else if p.b.writeTone != NO_TONE then 2 else 1)
  }

  /** Before the offer every admitted move either changes nothing or brings it closer. */
  lemma SetupAdvances(k: Configs, p: Pair, s: Session, m: Move)
    requires Good(k.b, s) && Unambiguous(k.a) && SameTones(k.a, k.b) && InStep(k, p, m)
    requires SetupInv(k.b, p, s, None) && p.b.callState != Offered
    ensures Distance(k.b, p, s) > 0
    ensures Next2(k, p, m) == p || 0 <= Distance(k.b, Next2(k, p, m), s) < Distance(k.b, p, s)
  {
    if Seized(p, s) { SeizeAdvances(k, p, s, m); }
    else if SeizeSeen(p, s) { AcknowledgementAdvances(k, p, s, m); }
    else if !m.action.Listen? { QuietInBeats(k, p, s, m); }
    else if m.onA { CallerAdvances(k, p, s, m.action.reply); }
    else { CalleeAdvances(k, p, s, m.action.reply); }
  }

  lemma SeizeAdvances(k: Configs, p: Pair, s: Session, m: Move)
    requires Serviceable(k.b) && Seized(p, s) && InStep(k, p, m)
    ensures Distance(k.b, p, s) > 0
    ensures Next2(k, p, m) == p || 0 <= Distance(k.b, Next2(k, p, m), s) < Distance(k.b, p, s)
  {
  }

  lemma AcknowledgementAdvances(k: Configs, p: Pair, s: Session, m: Move)
    requires Good(k.b, s) && SameTones(k.a, k.b) && SeizeSeen(p, s) && InStep(k, p, m)
    ensures Distance(k.b, p, s) > 0
    ensures Next2(k, p, m) == p || 0 <= Distance(k.b, Next2(k, p, m), s) < Distance(k.b, p, s)
  {
    if m.onA && m.action.Sample? { SeizeAcknowledgedStarts(k.a, k.b, p, s); }
  }

  lemma CallerAdvances(k: Configs, p: Pair, s: Session, u: Reply)
    requires Good(k.b, s) && Unambiguous(k.a) && SameTones(k.a, k.b)
    requires Beat1(k.b, p, s) || Beat2(k.b, p, s) || Beat3(k.b, p, s) || Beat4(k.b, p, s)
    ensures Distance(k.b, p, s) > 0
    ensures var q := p.(a := HandleMedia(k.a, p.a, p.b.writeTone, u));
            if Beat2(k.b, p, s) || Beat4(k.b, p, s) then 0 <= Distance(k.b, q, s) < Distance(k.b, p, s) else q == p
  {
    if Beat1(k.b, p, s) || Beat3(k.b, p, s) { SameToneIgnored(k.a, p.a, p.b.writeTone, u); }
    else if Beat2(k.b, p, s) {
      CallerHearsRequest(k.b, p, s, u);
      MutingIgnoresLimits(k.a, k.b, p.a, p.b.writeTone, u);
    }
    else { CallerServes(k.a, k.b, p, s, u); }
  }

  lemma CalleeAdvances(k: Configs, p: Pair, s: Session, u: Reply)
    requires Good(k.b, s) && u.moreDnis
    requires Beat1(k.b, p, s) || Beat2(k.b, p, s) || Beat3(k.b, p, s) || Beat4(k.b, p, s)
    ensures Distance(k.b, p, s) > 0
    ensures var q := p.(b := HandleMedia(k.b, p.b, p.a.writeTone, u));
            if Beat1(k.b, p, s) || Beat3(k.b, p, s) then 0 <= Distance(k.b, q, s) < Distance(k.b, p, s) else q == p
  {
    assert Distance(k.b, p, s) > 0 by { BeatIsAway(k.b, p, s); }
    if Beat2(k.b, p, s) || Beat4(k.b, p, s) { NothingNewForCallee(k.b, p, s, u); }
    else if Beat1(k.b, p, s) { CalleeHearsAdvances(k.b, p, s, u); }
    else { CalleeHearsSilence(k.b, p, s, u); }
  }

  lemma NothingNewForCallee(cfg: Config, p: Pair, s: Session, u: Reply)
    requires Beat2(cfg, p, s) || Beat4(cfg, p, s)
    ensures p.(b := HandleMedia(cfg, p.b, p.a.writeTone, u)) == p
    ensures !Beat1(cfg, p, s) && !Beat3(cfg, p, s)
  {
    SameToneIgnored(cfg, p.b, p.a.writeTone, u);
  }

  lemma BeatIsAway(cfg: Config, p: Pair, s: Session)
    requires Good(cfg, s) && (Beat1(cfg, p, s) || Beat2(cfg, p, s) || Beat3(cfg, p, s) || Beat4(cfg, p, s))
    ensures Distance(cfg, p, s) > 0
  {
  }

  lemma CalleeHearsAdvances(cfg: Config, p: Pair, s: Session, u: Reply)
    requires Good(cfg, s) && Beat1(cfg, p, s) && u.moreDnis
    ensures var q := p.(b := HandleMedia(cfg, p.b, p.a.writeTone, u));
            0 <= Distance(cfg, q, s) < Distance(cfg, p, s)
  {
    var c := Taken(p.b, p.a.writeTone);
    ToneDispatched(cfg, p, s, u);
    ToneTaken(cfg, p, s);
    if p.b.mfState == ChgGiiTxd {
      OfferIsCloser(cfg, p, c, s);
    } else {
      CalleeAsksNext(cfg, p, s, u);
      ResponseIsCloser(cfg, p, c, Received(cfg, c, p.a.writeTone, u), s);
    }
  }

  lemma OfferIsCloser(cfg: Config, p: Pair, c: Chan, s: Session)
    requires Good(cfg, s) && Beat1(cfg, p, s) && p.b.mfState == ChgGiiTxd
    requires CalleeReady(c, s) && c == p.b.(readTone := p.a.writeTone, timers := c.timers)
    ensures 0 <= Distance(cfg, p.(b := OfferCall(cfg, c)), s) < Distance(cfg, p, s)
  {
  }

  lemma ResponseIsCloser(cfg: Config, p: Pair, c: Chan, d: Chan, s: Session)
    requires Beat1(cfg, p, s) && c == p.b.(readTone := p.a.writeTone, timers := c.timers) && Responds(cfg, p.a, c, d, s)
    ensures 0 <= Distance(cfg, p.(b := d), s) < Distance(cfg, p, s)
  {
  }

  /** Before the offer some admitted move always brings it closer: the setup cannot get stuck. */
  lemma SeizeSeenAdvances(k: Configs, p: Pair, s: Session)
    requires Good(k.b, s) && SameTones(k.a, k.b) && SeizeSeen(p, s)
    ensures 0 <= Distance(k.b, Next2(k, p, Move(true, Sample)), s) < Distance(k.b, p, s)
  {
    SeizeAcknowledgedStarts(k.a, k.b, p, s);
  }

  lemma SetupReachesOffer(k: Configs, p: Pair, s: Session) returns (m: Move)
    requires Good(k.b, s) && Unambiguous(k.a) && SameTones(k.a, k.b)
    requires SetupInv(k.b, p, s, None) && p.b.callState != Offered
    ensures InStep(k, p, m) && 0 <= Distance(k.b, Next2(k, p, m), s) < Distance(k.b, p, s)
  {
    var u := Reply(true, false);
    if Seized(p, s) { m := Move(false, Sample); SetupAdvances(k, p, s, m); }
    else if SeizeSeen(p, s) {
      m := Move(true, Sample);
      SeizeSeenAdvances(k, p, s);
    }
    else if Beat1(k.b, p, s) || Beat3(k.b, p, s) { m := Move(false, Listen(u)); CalleeAdvances(k, p, s, u); }
    else { m := Move(true, Listen(u)); CallerAdvances(k, p, s, u); }
  }

  /** How far a decision is from being told, by the tones that are on and heard. */
  function Stage(p: Pair): nat {
    if p.a.readTone == NO_TONE then (if p.b.writeTone == NO_TONE then 0 else 3)
    else if p.b.writeTone == NO_TONE then 1 else 2
  }

  lemma StageZeroIsTold(cfg: Config, p: Pair, s: Session, d: Decision)
    requires SetupInv(cfg, p, s, Some(d))
    ensures Stage(p) == 0 <==> Told(cfg, p, s, d)
  {
  }

  /** After the decision no admitted move leads away from the caller's user being told. */
  lemma DecisionStays(k: Configs, p: Pair, s: Session, d: Decision, m: Move)
    requires Good(k.b, s) && Unambiguous(k.a) && SameTones(k.a, k.b) && InStep(k, p, m)
    requires SetupInv(k.b, p, s, Some(d))
    ensures Stage(Next2(k, p, m)) <= Stage(p)
  {
    if Decided1(k.b, p, s, d) { Decided1Step(k, p, s, d, m); }
    else if Decided2(k.b, p, s, d) { Decided2Step(k, p, s, d, m); }
    else if Decided3(k.b, p, s, d) { Decided3Step(k, p, s, d, m); }
    else { ToldStep(k, p, s, d, m); }
  }

  /** And some admitted move always brings it closer, until the user is told. */
  lemma DecisionReachesUser(k: Configs, p: Pair, s: Session, d: Decision) returns (m: Move)
    requires Good(k.b, s) && Unambiguous(k.a) && SameTones(k.a, k.b)
    requires SetupInv(k.b, p, s, Some(d)) && Stage(p) > 0
    ensures InStep(k, p, m) && Stage(Next2(k, p, m)) < Stage(p)
  {
    var u := Reply(true, false);
    if Decided1(k.b, p, s, d) {
      m := Move(true, Listen(u));
      CallerHearsTone(k.a, k.b, p, s, d, u);
    } else if Decided2(k.b, p, s, d) {
      m := Move(false, Listen(u));
      CalleeHearsTheEnd(k.b, p, s, d, u);
    } else {
      m := Move(true, Listen(u));
      CallerHearsDecision(k.a, k.b, p, s, d, u);
    }
  }

  lemma CallerHearsTone(ka: Config, kb: Config, p: Pair, s: Session, d: Decision, u: Reply)
    requires Decided1(kb, p, s, d)
    ensures HandleMedia(ka, p.a, p.b.writeTone, u).readTone != NO_TONE
  {
    assert IdOf(p.a.timers, FwdSafety) !in p.a.timers.live;
  }

  // ---------------------------------------------------------------------------------------
  // From setup to conversation to rest

  /** Once the caller has seen the answer, the pair is in the state from which clearing was analysed. */
  lemma AnsweredIsConversation(cfg: Config, p: Pair, s: Session, d: Option<Decision>)
    requires SetupInv(cfg, p, s, d) && p.a.callState == Answered
    ensures Teardown.InConversation(p)
  {
  }

  /** A whole call, from the seize to the last clearing, meets no protocol error at either end. */
  lemma WholeCallIsSafe(k: Configs, p: Pair, call: Call, setup: seq<Move>, clearing: seq<Move>)
    requires SetupPremises(k, p, call) && !AcceptsTooSoon(k.b) && !Metering(k.a)
    requires Admitted(k, Dial(k.a, p, call), setup, InStepOf(k))
    requires var q := Run2(k, Dial(k.a, p, call), setup);
             q.a.callState == Answered && Admitted(k, q, clearing, Teardown.InTime)
    ensures var q := Run2(k, Run2(k, Dial(k.a, p, call), setup), clearing);
            CountFaults(q.a.log) == CountFaults(p.a.log) && CountFaults(q.b.log) == CountFaults(p.b.log)
  {
    var s := SessionOf(k.a, p, call);
    var q := Run2(k, Dial(k.a, p, call), setup);
    DialledIsSeized(k, p, call);
    SetupRun(k, Dial(k.a, p, call), s, None, setup);
    InvDelivers(k.b, q, s, FinalDecision(k, Dial(k.a, p, call), setup, None));
    AnsweredIsConversation(k.b, q, s, FinalDecision(k, Dial(k.a, p, call), setup, None));
    Teardown.TeardownIsSafe(k, q, clearing);
  }

  // ---------------------------------------------------------------------------------------
  // A callee that accepts too soon

  /** Both ends see the seize and its acknowledgement, and the first digit and the acceptance are exchanged. */
  function FirstDigitMoves(): seq<Move> {
    [Move(false, Sample), Move(true, Sample), Move(false, Listen(Reply(true, false)))]
  }

  function SilenceMoves(): seq<Move> {
    [Move(true, Listen(Reply(true, false))), Move(false, Listen(Reply(true, false)))]
  }

  function TooSoonMoves(): seq<Move> { FirstDigitMoves() + SilenceMoves() }

  /**
   A callee that skips the category, accepts at once and is done with the number at its first digit has not entered
   group A when it accepts. The silence that follows is then a protocol error, not the acceptance.
   */
  lemma AcceptingTooSoonFails(k: Configs, p: Pair, call: Call)
    requires SetupPremises(k, p, call) && AcceptsTooSoon(k.b)
    ensures Admitted(k, Dial(k.a, p, call), TooSoonMoves(), InStepOf(k))
    ensures CountFaults(Run2(k, Dial(k.a, p, call), TooSoonMoves()).b.log) == CountFaults(p.b.log) + 1
  {
    var p0 := Dial(k.a, p, call);
    AcceptsOnFirstDigit(k, p, call);
    FailsInSilence(k, Run2(k, p0, FirstDigitMoves()), CountFaults(p.b.log));
    Run2Concat(k, p0, FirstDigitMoves(), SilenceMoves());
    TooSoonAdmitted(k, p0);
  }

  lemma TooSoonAdmitted(k: Configs, p: Pair)
    ensures Admitted(k, p, TooSoonMoves(), InStepOf(k))
  {
    QuietMovesAdmitted(k, p, TooSoonMoves());
  }

  lemma AcceptsOnFirstDigit(k: Configs, p: Pair, call: Call)
    requires SetupPremises(k, p, call) && AcceptsTooSoon(k.b)
    ensures TooSoon(k.b, Run2(k, Dial(k.a, p, call), FirstDigitMoves()), CountFaults(p.b.log))
  {
    var s, u := SessionOf(k.a, p, call), Reply(true, false);
    var p0 := Dial(k.a, p, call);
    DialledIsSeized(k, p, call);
    FirstDigitSent(k, p0, s);
    FirstDigitAccepted(k, Next2(k, Next2(k, p0, Move(false, Sample)), Move(true, Sample)), s, u);
    ThreeMoves(k, p0, Move(false, Sample), Move(true, Sample), Move(false, Listen(u)));
  }

  lemma FirstDigitSent(k: Configs, p: Pair, s: Session)
    requires Fair(k.b, s) && SameTones(k.a, k.b) && Seized(p, s)
    ensures var q := Next2(k, Next2(k, p, Move(false, Sample)), Move(true, Sample));
            Beat1(k.b, q, s) && q.b.mfState == MfSeizeAckTxd && CountFaults(q.b.log) == s.faultsB
  {
    var q := Next2(k, p, Move(false, Sample));
    SeizeIsSeen(k, p, s);
    SeizeAcknowledgedStarts(k.a, k.b, q, s);
    assert Next2(k, q, Move(true, Sample)) == q.(a := HandleCas(k.a, q.a, BITS_SEIZE_ACK));
  }

  lemma FirstDigitAccepted(k: Configs, p: Pair, s: Session, u: Reply)
    requires Fair(k.b, s) && AcceptsTooSoon(k.b) && Beat1(k.b, p, s) && p.b.mfState == MfSeizeAckTxd
    ensures TooSoon(k.b, Next2(k, p, Move(false, Listen(u))), CountFaults(p.b.log))
  {
    FirstDigitIsLast(k.b, p, s, u);
  }

  /** The caller has yet to hear the acceptance of a callee that has not entered group A. */
  predicate TooSoon(cfg: Config, p: Pair, faults: nat) {
    && AcceptedInitially(cfg, p.b, faults) && cfg.ga.addressComplete != NO_TONE
    && p.a.direction == Forward && p.a.mfState != MfOff && p.a.readTone == NO_TONE
  }

  lemma FailsInSilence(k: Configs, p: Pair, faults: nat)
    requires TooSoon(k.b, p, faults)
    ensures CountFaults(Run2(k, p, SilenceMoves()).b.log) == faults + 1
  {
    var u := Reply(true, false);
    HearsTooSoon(k.a, p.a, p.b.writeTone, u);
    SilenceTooSoon(k.b, p.b, u);
    TwoMoves(k, p, Move(true, Listen(u)), Move(false, Listen(u)));
  }

  lemma {:induction false} QuietMovesAdmitted(k: Configs, p: Pair, moves: seq<Move>)
    requires forall i :: 0 <= i < |moves| ==>
               moves[i].action.Sample? || (moves[i].action.Listen? && moves[i].action.reply == Reply(true, false))
    ensures Admitted(k, p, moves, InStepOf(k))
    decreases |moves|
  {
    if moves != [] {
      assert InStep(k, p, moves[0]);
      QuietMovesAdmitted(k, Next2(k, p, moves[0]), moves[1..]);
    }
  }

  lemma SeizeIsSeen(k: Configs, p: Pair, s: Session)
    requires Serviceable(k.b) && Seized(p, s)
    ensures SeizeSeen(Next2(k, p, Move(false, Sample)), s)
  {
  }

  /** The callee accepts in the group it started in, with its tone on the line. */
  predicate AcceptedInitially(cfg: Config, b: Chan, faults: nat) {
    b.mfGroup == BackInit && b.mfState == AcceptedTxd && b.direction == Backward &&
    b.writeTone == cfg.ga.addressComplete && b.readTone != NO_TONE && CountFaults(b.log) == faults
  }

  lemma FirstDigitIsLast(cfg: Config, p: Pair, s: Session, u: Reply)
    requires Fair(cfg, s) && AcceptsTooSoon(cfg) && Beat1(cfg, p, s) && p.b.mfState == MfSeizeAckTxd
    ensures AcceptedInitially(cfg, HandleMedia(cfg, p.b, p.a.writeTone, u), CountFaults(p.b.log))
  {
    var c := Taken(p.b, p.a.writeTone);
    ToneDispatched(cfg, p, s, u);
    ToneTaken(cfg, p, s);
    FirstDigitAcceptedAtOnce(cfg, p, c, s, u);
  }

  lemma FirstDigitAcceptedAtOnce(cfg: Config, p: Pair, c: Chan, s: Session, u: Reply)
    requires Fair(cfg, s) && AcceptsTooSoon(cfg) && Beat1(cfg, p, s) && p.b.mfState == MfSeizeAckTxd
    requires c == p.b.(readTone := p.a.writeTone, timers := c.timers)
    ensures AcceptedInitially(cfg, ReceiveDnis(cfg, c, p.a.writeTone, u), CountFaults(p.b.log))
  {
    var d := StoreDnis(c, p.a.writeTone);
    assert d.direction == Backward && d.callState == Collecting && |d.num.dnis| == 1 && IsDigit(p.a.writeTone);
    assert ReceiveDnis(cfg, c, p.a.writeTone, u) == BypassChangeToG2(cfg, d) by {
      OneDigitIsEnough(cfg, c, p.a.writeTone, u);
    }
    BypassOffers(cfg, d);
  }

  lemma OneDigitIsEnough(cfg: Config, c: Chan, tone: Tone, u: Reply)
    requires Serviceable(cfg) && AcceptsTooSoon(cfg) && IsDigit(tone) && |StoreDnis(c, tone).num.dnis| == 1
    ensures ReceiveDnis(cfg, c, tone, u) == BypassChangeToG2(cfg, StoreDnis(c, tone))
  {
  }

  lemma BypassOffers(cfg: Config, c: Chan)
    requires c.direction == Backward && c.callState == Collecting
    ensures var d := BypassChangeToG2(cfg, c);
            && d.mfState == AcceptedTxd && d.mfGroup == c.mfGroup && d.direction == Backward && d.readTone == c.readTone
            && d.writeTone == cfg.ga.addressComplete && CountFaults(d.log) == CountFaults(c.log)
  {
  }

  lemma HearsTooSoon(cfg: Config, a: Chan, tone: Tone, u: Reply)
    requires a.direction == Forward && a.mfState != MfOff && a.readTone == NO_TONE && tone != NO_TONE
    ensures HandleMedia(cfg, a, tone, u).writeTone == NO_TONE
  {
  }

  lemma SilenceTooSoon(cfg: Config, b: Chan, u: Reply)
    requires AcceptedInitially(cfg, b, CountFaults(b.log))
    ensures CountFaults(HandleMedia(cfg, b, NO_TONE, u).log) == CountFaults(b.log) + 1
  {
    SilenceOutsideGroups(b);
    assert HandleMedia(cfg, b, NO_TONE, u) == HandleForwardSilence(b).(readTone := NO_TONE);
  }

  lemma SilenceOutsideGroups(c: Chan)
    requires c.mfGroup == BackInit
    ensures CountFaults(HandleForwardSilence(c).log) == CountFaults(c.log) + 1
  {
  }

  /**
   So a setup meets no protocol error, whatever the interleaving, exactly when the callee does not accept too soon.
   */
  lemma SetupSafeExactly(k: Configs, p: Pair, call: Call)
    requires SetupPremises(k, p, call)
    ensures (forall moves :: Admitted(k, Dial(k.a, p, call), moves, InStepOf(k)) ==>
                               Faultless(k, p, call, moves)) <==> !AcceptsTooSoon(k.b)
  {
    if AcceptsTooSoon(k.b) {
      AcceptingTooSoonFails(k, p, call);
      assert !Faultless(k, p, call, TooSoonMoves());
    } else {
      forall moves | Admitted(k, Dial(k.a, p, call), moves, InStepOf(k)) ensures Faultless(k, p, call, moves) {
        SetupIsSafe(k, p, call, moves);
      }
    }
  }

  predicate Faultless(k: Configs, p: Pair, call: Call, moves: seq<Move>) {
    var q := Run2(k, Dial(k.a, p, call), moves);
    CountFaults(q.a.log) == CountFaults(p.a.log) && CountFaults(q.b.log) == CountFaults(p.b.log)
  }
}
