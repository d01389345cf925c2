/**
 The table of the register signals for a called channel: what it takes each tone for, what it asks for next, and what
 it does when the caller is silent. Like the table of the caller it is written apart from the handlers.
 */
module CalleeTable {
  import opened Signals
  import opened Protocol
  import opened LineTable
  import opened RegisterTable

  // ---------------------------------------------------------------------------------------
  // What is asked for next

  datatype Ask = NextDigit | NextCallerDigit | Category | Decision | GroupII

  /** The limits are compared as unsigned. */
  predicate Enough(digits: nat, limit: int) { digits >= (if limit < 0 then limit + 4294967296 else limit) }

  /**
   With a DNIS digit: the category of the caller after the first digit where the caller comes first, and after the last
   where not; then the decision.
   */
  function AfterDigit(cfg: Config, digits: nat, more: bool): Ask {
    var last := Enough(digits, cfg.maxDnis) || !more;
    if (digits == 1 && cfg.getAniFirst) || (last && !cfg.getAniFirst) then Category
    else if last then Decision
    else NextDigit
  }

  /** With the tone for the end of the number. */
  function AfterLastDigit(cfg: Config, digits: nat): Ask {
    if cfg.getAniFirst && digits > 0 then Decision else Category
  }

  /** With the category: the number of the caller if any of it is wanted. Group C is always left for group II. */
  function AfterCategory(cfg: Config, group: MfGroup): Ask {
    if cfg.maxAni > 0 then NextCallerDigit else if group == GC then GroupII else Decision
  }

  /** With the whole number of the caller. */
  function AfterCaller(cfg: Config, digits: nat): Ask {
    if cfg.getAniFirst && !Enough(digits, cfg.maxDnis) then NextDigit else Decision
  }

  // ---------------------------------------------------------------------------------------
  // How it is asked for

  /** A tone is put on the line with the cycle timer running, unless it is there already. */
  function Sounds(c: Chan, tone: Tone): Chan {
    if tone == '\0' then c.(writeTone := '\0')
    else if tone == c.writeTone then c
    else Timed(c.(writeTone := tone), None, Some(BackCycle))
  }

  /** The user is offered the call as far as it is known. */
  function Offers(cfg: Config, c: Chan): Chan {
    if c.callState == Collecting then
      c.(callState := Offered,
         log := Snoc(c.log, CallOffered(c.num.ani, c.num.dnis, ToneToCategory(cfg, c.num.category), c.num.restricted)))
    else Rested(c, c.casRead, ProtocolFault(InvalidR2State))
  }

  function AsksGroupII(cfg: Config, c: Chan): Chan {
    Sounds(c.(mfGroup := GB, mfState := ChgGiiTxd), if c.mfGroup == GC then cfg.gc.changeToG2 else cfg.ga.changeToG2)
  }

  /** A category that is skipped is not asked for, and a call accepted at once is offered with the acceptance. */
  function Asks(cfg: Config, c: Chan, ask: Ask): Chan {
    match ask
    case NextDigit =>
      Sounds(c.(mfGroup := GA, mfState := DnisRqTxd), if c.mfGroup == GC then cfg.gc.nextDnisAndGa else cfg.ga.nextDnis)
    case NextCallerDigit =>
      Sounds(c.(mfState := AniRqTxd), if cfg.gc.nextAni == '\0' then cfg.ga.nextAni else cfg.gc.nextAni)
    case Category =>
      if cfg.skipCategory then Decides(cfg, c)
      else if cfg.ga.category != '\0' then Sounds(c.(mfGroup := GA, mfState := CategoryRqTxd), cfg.ga.category)
      else Sounds(c.(mfGroup := GC, mfState := CategoryRqTxd), cfg.ga.categoryAndGc)
    case Decision => Decides(cfg, c)
    case GroupII => AsksGroupII(cfg, c)
  }

  function Decides(cfg: Config, c: Chan): Chan {
    if cfg.immediateAccept then Offers(cfg, Sounds(c.(mfState := AcceptedTxd), cfg.ga.addressComplete))
    else AsksGroupII(cfg, c)
  }

  // ---------------------------------------------------------------------------------------
  // What a tone is taken for

  datatype Item = DnisItem | AniItem | CategoryItem | GroupIIItem | Unexpected(reason: ErrorReason)

  function Awaited(cfg: Config, c: Chan): Item {
    match c.mfState
    case MfSeizeAckTxd =>
      if c.mfGroup != BackInit then Misplaced(c) else if cfg.getAniFirst &&
          cfg.aniCanComeFirst then AniItem else DnisItem
    case DnisRqTxd => if c.mfGroup == GA then DnisItem else Misplaced(c)
    case CategoryRqTxd => if c.mfGroup == GA || c.mfGroup == GC then CategoryItem else Misplaced(c)
    case AniRqTxd => if c.mfGroup == GA || c.mfGroup == GC then AniItem else Misplaced(c)
    case ChgGiiTxd => if c.mfGroup == GB then GroupIIItem else Misplaced(c)
    case _ => Misplaced(c)
  }

  function Misplaced(c: Chan): Item {
    Unexpected(if c.mfGroup == BackInit || c.mfGroup == GA || c.mfGroup == GB || c.mfGroup == GC then InvalidMfState
               else InvalidMfGroup)
  }

  predicate Decimal(tone: Tone) {
    tone == '0' || tone == '1' || tone == '2' || tone == '3' || tone == '4' ||
    tone == '5' || tone == '6' || tone == '7' || tone == '8' || tone == '9'
  }

  /** A digit is kept as long as there is room for it; the user hears of every digit. */
  function Hears(cfg: Config, c: Chan, tone: Tone, u: Reply): Chan {
    var wrong := Rested(c, c.casRead, ProtocolFault(InvalidMfTone));
    match Awaited(cfg, c)
    case DnisItem =>
      if Decimal(tone) then
        var dnis := if |c.num.dnis| == 79 then c.num.dnis else c.num.dnis + [tone];
        Asks(cfg, c.(num := c.num.(dnis := dnis), log := Snoc(c.log, DnisDigit(tone))),
             AfterDigit(cfg, |dnis|, u.moreDnis))
      else if tone == cfg.g1.noMoreDnis then Asks(cfg, c, AfterLastDigit(cfg, |c.num.dnis|))
      else wrong
    case AniItem =>
      if Decimal(tone) then
        var ani := c.num.ani + [tone];
        Asks(cfg, c.(num := c.num.(ani := ani), log := Snoc(c.log, AniDigit(tone))),
             if cfg.forceMaxAni || Enough(|ani|, cfg.maxAni) then AfterCaller(cfg, |c.num.dnis|) else NextCallerDigit)
      else if tone == cfg.g1.restricted then
        Asks(cfg, c.(num := c.num.(restricted := true)), AfterCaller(cfg, |c.num.dnis|))
      else if tone == cfg.g1.noMoreAni then Asks(cfg, c, AfterCaller(cfg, |c.num.dnis|))
      else wrong
    case CategoryItem => Asks(cfg, c.(num := c.num.(category := tone)), AfterCategory(cfg, c.mfGroup))
    case GroupIIItem => Offers(cfg, c)
    case Unexpected(reason) => Rested(c, c.casRead, ProtocolFault(reason))
  }

  /** The caller is silent: so is the callee, and an acceptance or a rejection is over. */
  function Falls(c: Chan): Chan {
    var d := c.(writeTone := '\0');
    if c.mfState == AcceptedTxd && (c.mfGroup == GA || c.mfGroup == GB) then
      Timed(MfStopped(d).(callState := Accepted), None, Some(AnswerDelay))
    else match c.mfGroup
      case GA => d
      case GC => d
      case GB =>
        if c.mfState == DisconnectTxd then d.(timers := TimerTable(1, map[], map[]))
        else if c.mfState == ChgGiiTxd then d
        else Rested(c, c.casRead, ProtocolFault(InvalidMfState))
      case _ => Rested(c, c.casRead, ProtocolFault(InvalidMfGroup))
  }

  // ---------------------------------------------------------------------------------------
  // The handlers follow the table

  lemma SoundsPrepared(c: Chan, tone: Tone)
    requires c.direction == Backward
    ensures PrepareTone(c, tone) == Sounds(c, tone)
  {
  }

  lemma OffersCall(cfg: Config, c: Chan)
    ensures OfferCall(cfg, c) == Offers(cfg, c)
  {
  }

  lemma DecidesCall(cfg: Config, c: Chan)
    requires c.direction == Backward
    ensures TryChangeToG2(cfg, c) == Decides(cfg, c) && RequestChangeToG2(cfg, c) == AsksGroupII(cfg, c)
  {
    SoundsPrepared(c.(mfState := AcceptedTxd), cfg.ga.addressComplete);
    OffersCall(cfg, Sounds(c.(mfState := AcceptedTxd), cfg.ga.addressComplete));
    SoundsPrepared(c.(mfGroup := GB, mfState := ChgGiiTxd),
                   if c.mfGroup == GC then cfg.gc.changeToG2 else cfg.ga.changeToG2);
  }

  lemma AsksCategory(cfg: Config, c: Chan)
    requires c.direction == Backward
    ensures TryRequestCategory(cfg, c) == Asks(cfg, c, Category)
  {
    DecidesCall(cfg, c);
    SoundsPrepared(c.(mfGroup := GA, mfState := CategoryRqTxd), cfg.ga.category);
    SoundsPrepared(c.(mfGroup := GC, mfState := CategoryRqTxd), cfg.ga.categoryAndGc);
  }

  lemma AsksDigits(cfg: Config, c: Chan)
    requires c.direction == Backward
    ensures RequestNextDnis(cfg, c) == Asks(cfg, c, NextDigit)
    ensures RequestNextAni(cfg, c) == Asks(cfg, c, NextCallerDigit)
  {
  }

  lemma HearsDigit(cfg: Config, c: Chan, tone: Tone, u: Reply)
    requires c.direction == Backward && Awaited(cfg, c) == DnisItem
    ensures ReceiveDnis(cfg, c, tone, u) == Hears(cfg, c, tone, u)
  {
    var d := if Decimal(tone) then StoreDnis(c, tone) else c;
    AsksCategory(cfg, d);
    DecidesCall(cfg, d);
    AsksDigits(cfg, d);
  }

  lemma HearsCaller(cfg: Config, c: Chan, tone: Tone, u: Reply)
    requires c.direction == Backward && Awaited(cfg, c) == AniItem && tone != '\0'
    ensures ReceiveAni(cfg, c, tone) == Hears(cfg, c, tone, u)
  {
    if Decimal(tone) {
      var d := Emit(c.(num := c.num.(ani := c.num.ani + [tone])), AniDigit(tone));
      AsksDigits(cfg, d);
      AsksAfterCaller(cfg, d);
    } else {
      AsksAfterCaller(cfg, if tone == cfg.g1.restricted then c.(num := c.num.(restricted := true)) else c);
    }
  }

  lemma AsksAfterCaller(cfg: Config, c: Chan)
    requires c.direction == Backward
    ensures AfterAni(cfg, c) == Asks(cfg, c, AfterCaller(cfg, |c.num.dnis|))
  {
    DecidesCall(cfg, c);
    AsksDigits(cfg, c);
  }

  lemma HearsCategory(cfg: Config, c: Chan, tone: Tone, u: Reply)
    requires c.direction == Backward && Awaited(cfg, c) == CategoryItem
    ensures ReceiveCategory(cfg, c, tone) == Hears(cfg, c, tone, u)
  {
    var d := c.(num := c.num.(category := tone));
    DecidesCall(cfg, d);
    AsksDigits(cfg, d);
  }

  lemma HearsTone(cfg: Config, c: Chan, tone: Tone, u: Reply)
    requires c.direction == Backward && tone != '\0'
    ensures HandleForwardTone(cfg, c, tone, u) ==
            Hears(cfg, c.(timers := CancelTimer(c.timers, BackCycle)), tone, u)
  {
    var d := c.(timers := CancelTimer(c.timers, BackCycle));
    match Awaited(cfg, d) {
      case DnisItem => HearsDigit(cfg, d, tone, u);
      case AniItem => HearsCaller(cfg, d, tone, u);
      case CategoryItem => HearsCategory(cfg, d, tone, u);
      case GroupIIItem => OffersCall(cfg, d);
      case Unexpected(_) =>
    }
  }

  /** A tone of the caller: its cycle timer is stopped and it is taken for what was asked for. */
  lemma CalleeFollowsTable(cfg: Config, c: Chan, tone: Tone, u: Reply)
    requires c.direction == Backward && c.readTone == '\0' && tone != '\0'
    ensures HandleMfTone(cfg, c, tone, u) ==
            Hears(cfg, c.(readTone := tone, timers := CancelTimer(c.timers, BackCycle)), tone, u)
  {
    assert HandleMfTone(cfg, c, tone, u) == HandleForwardTone(cfg, c.(readTone := tone), tone, u);
    HearsTone(cfg, c.(readTone := tone), tone, u);
  }

  lemma AcceptanceFalls(c: Chan)
    requires c.mfState == AcceptedTxd && (c.mfGroup == GA || c.mfGroup == GB)
    ensures HandleForwardSilence(c) == Falls(c)
  {
    var d := c.(writeTone := '\0');
    assert SetSilence(c) == d;
    assert HandleForwardSilence(c) == FinishAccept(d);
  }

  lemma OtherToneFalls(c: Chan)
    requires !(c.mfState == AcceptedTxd && (c.mfGroup == GA || c.mfGroup == GB))
    ensures HandleForwardSilence(c) == Falls(c)
  {
    assert SetSilence(c) == c.(writeTone := '\0');
  }

  /** The silence of the caller. */
  lemma SilenceFollowsTable(cfg: Config, c: Chan, u: Reply)
    requires c.direction == Backward && c.readTone != '\0'
    ensures HandleMfTone(cfg, c, '\0', u) == Falls(c).(readTone := '\0')
  {
    assert HandleMfTone(cfg, c, '\0', u) == HandleForwardSilence(c).(readTone := '\0');
    if c.mfState == AcceptedTxd && (c.mfGroup == GA || c.mfGroup == GB) { AcceptanceFalls(c); } else
        { OtherToneFalls(c); }
  }
}
