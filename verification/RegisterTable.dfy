/**
 The table of the register signals: what every tone asks of a calling channel, what a called channel takes every tone
 for, and what they send. It is written by meaning, as Tables 6 to 9 of ITU-T Recommendation Q.441 are, and apart from
 the handlers; these follow it.
 */
module RegisterTable {
  import opened Signals
  import opened Protocol
  import opened LineTable

  // ---------------------------------------------------------------------------------------
  // What a tone asks of the caller

  datatype Request =
    | Digit(index: int, group: MfGroup)
    | CallerDigit
    | WhoCalls(group: MfGroup)
    | Accepts(mode: CallMode)
    | Refuses(cause: Cause)
    | Senseless

  datatype Row = Row(tone: Tone, request: Request)

  /** So many digits back, but not past the first. */
  function Back(index: int, digits: int): int { if index < digits then 0 else index - digits }

  /** Group A, of which only a caller that has sent its category takes the request for its number. */
  function GroupA(cfg: Config, n: Numbers): seq<Row> {
    var who := if cfg.ga.category != '\0' then cfg.ga.category else cfg.ga.categoryAndGc;
    [Row(cfg.ga.nextDnis, Digit(n.dnisIndex + 1, GI)),
     Row(cfg.ga.dnisMinus1, Digit(Back(n.dnisIndex, 1), GI)),
     Row(cfg.ga.dnisMinus2, Digit(Back(n.dnisIndex, 2), GI)),
     Row(cfg.ga.dnisMinus3, Digit(Back(n.dnisIndex, 3), GI)),
     Row(cfg.ga.allDnisAgain, Digit(0, GI)),
     Row(if n.categorySent then cfg.ga.nextAni else '\0', CallerDigit),
     Row(who, WhoCalls(if who == cfg.ga.categoryAndGc then GIII else GI)),
     Row(cfg.ga.changeToG2, WhoCalls(GII)),
     Row(cfg.ga.addressComplete, Accepts(WithCharge)),
     Row(cfg.ga.congestion, Refuses(NetworkCongestion))]
  }

  /** Group B. A tone for special information is an acceptance without charge where there is such a tone. */
  function GroupB(cfg: Config): seq<Row> {
    [Row(cfg.gb.acceptCharge, Accepts(WithCharge)),
     Row(cfg.gb.acceptNoCharge, Accepts(NoCharge)),
     Row(cfg.gb.specialInfo, Accepts(if cfg.gb.acceptNoCharge != '\0' then NoCharge else Special)),
     Row(cfg.gb.busy, Refuses(BusyNumber)),
     Row(cfg.gb.congestion, Refuses(NetworkCongestion)),
     Row(cfg.gb.unallocated, Refuses(UnallocatedNumber)),
     Row(cfg.gb.numberChanged, Refuses(NumberChanged)),
     Row(cfg.gb.outOfOrder, Refuses(OutOfOrder))]
  }

  /** Group C, of Mexico. */
  function GroupC(cfg: Config, n: Numbers): seq<Row> {
    [Row(cfg.gc.nextAni, CallerDigit),
     Row(cfg.gc.changeToG2, WhoCalls(GII)),
     Row(cfg.gc.nextDnisAndGa, Digit(n.dnisIndex + 1, GI)),
     Row(cfg.gc.congestion, Refuses(NetworkCongestion))]
  }

  /** A tone is taken for the first row it is in; NUL is no tone. */
  function Lookup(rows: seq<Row>, tone: Tone): Request
    decreases |rows|
  {
    if rows == [] then Senseless
    else if rows[0].tone == tone then rows[0].request
    else Lookup(rows[1..], tone)
  }

  // ---------------------------------------------------------------------------------------
  // What the caller does

  /** The digit with the index, the tone for the end of the number, once, or silence with the safety timer running. */
  function SendsDigit(cfg: Config, c: Chan, index: int, group: MfGroup): Chan {
    var d := c.(mfGroup := group, num := c.num.(dnisIndex := index));
    if 0 <= index < |c.num.dnis| && c.num.dnis[index] != '\0' then
        d.(mfState := DnisTxd, writeTone := c.num.dnis[index])
    else if cfg.g1.noMoreDnis != '\0' && c.mfState != DnisEndTxd && c.mfState != WaitingTimeout then
      d.(mfState := DnisEndTxd, writeTone := cfg.g1.noMoreDnis)
    else Timed(d.(mfState := WaitingTimeout), None, Some(FwdSafety))
  }

  /** How many digits of its number the caller has not sent; a caller without a number has none. */
  function CallerDigitsLeft(n: Numbers): int {
    if n.aniPtr.None? || n.aniPtr.value < 0 then 0 else |n.ani| - n.aniPtr.value
  }

  /** After the end of its number a request that could be for DNIS is one. */
  function SendsCallerDigit(cfg: Config, c: Chan): Chan {
    if c.mfState == AniEndTxd && (cfg.ga.nextDnis == cfg.ga.nextAni || cfg.ga.nextDnis == cfg.gc.nextAni) then
      SendsDigit(cfg, c, c.num.dnisIndex + 1, GI)
    else if c.num.aniPtr.Some? && CallerDigitsLeft(c.num) > 0 && c.num.ani[c.num.aniPtr.value] != '\0' then
      c.(mfState := AniTxd, writeTone := c.num.ani[c.num.aniPtr.value],
         num := c.num.(aniPtr := Some(c.num.aniPtr.value + 1)))
    else
      var tone := if c.num.aniPtr.None? && cfg.g1.restricted != '\0' then cfg.g1.restricted
                  else if !c.num.restricted then cfg.g1.noMoreAni else cfg.g1.restricted;
      if tone != '\0' then c.(mfState := AniEndTxd, writeTone := tone)
      else Timed(c.(mfState := WaitingTimeout), None, Some(FwdSafety))
  }

  /** The user hangs up from inside on_call_accepted: clear forward. */
  function HangsUp(c: Chan): Chan {
    var d := MfStopped(Timed(c.(log := Snoc(c.log, UserHangup)), None, Some(SetCallDown)));
    d.(r2State := ClearFwdTxd, casTx := CasClearForward)
  }

  /** An acceptance starts the answer timer, unless the answer was on the line already. */
  function IsAccepted(c: Chan, mode: CallMode, drop: bool): Chan {
    var pending := c.r2State == AnswerRxdMfPending;
    var t := if pending then c else Timed(c, None, Some(Answer));
    var d := t.(r2State := AcceptRxd, log := Snoc(t.log, CallAccepted(mode)));
    if drop then HangsUp(d)
    else if pending then
      MfStopped(d.(r2State := AnswerRxd, callState := Answered, answered := true,
                   timers := CancelTimer(d.timers, Answer), log := Snoc(d.log, CallAnswered)))
    else d
  }

  function Served(cfg: Config, c: Chan, q: Request, u: Reply): Chan {
    match q
    case Digit(index, group) => SendsDigit(cfg, c, index, group)
    case CallerDigit => SendsCallerDigit(cfg, c)
    case WhoCalls(group) =>
      c.(mfGroup := group, mfState := CategoryTxd, writeTone := c.num.category, num := c.num.(categorySent := true))
    case Accepts(mode) => IsAccepted(c, mode, u.dropOnAccept)
    case Refuses(cause) =>
      c.(r2State := ClearBackToneRxd, callState := Disconnected, log := Snoc(c.log, CallDisconnect(cause)))
    case Senseless => Rested(c, c.casRead, ProtocolFault(InvalidMfTone))
  }

  function CallerTable(cfg: Config, c: Chan): seq<Row> {
    match c.mfGroup
    case GI => GroupA(cfg, c.num)
    case GII => GroupB(cfg)
    case GIII => GroupC(cfg, c.num)
    case _ => []
  }

  /** A caller: in a call, with a tone of the far end that it has read. */
  predicate Calling(c: Chan) { c.direction == Forward && c.callState != CallIdle }

  lemma {:induction false} LookupAt(rows: seq<Row>, tone: Tone, k: nat)
    requires k <= |rows| && (forall i :: 0 <= i < k ==> rows[i].tone != tone) && (k < |rows| ==> rows[k].tone == tone)
    ensures Lookup(rows, tone) == if k < |rows| then rows[k].request else Senseless
    decreases k
  {
    if k > 0 {
      assert forall i :: 0 <= i < k - 1 ==> rows[1..][i] == rows[i + 1];
      LookupAt(rows[1..], tone, k - 1);
    }
  }

  lemma ServesDigit(cfg: Config, c: Chan, offset: int, group: MfGroup)
    requires c.direction == Forward
    ensures var i := c.num.dnisIndex + offset;
            SendDnis(cfg, c.(mfGroup := group), offset) ==
            SendsDigit(cfg, c, if offset < 0 then Back(c.num.dnisIndex, -offset) else i, group)
  {
  }

  lemma ServesCallerDigit(cfg: Config, c: Chan)
    requires c.direction == Forward
    ensures SendAni(cfg, c) == SendsCallerDigit(cfg, c)
  {
    ServesDigit(cfg, c, 1, GI);
  }

  lemma ServesHangup(cfg: Config, c: Chan)
    requires Calling(c) && c.r2State == AcceptRxd
    ensures DisconnectCall(cfg, c, NormalClearing) == HangsUp(c)
  {
    assert DisconnectCall(cfg, c, NormalClearing) == SendClearForward(Emit(c, UserHangup));
  }

  lemma ServesAcceptance(cfg: Config, c: Chan, mode: CallMode, u: Reply)
    requires Calling(c) && c.r2State != AnswerRxdMfPending
    ensures HandleAcceptTone(cfg, c, mode, u) == IsAccepted(c, mode, u.dropOnAccept)
  {
    var d := Emit(Schedule(c.(r2State := AcceptRxd), Answer), CallAccepted(mode));
    ServesHangup(cfg, d);
  }

  lemma ServesPending(cfg: Config, c: Chan, mode: CallMode, u: Reply)
    requires Calling(c) && c.r2State == AnswerRxdMfPending
    ensures HandleAcceptTone(cfg, c, mode, u) == IsAccepted(c, mode, u.dropOnAccept)
  {
    var d := Emit(c.(r2State := AcceptRxd), CallAccepted(mode));
    if u.dropOnAccept {
      ServesHangup(cfg, d);
      assert AcceptedCallback(cfg, d, u) == HangsUp(d);
    } else {
      assert HandleAcceptTone(cfg, c, mode, u) == MarkAnswered(d);
    }
  }

  lemma ServesGroupA(cfg: Config, c: Chan, tone: Tone, u: Reply)
    requires Calling(c) && tone != '\0' && c.mfGroup == GI
    ensures HandleGroupARequest(cfg, c, tone, u) == Served(cfg, c, Lookup(GroupA(cfg, c.num), tone), u)
  {
    var rows := GroupA(cfg, c.num);
    var k := FirstOf(rows, tone);
    LookupAt(rows, tone, k);
    RowsOfGroupA(cfg, c.num, tone, k);
    if k < 5 { DigitAsked(cfg, c, tone, k); }
    else if k == 5 { ServesCallerDigit(cfg, c); }
    else if k == 8 { ServesAccepts(cfg, c, WithCharge, u); }
  }

  /** The first row with the tone, or the number of rows. */
  function FirstOf(rows: seq<Row>, tone: Tone): (k: nat)
    ensures k <= |rows| && (forall i :: 0 <= i < k ==> rows[i].tone != tone) && (k < |rows| ==> rows[k].tone == tone)
    decreases |rows|
  {
    if rows == [] || rows[0].tone == tone then 0
    else
      var k := FirstOf(rows[1..], tone);
      assert forall i :: 0 < i < k + 1 ==> rows[i] == rows[1..][i - 1];
      k + 1
  }

  lemma RowsOfGroupA(cfg: Config, n: Numbers, tone: Tone, k: nat)
    requires k == FirstOf(GroupA(cfg, n), tone)
    ensures k > 0 ==> tone != cfg.ga.nextDnis
    ensures k > 1 ==> tone != cfg.ga.dnisMinus1
    ensures k > 2 ==> tone != cfg.ga.dnisMinus2
    ensures k > 3 ==> tone != cfg.ga.dnisMinus3
    ensures k > 4 ==> tone != cfg.ga.allDnisAgain
    ensures k > 5 && n.categorySent ==> tone != cfg.ga.nextAni
    ensures k > 6 ==> tone != CategoryRequestTone(cfg)
    ensures k > 7 ==> tone != cfg.ga.changeToG2
    ensures k > 8 ==> tone != cfg.ga.addressComplete
    ensures k > 9 ==> tone != cfg.ga.congestion
  {
    var r := GroupA(cfg, n);
    assert r[0].tone == cfg.ga.nextDnis && r[1].tone == cfg.ga.dnisMinus1 && r[2].tone == cfg.ga.dnisMinus2;
    assert r[3].tone == cfg.ga.dnisMinus3 && r[4].tone == cfg.ga.allDnisAgain && r[6].tone == CategoryRequestTone(cfg);
    assert n.categorySent ==> r[5].tone == cfg.ga.nextAni;
    assert r[7].tone == cfg.ga.changeToG2 && r[8].tone == cfg.ga.addressComplete && r[9].tone == cfg.ga.congestion;
  }

  lemma DigitAsked(cfg: Config, c: Chan, tone: Tone, k: nat)
    requires c.direction == Forward && c.mfGroup == GI && k < 5 && k == FirstOf(GroupA(cfg, c.num), tone)
    ensures IsDnisRequest(cfg, tone)
    ensures HandleDnisRequest(cfg, c, tone) ==
            SendsDigit(cfg, c, if k == 0 then c.num.dnisIndex + 1
                       else if k == 4 then 0 else Back(c.num.dnisIndex, k), GI)
  {
    assert c.(mfGroup := GI) == c;
    RowsOfGroupA(cfg, c.num, tone, k);
    if k == 0 { ServesDigit(cfg, c, 1, GI); }
    else if k == 4 { ServesDigit(cfg, c.(num := c.num.(dnisIndex := 0)), 0, GI); }
    else { ServesDigit(cfg, c, 0 - k as int, GI); }
  }

  lemma ServesAccepts(cfg: Config, c: Chan, mode: CallMode, u: Reply)
    requires Calling(c)
    ensures HandleAcceptTone(cfg, c, mode, u) == IsAccepted(c, mode, u.dropOnAccept)
  {
    if c.r2State == AnswerRxdMfPending { ServesPending(cfg, c, mode, u); } else { ServesAcceptance(cfg, c, mode, u); }
  }

  lemma ServesGroupB(cfg: Config, c: Chan, tone: Tone, u: Reply)
    requires Calling(c) && tone != '\0'
    ensures HandleGroupBRequest(cfg, c, tone, u) == Served(cfg, c, Lookup(GroupB(cfg), tone), u)
  {
    var r := GroupB(cfg);
    var k := FirstOf(r, tone);
    LookupAt(r, tone, k);
    assert r[0].tone == cfg.gb.acceptCharge && r[1].tone == cfg.gb.acceptNoCharge && r[2].tone == cfg.gb.specialInfo;
    assert r[3].tone == cfg.gb.busy && r[4].tone == cfg.gb.congestion && r[5].tone == cfg.gb.unallocated;
    assert r[6].tone == cfg.gb.numberChanged && r[7].tone == cfg.gb.outOfOrder;
    if k < 3 {
      assert r[k].request == Accepts(ModeFromTone(cfg, tone));
      ServesAccepts(cfg, c, ModeFromTone(cfg, tone), u);
    }
  }

  lemma ServesGroupC(cfg: Config, c: Chan, tone: Tone, u: Reply)
    requires Calling(c) && tone != '\0'
    ensures HandleGroupCRequest(cfg, c, tone) == Served(cfg, c, Lookup(GroupC(cfg, c.num), tone), u)
  {
    var r := GroupC(cfg, c.num);
    var k := FirstOf(r, tone);
    LookupAt(r, tone, k);
    assert r[0].tone == cfg.gc.nextAni && r[1].tone == cfg.gc.changeToG2;
    assert r[2].tone == cfg.gc.nextDnisAndGa && r[3].tone == cfg.gc.congestion;
    if k == 0 { ServesCallerDigit(cfg, c); }
    else if k == 2 { ServesDigit(cfg, c, 1, GI); }
  }

  /** A tone of the far end mutes the caller, and the safety timer is stopped. */
  lemma CallerMutes(cfg: Config, c: Chan, tone: Tone, u: Reply)
    requires c.direction == Forward && c.readTone == '\0' && tone != '\0'
    ensures HandleMfTone(cfg, c, tone, u) ==
            c.(readTone := tone, writeTone := '\0', timers := CancelTimer(c.timers, FwdSafety))
  {
  }

  /** When the tone is gone the caller does what the table of its group says the tone asks for. */
  lemma CallerFollowsTable(cfg: Config, c: Chan, u: Reply)
    requires Calling(c) && c.readTone != '\0' && (c.mfGroup == GI || c.mfGroup == GII || c.mfGroup == GIII)
    ensures HandleMfTone(cfg, c, '\0', u) ==
            Served(cfg, c, Lookup(CallerTable(cfg, c), c.readTone), u).(readTone := '\0')
  {
    match c.mfGroup
    case GI => ServesGroupA(cfg, c, c.readTone, u);
    case GII => ServesGroupB(cfg, c, c.readTone, u);
    case GIII => ServesGroupC(cfg, c, c.readTone, u);
  }

  /** Before its seize is acknowledged a caller takes no tone. */
  lemma CallerOutOfGroup(cfg: Config, c: Chan, u: Reply)
    requires c.direction == Forward && c.readTone != '\0' && c.mfGroup != GI && c.mfGroup != GII && c.mfGroup != GIII
    ensures HandleMfTone(cfg, c, '\0', u) == Rested(c, c.casRead, ProtocolFault(InvalidMfGroup))
  {
  }

  /** When its seize is acknowledged the caller sends the first digit, in group I. */
  lemma CallerStarts(cfg: Config, c: Chan)
    requires c.direction == Forward && c.r2State == SeizeTxd && c.casRead != 0xC && !c.inAlarm
    ensures var d := c.(casRead := 0xC, r2State := SeizeAckRxd, timers := CancelTimer(c.timers, Seize));
            HandleCas(cfg, c, 0xC) == Emit(SendsDigit(cfg, d, c.num.dnisIndex, GI), CallProceed)
  {
    var n := c.(casRead := 0xC);
    assert HandleCas(cfg, c, 0xC) == SeizeAcknowledged(cfg, n);
    ServesDigit(cfg, Cancel(n, Seize).(r2State := SeizeAckRxd), 0, GI);
  }

  /** A tone that goes on is heard once, and silence that goes on not at all; a channel without a call hears nothing. */
  lemma HeardOnce(cfg: Config, c: Chan, tone: Tone, u: Reply)
    requires c.mfState == MfOff || c.readTone == tone
    ensures HandleMedia(cfg, c, tone, u) == c
  {
  }

  /** One tone after another without silence between them is a broken sequence, in either direction. */
  lemma NeedsSilence(cfg: Config, c: Chan, tone: Tone, u: Reply)
    requires c.mfState != MfOff && c.readTone != '\0' && tone != '\0' && c.readTone != tone
    ensures HandleMedia(cfg, c, tone, u) == Rested(c, c.casRead, ProtocolFault(BrokenMfSequence))
  {
  }

  /** A channel whose register works without a direction has a fault in itself. */
  lemma NeedsDirection(cfg: Config, c: Chan, tone: Tone, u: Reply)
    requires c.mfState != MfOff && c.direction == Stopped && c.readTone != tone && (c.readTone == '\0' || tone == '\0')
    ensures HandleMedia(cfg, c, tone, u) == Rested(c, c.casRead, ProtocolFault(LibraryBug))
  {
  }
}
