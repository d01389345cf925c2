/**
 The signals of the national variants, tone by tone, and the limits and times they set.
 */
module VariantTable {
  import opened Signals
  import opened Protocol
  import opened RegisterTable

  /** What a tone of group A asks of a caller. */
  function InGroupA(v: Variant, n: Numbers, tone: Tone): Request {
    match tone
    case '1' => Digit(n.dnisIndex + 1, GI)
    case '2' => Digit(if v == Brazil then 0 else Back(n.dnisIndex, 1), GI)
    case '3' => WhoCalls(GII)
    case '4' => Refuses(NetworkCongestion)
    case '5' =>
      if v == China || v == Mexico then Senseless
      else if n.categorySent && v != Venezuela then CallerDigit
      else WhoCalls(GI)
    case '6' =>
      if v == China then WhoCalls(GI)
      else if v == Mexico then WhoCalls(GIII)
      else if v == Brazil then Senseless
      else Accepts(WithCharge)
    case '7' => Digit(Back(n.dnisIndex, 2), GI)
    case '8' => Digit(Back(n.dnisIndex, 3), GI)
    case '9' =>
      if v == Brazil then Digit(Back(n.dnisIndex, 1), GI)
      else if v == Venezuela && n.categorySent then CallerDigit
      else Senseless
    case _ => Senseless
  }

  /** What a tone of group B decides. */
  function InGroupB(v: Variant, tone: Tone): Request {
    match tone
    case '1' => if v == Brazil || v == China || v == Colombia || v == Mexico then Accepts(WithCharge) else Senseless
    case '2' => if v == Brazil || v == China || v == Mexico then Refuses(BusyNumber) else Accepts(NoCharge)
    case '3' =>
      if v == Brazil then Refuses(NumberChanged)
      else if v == China || v == Colombia || v == Mexico then Senseless
      else Refuses(BusyNumber)
    case '4' => Refuses(NetworkCongestion)
    case '5' =>
      if v == Brazil || v == Colombia || v == Mexico then Accepts(NoCharge) else Refuses(UnallocatedNumber)
    case '6' =>
      if v == Brazil then Accepts(NoCharge)
      else if v == China || v == Mexico then Senseless
      else if v == Colombia then Refuses(UnallocatedNumber)
      else Accepts(WithCharge)
    case '7' =>
      if v == Brazil then Refuses(UnallocatedNumber)
      else if v == Colombia || v == Mexico then Senseless
      else Accepts(NoCharge)
    case '8' => Refuses(OutOfOrder)
    case _ => Senseless
  }

  /** What a tone of group C asks, in Mexico; the others have no such group. */
  function InGroupC(v: Variant, n: Numbers, tone: Tone): Request {
    if v != Mexico then Senseless
    else match tone
      case '1' => CallerDigit
      case '3' => WhoCalls(GII)
      case '4' => Refuses(NetworkCongestion)
      case '5' => Digit(n.dnisIndex + 1, GI)
      case _ => Senseless
  }

  lemma GroupAMeans(v: Variant, maxAni: int, maxDnis: int, n: Numbers, tone: Tone)
    requires tone != '\0'
    ensures Lookup(GroupA(Configure(v, maxAni, maxDnis), n), tone) == InGroupA(v, n, tone)
  {
    var cfg := Configure(v, maxAni, maxDnis);
    var k := FirstOf(GroupA(cfg, n), tone);
    LookupAt(GroupA(cfg, n), tone, k);
    RowsOfGroupA(cfg, n, tone, k);
  }

  lemma GroupBMeans(v: Variant, maxAni: int, maxDnis: int, tone: Tone)
    requires tone != '\0'
    ensures Lookup(GroupB(Configure(v, maxAni, maxDnis)), tone) == InGroupB(v, tone)
  {
    var cfg := Configure(v, maxAni, maxDnis);
    var r := GroupB(cfg);
    LookupAt(r, tone, FirstOf(r, tone));
    assert r[0].tone == cfg.gb.acceptCharge && r[1].tone == cfg.gb.acceptNoCharge && r[2].tone == cfg.gb.specialInfo;
    assert r[3].tone == cfg.gb.busy && r[4].tone == cfg.gb.congestion && r[5].tone == cfg.gb.unallocated;
    assert r[6].tone == cfg.gb.numberChanged && r[7].tone == cfg.gb.outOfOrder;
  }

  lemma GroupCMeans(v: Variant, maxAni: int, maxDnis: int, n: Numbers, tone: Tone)
    requires tone != '\0'
    ensures Lookup(GroupC(Configure(v, maxAni, maxDnis), n), tone) == InGroupC(v, n, tone)
  {
    var cfg := Configure(v, maxAni, maxDnis);
    var r := GroupC(cfg, n);
    LookupAt(r, tone, FirstOf(r, tone));
    assert r[0].tone == cfg.gc.nextAni && r[1].tone == cfg.gc.changeToG2;
    assert r[2].tone == cfg.gc.nextDnisAndGa && r[3].tone == cfg.gc.congestion;
  }

  // ---------------------------------------------------------------------------------------
  // What the other groups say

  /** The tone of a category; one that has none is sent as silence, and an unknown one as a national subscriber. */
  lemma CategoriesSent(v: Variant, maxAni: int, maxDnis: int)
    ensures var cfg := Configure(v, maxAni, maxDnis);
            && CategoryToTone(cfg, NationalSubscriber) == '1' && CategoryToTone(cfg, UnknownCategory) == '1'
            && CategoryToTone(cfg, NationalPrioritySubscriber) == '2' && CategoryToTone(cfg, TestEquipment) == '3'
            && CategoryToTone(cfg, InternationalSubscriber) == '7'
            && CategoryToTone(cfg, InternationalPrioritySubscriber) == '9'
            && CategoryToTone(cfg, CollectCall) == (if v == Brazil then '8' else '\0')
            && CategoryToTone(cfg, PayPhone) == (if v == Argentina then '4' else '\0')
  {
  }

  /** The category of a tone. No tone at all is a category only because some category has no tone. */
  lemma CategoriesRead(v: Variant, maxAni: int, maxDnis: int, tone: Tone)
    ensures ToneToCategory(Configure(v, maxAni, maxDnis), tone) ==
            match tone
            case '1' => NationalSubscriber
            case '2' => NationalPrioritySubscriber
            case '3' => TestEquipment
            case '4' => if v == Argentina then PayPhone else UnknownCategory
            case '7' => InternationalSubscriber
            case '8' => if v == Brazil then CollectCall else UnknownCategory
            case '9' => InternationalPrioritySubscriber
            case '\0' => if v == Brazil then PayPhone else CollectCall
            case _ => UnknownCategory
  {
  }

  /** The ends of the numbers; five variants let the callee time out at the end of the DNIS. */
  lemma EndTones(v: Variant, maxAni: int, maxDnis: int)
    ensures var g1 := Configure(v, maxAni, maxDnis).g1;
            && g1.noMoreDnis == (if v == Argentina || v == Brazil || v == China || v == Mexico ||
                v == Venezuela then '\0'
                                 else 'F')
            && g1.noMoreAni == (if v == Argentina then 'C' else 'F')
            && g1.restricted == (if v == Argentina || v == Mexico then 'F' else 'C')
  {
  }

  /** The tone with which a call is accepted, with charge and without. */
  lemma AcceptanceTones(v: Variant, maxAni: int, maxDnis: int)
    ensures var cfg := Configure(v, maxAni, maxDnis);
            && cfg.gb.acceptCharge == (if v == Brazil || v == China || v == Colombia || v == Mexico then '1' else '6')
            && cfg.gb.acceptNoCharge == (if v == Brazil || v == Colombia || v == Mexico then '5' else '7')
            && cfg.gb.specialInfo == (if v == Brazil then '6' else if v == China || v == Mexico then '\0' else '2')
            && cfg.ga.addressComplete == (if v == Brazil || v == China || v == Mexico then '\0' else '6')
  {
  }

  /** The tone with which a call is rejected. */
  lemma RejectionTones(v: Variant, maxAni: int, maxDnis: int)
    ensures var gb := Configure(v, maxAni, maxDnis).gb;
            && gb.busy == (if v == Brazil || v == China || v == Colombia || v == Mexico then '2' else '3')
            && gb.congestion == '4' && gb.outOfOrder == '8'
            && gb.unallocated == (if v == Brazil then '7' else if v == Colombia then '6' else if v == Mexico then
                '2' else '5')
            && gb.numberChanged == (if v == Brazil then '3' else '\0')
  {
  }

  /** The tones with which a callee asks. */
  lemma RequestTones(v: Variant, maxAni: int, maxDnis: int)
    ensures var ga, gc := Configure(v, maxAni, maxDnis).ga, Configure(v, maxAni, maxDnis).gc;
            && ga.nextDnis == '1' && ga.changeToG2 == '3'
            && ga.category == (if v == China then '6' else if v == Mexico then '\0' else '5')
            && ga.categoryAndGc == (if v == Mexico then '6' else '\0')
            && ga.nextAni == (if v == China then '1' else if v == Mexico then '\0' else if v == Venezuela then '9'
                else '5')
            && gc.nextAni == (if v == Mexico then '1' else '\0') && gc.changeToG2 == (if v == Mexico then '3' else '\0')
            && gc.nextDnisAndGa == (if v == Mexico then '5' else '\0')
  {
  }

  /** The limits fit the buffers, but for the one of China, which is not counted up to. */
  lemma Limits(v: Variant, maxAni: int, maxDnis: int)
    ensures var cfg := Configure(v, maxAni, maxDnis);
            && cfg.maxDnis == (if maxDnis > 79 then 79 else maxDnis)
            && cfg.maxAni == (if v == China then 80 else if maxAni > 79 then 79 else maxAni)
            && cfg.getAniFirst == (v != Mexico) && cfg.aniCanComeFirst == (v == China) &&
                cfg.forceMaxAni == (v == China)
            && cfg.autoSeizeAck && !cfg.immediateAccept && !cfg.skipCategory && !cfg.doubleAnswer
  {
  }

  /** The times in milliseconds. Only Argentina has metering. */
  lemma Times(v: Variant, maxAni: int, maxDnis: int)
    ensures var cfg := Configure(v, maxAni, maxDnis);
            && Duration(cfg, Seize) == 2000 && Duration(cfg, SeizePersist) == 150 && Duration(cfg, SetCallDown) == 3000
            && Duration(cfg, Answer) == 60000 && Duration(cfg, AnswerDelay) == 150 && Duration(cfg, DoubleAnswer) == 400
            && Duration(cfg, BackCycle) == 2000 && Duration(cfg, BackResumeCycle) == 150
            && Duration(cfg, FwdSafety) == 30000 && Duration(cfg, MeteringPulse) == (if v == Argentina then 400 else 0)
  {
  }
}
