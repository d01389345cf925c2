/**
 Call setup between two channels of this stack: the caller a and the callee b run the compelled
 register signalling, each listening to the tone and sampling the bits the other transmits now, in any
 interleaving. No timer but the answer delay expires.
 */
module Setup {
  import opened Signals
  import opened Protocol
  import opened TwoEnds

  // ---------------------------------------------------------------------------------------
  // Tone tables

  /** Each request tone of group A has one reading, and the end tones cannot be taken for digits. */
  predicate Unambiguous(cfg: Config) {
    && cfg.ga.nextDnis != NO_TONE && cfg.ga.category != NO_TONE
    && cfg.ga.nextAni != NO_TONE && cfg.ga.changeToG2 != NO_TONE
    && !IsDnisRequest(cfg, cfg.ga.category) && !IsDnisRequest(cfg, cfg.ga.nextAni)
    && !IsDnisRequest(cfg, cfg.ga.changeToG2)
    && cfg.ga.changeToG2 != cfg.ga.nextAni && cfg.ga.changeToG2 != cfg.ga.category
    && cfg.ga.category != cfg.ga.categoryAndGc
    && cfg.gc.nextAni == NO_TONE
    && cfg.g1.noMoreAni != NO_TONE && !IsDigit(cfg.g1.noMoreAni)
    && cfg.g1.restricted != NO_TONE && !IsDigit(cfg.g1.restricted)
    && cfg.g1.noMoreAni != cfg.g1.restricted
    && !IsDigit(cfg.g1.noMoreDnis)
  }

  predicate SameTones(x: Config, y: Config) {
    x.ga == y.ga && x.gb == y.gb && x.gc == y.gc && x.g1 == y.g1 && x.g2 == y.g2
  }

  /** The tone that accepts a call at once has no other reading. */
  predicate AcceptsReadably(cfg: Config) {
    cfg.ga.addressComplete != NO_TONE && !IsDnisRequest(cfg, cfg.ga.addressComplete) &&
    cfg.ga.addressComplete != cfg.ga.nextAni && cfg.ga.addressComplete != cfg.ga.category &&
    cfg.ga.addressComplete != cfg.ga.changeToG2
  }

  /** A callee that skips the category and accepts at once, and is done with the number at its first digit. */
  predicate AcceptsTooSoon(cfg: Config) {
    cfg.skipCategory && cfg.immediateAccept && (cfg.getAniFirst || Uint32(cfg.maxDnis) <= 1)
  }

  /** What is asked of the callee's settings, whether or not it accepts too soon. */
  predicate Serviceable(cfg: Config) {
    cfg.autoSeizeAck && !cfg.forceMaxAni && !(cfg.getAniFirst && cfg.aniCanComeFirst) &&
    (cfg.immediateAccept ==> AcceptsReadably(cfg))
  }

  predicate Workable(cfg: Config) { Serviceable(cfg) && !AcceptsTooSoon(cfg) }

  // ---------------------------------------------------------------------------------------
  // What the call is about

  /** The numbers the caller holds; aniGiven is false when the ANI is withheld altogether. */
  datatype Session = Session(dnis: string, ani: string, aniGiven: bool, restricted: bool, category: Tone,
                             faultsA: nat, faultsB: nat)

  function Min(x: int, y: int): int { if x <= y then x else y }
  function Max(x: int, y: int): int { if x >= y then x else y }

  /** How many DNIS digits the callee collects before it goes for category and ANI, and in all. */
  function DnisWanted(cfg: Config, s: Session): int { Min(|s.dnis|, Max(1, Uint32(cfg.maxDnis))) }

  function DnisBeforeAni(cfg: Config, s: Session): int { if cfg.getAniFirst then 1 else DnisWanted(cfg, s) }

  /** The callee asks for the ANI: after the category, and if it takes any. */
  predicate TakesAni(cfg: Config) { cfg.maxAni > 0 && !cfg.skipCategory }

  function DnisExpected(cfg: Config, s: Session): int {
    if TakesAni(cfg) then DnisWanted(cfg, s) else DnisBeforeAni(cfg, s)
  }

  function AniExpected(cfg: Config, s: Session): int { if TakesAni(cfg) then Min(|s.ani|, cfg.maxAni) else 0 }

  function CategoryExpected(cfg: Config, s: Session): Tone { if cfg.skipCategory then NO_TONE else s.category }

  /** The callee learns that the ANI is restricted only when it is told so in place of a digit. */
  function RestrictedExpected(cfg: Config, s: Session): bool {
    TakesAni(cfg) && (!s.aniGiven || (s.restricted && |s.ani| < cfg.maxAni))
  }

  /**
   A callable session: digits, a category with a tone, and a way to end the DNIS if the callee wants more than there
   is.
   */
  predicate Callable(cfg: Config, s: Session) {
    && |s.dnis| > 0 && |s.dnis| < MAX_DIGITS && AllDigits(s.dnis) && AllDigits(s.ani) && (!s.aniGiven ==> s.ani == "")
    && s.category != NO_TONE
    && (cfg.g1.noMoreDnis != NO_TONE || Uint32(cfg.maxDnis) <= |s.dnis|)
  }

  function EndOfAni(cfg: Config, s: Session): Tone {
    if !s.aniGiven || s.restricted then cfg.g1.restricted else cfg.g1.noMoreAni
  }

  // ---------------------------------------------------------------------------------------
  // What the users have been told in the current call

  function OfferMade(h: History): Option<Event> {
    match h
    case Empty => None
    case Snoc(prev, e) =>
      if e.CallOffered? then Some(e) else if e.CallInit? || e.CallPlaced? then None else OfferMade(prev)
  }

  function VerdictHeard(h: History): Option<Event> {
    match h
    case Empty => None
    case Snoc(prev, e) =>
      if e.CallAccepted? || e.CallDisconnect? then Some(e)
      else if e.CallInit? || e.CallPlaced? then None else VerdictHeard(prev)
  }

  // ---------------------------------------------------------------------------------------
  // The two ends during register signalling

  ghost predicate CallerBusy(a: Chan, s: Session) {
    && !a.inAlarm && a.direction == Forward && a.callState == Dialing && a.r2State == SeizeAckRxd
    && a.casRead == BITS_SEIZE_ACK && a.casTx == CasSeize && a.mfState != MfOff && !a.answered
    && a.timers.live == map[] && a.timers.lastId >= 1
    && a.num.dnis == s.dnis && a.num.ani == s.ani && a.num.category == s.category && a.num.restricted == s.restricted
    && (a.num.aniPtr.Some? <==> s.aniGiven)
    && CountFaults(a.log) == s.faultsA && VerdictHeard(a.log) == None
  }

  /** The cycle timer alone may be running, under the id its field holds. */
  ghost predicate CycleTimer(tt: TimerTable) {
    && tt.lastId >= 1 && IdOf(tt, BackCycle) <= tt.lastId
    && tt.live.Keys <= {IdOf(tt, BackCycle)}
    && (IdOf(tt, BackCycle) in tt.live ==> IdOf(tt, BackCycle) >= 1 && tt.live[IdOf(tt, BackCycle)] == BackCycle)
  }

  predicate CycleRuns(tt: TimerTable) { IdOf(tt, BackCycle) in tt.live }

  ghost predicate CalleeBusy(b: Chan, s: Session) {
    && !b.inAlarm && b.direction == Backward && b.callState == Collecting && b.r2State == SeizeAckTxd
    && b.casRead == BITS_SEIZE && b.casTx == CasSeizeAck && b.mfState != MfOff
    && CycleTimer(b.timers)
    && |b.num.dnis| <= |s.dnis| && b.num.dnis == s.dnis[..|b.num.dnis|]
    && |b.num.ani| <= |s.ani| && b.num.ani == s.ani[..|b.num.ani|]
    && CountFaults(b.log) == s.faultsB && OfferMade(b.log) == None
  }

  /** What the callee has collected when it makes the request recorded in its MF state. */
  ghost predicate Collected(cfg: Config, b: Chan, s: Session) {
    match b.mfState
    case DnisRqTxd =>
      && b.mfGroup == GA
      && 1 <= |b.num.dnis| < Uint32(cfg.maxDnis)
      && (if cfg.getAniFirst then
            TakesAni(cfg) && |b.num.ani| == AniExpected(cfg, s) &&
            b.num.restricted == RestrictedExpected(cfg, s) && b.num.category == s.category
          else |b.num.ani| == 0 && !b.num.restricted && b.num.category == NO_TONE)
    case CategoryRqTxd =>
      && b.mfGroup == GA && !cfg.skipCategory
      && |b.num.dnis| == DnisBeforeAni(cfg, s) && |b.num.ani| == 0 && !b.num.restricted
    case AniRqTxd =>
      && b.mfGroup == GA && !cfg.skipCategory
      && |b.num.dnis| == DnisBeforeAni(cfg, s) && |b.num.ani| < cfg.maxAni && !b.num.restricted
      && b.num.category == s.category
    case ChgGiiTxd => b.mfGroup == GB && !cfg.immediateAccept && CollectedAll(cfg, b, s)
    case _ => false
  }

  /** Nothing is left to ask for. */
  predicate CollectedAll(cfg: Config, b: Chan, s: Session) {
    && |b.num.dnis| == DnisExpected(cfg, s) && |b.num.ani| == AniExpected(cfg, s)
    && b.num.restricted == RestrictedExpected(cfg, s) && b.num.category == CategoryExpected(cfg, s)
  }

  function RequestTone(cfg: Config, m: MfState): Tone {
    match m
    case DnisRqTxd => cfg.ga.nextDnis
    case CategoryRqTxd => cfg.ga.category
    case AniRqTxd => cfg.ga.nextAni
    case _ => cfg.ga.changeToG2
  }

  /** What the caller sends for the i-th DNIS request and the j-th ANI request. */
  function DnisItem(cfg: Config, s: Session, i: int): Tone {
    if 0 <= i < |s.dnis| then s.dnis[i] else cfg.g1.noMoreDnis
  }

  function AniItem(cfg: Config, s: Session, j: int): Tone {
    if 0 <= j < |s.ani| then s.ani[j] else EndOfAni(cfg, s)
  }

  /** Before the ANI has been touched, or with the ANI pointer at a known digit. */
  predicate AniAtDigit(a: Chan, s: Session, j: int) { s.aniGiven ==> a.num.aniPtr == Some(j) }

  /** The caller has delivered exactly what the callee has collected, and can serve the pending request. */
  ghost predicate CanServe(cfg: Config, a: Chan, b: Chan, s: Session) {
    && a.mfGroup == GI
    && (b.mfState == DnisRqTxd || (cfg.getAniFirst && b.mfState != ChgGiiTxd) ==> a.num.dnisIndex == |b.num.dnis| - 1)
    && (b.mfState == CategoryRqTxd || b.mfState == AniRqTxd || (b.mfState == DnisRqTxd && !cfg.getAniFirst) ==>
          AniAtDigit(a, s, |b.num.ani|))
    && match b.mfState
       case DnisRqTxd => a.mfState != DnisEndTxd && a.mfState != WaitingTimeout && a.num.categorySent == cfg.getAniFirst
       case CategoryRqTxd => !a.num.categorySent
       case AniRqTxd => a.num.categorySent && a.mfState != AniEndTxd
       case _ => true
  }

  /** The caller's tone answers the request the callee has pending. */
  ghost predicate Serves(cfg: Config, a: Chan, b: Chan, s: Session) {
    && a.mfGroup == (if b.mfState == ChgGiiTxd then GII else GI)
    && match b.mfState
       case MfSeizeAckTxd =>
         && b.mfGroup == BackInit && b.num == NO_NUMBERS
         && a.mfState == DnisTxd && a.num.dnisIndex == 0 && a.writeTone == DnisItem(cfg, s, 0)
         && !a.num.categorySent && AniAtDigit(a, s, 0)
       case DnisRqTxd =>
         && a.num.categorySent == cfg.getAniFirst && a.num.dnisIndex == |b.num.dnis|
         && a.writeTone == DnisItem(cfg, s, |b.num.dnis|)
         && (|b.num.dnis| < |s.dnis| ==> a.mfState == DnisTxd)
         && (!cfg.getAniFirst ==> AniAtDigit(a, s, 0))
       case CategoryRqTxd =>
         && a.mfState == CategoryTxd && a.num.categorySent && a.writeTone == s.category
         && (cfg.getAniFirst ==> a.num.dnisIndex == |b.num.dnis| - 1)
         && AniAtDigit(a, s, 0)
       case AniRqTxd =>
         && a.num.categorySent && a.writeTone == AniItem(cfg, s, |b.num.ani|)
         && (cfg.getAniFirst ==> a.num.dnisIndex == |b.num.dnis| - 1)
         && (|b.num.ani| < |s.ani| ==> a.mfState == AniTxd && AniAtDigit(a, s, |b.num.ani| + 1))
         && a.mfState != DnisEndTxd && a.mfState != WaitingTimeout
       case ChgGiiTxd => a.mfState == CategoryTxd && a.writeTone == s.category
       case _ => false
  }

  // ---------------------------------------------------------------------------------------
  // The four beats of a compelled cycle

  /** The caller's tone is on and the callee has not heard it. */
  ghost predicate Beat1(cfg: Config, p: Pair, s: Session) {
    && CallerBusy(p.a, s) && CalleeBusy(p.b, s) && Serves(cfg, p.a, p.b, s)
    && (p.b.mfState != MfSeizeAckTxd ==> Collected(cfg, p.b, s))
    && p.a.writeTone != NO_TONE && p.a.readTone == NO_TONE && p.b.writeTone == NO_TONE && p.b.readTone == NO_TONE
  }

  ghost predicate Pending(cfg: Config, p: Pair, s: Session) {
    && CallerBusy(p.a, s) && CalleeBusy(p.b, s) && Collected(cfg, p.b, s) && CanServe(cfg, p.a, p.b, s)
    && CycleRuns(p.b.timers)
  }

  /** The callee heard it and answers with its next request. */
  ghost predicate Beat2(cfg: Config, p: Pair, s: Session) {
    && Pending(cfg, p, s)
    && p.a.writeTone != NO_TONE && p.a.readTone == NO_TONE
    && p.b.writeTone == RequestTone(cfg, p.b.mfState) && p.b.readTone == p.a.writeTone
  }

  /** The caller heard the request and went silent. */
  ghost predicate Beat3(cfg: Config, p: Pair, s: Session) {
    && Pending(cfg, p, s)
    && p.a.writeTone == NO_TONE && p.a.readTone == RequestTone(cfg, p.b.mfState)
    && p.b.writeTone == RequestTone(cfg, p.b.mfState) && p.b.readTone != NO_TONE
  }

  /** The callee heard the silence and went silent too. */
  ghost predicate Beat4(cfg: Config, p: Pair, s: Session) {
    && Pending(cfg, p, s)
    && p.a.writeTone == NO_TONE && p.a.readTone == RequestTone(cfg, p.b.mfState)
    && p.b.writeTone == NO_TONE && p.b.readTone == NO_TONE
  }

  // ---------------------------------------------------------------------------------------
  // The callee hears a tone

  /** The callee with its next request on the line. */
  function Asked(cfg: Config, b: Chan, m: MfState): Chan {
    b.(mfGroup := if m == ChgGiiTxd then GB else GA, mfState := m, writeTone := RequestTone(cfg, m),
       timers := AddTimer(b.timers, BackCycle))
  }

  /** A callee about to make a request: its tone is off and the cycle timer has been cancelled. */
  ghost predicate AboutToAsk(b: Chan) {
    b.direction == Backward && b.writeTone == NO_TONE && b.mfGroup != GC &&
    b.timers.lastId >= 1 && b.timers.live == map[]
  }

  lemma CycleCancelled(b: Chan)
    requires CycleTimer(b.timers)
    ensures var d := Cancel(b, BackCycle); d == b.(timers := d.timers) && d.timers.live == map[] && d.timers.lastId >= 1
  {
    var id := IdOf(b.timers, BackCycle);
    var rest := CancelTimer(b.timers, BackCycle).live;
    assert rest.Keys == if id in b.timers.live then b.timers.live.Keys - {id} else b.timers.live.Keys;
    assert rest.Keys == {};
  }

  lemma CycleStarted(tt: TimerTable)
    requires tt.live == map[] && tt.lastId >= 1
    ensures CycleTimer(AddTimer(tt, BackCycle)) && CycleRuns(AddTimer(tt, BackCycle)) && !SlotsFull(tt)
  {
  }

  lemma AsksFor(cfg: Config, b: Chan)
    requires Unambiguous(cfg) && AboutToAsk(b)
    ensures TryRequestCategory(cfg, b) ==
            if cfg.skipCategory then TryChangeToG2(cfg, b) else Asked(cfg, b, CategoryRqTxd)
    ensures RequestNextDnis(cfg, b) == Asked(cfg, b, DnisRqTxd)
  {
    CycleStarted(b.timers);
  }

  lemma AsksToChange(cfg: Config, b: Chan)
    requires Unambiguous(cfg) && AboutToAsk(b) && !cfg.immediateAccept
    ensures TryChangeToG2(cfg, b) == Asked(cfg, b, ChgGiiTxd)
  {
    CycleStarted(b.timers);
  }

  lemma AsksForAni(cfg: Config, b: Chan)
    requires Unambiguous(cfg) && AboutToAsk(b) && b.mfGroup == GA
    ensures RequestNextAni(cfg, b) == Asked(cfg, b, AniRqTxd)
  {
    CycleStarted(b.timers);
  }

  /** An upper bound on the requests the callee still has to make: digits and changes of subject. */
  function Left(cfg: Config, b: Chan, s: Session): int {
    |s.dnis| - |b.num.dnis| + |s.ani| - |b.num.ani| +
    match b.mfState
    case MfSeizeAckTxd => 4
    case DnisRqTxd => if cfg.getAniFirst then 1 else 3
    case CategoryRqTxd => if cfg.getAniFirst then 3 else 2
    case AniRqTxd => if cfg.getAniFirst then 2 else 1
    case _ => 0
  }

  /** Beat 1 to beat 2: the callee takes the caller's tone and asks for the next thing. */
  ghost predicate Asks(cfg: Config, a: Chan, b: Chan, d: Chan, s: Session) {
    CalleeBusy(d, s) && Collected(cfg, d, s) && CanServe(cfg, a, d, s) && CycleRuns(d.timers) &&
    d.writeTone == RequestTone(cfg, d.mfState) && d.readTone == b.readTone && Left(cfg, d, s) < Left(cfg, b, s)
  }

  /** Or, if the callee accepts at once, the call is offered and the tone that accepts it is on the line. */
  ghost predicate OffersAtOnce(cfg: Config, a: Chan, b: Chan, d: Chan, s: Session) {
    && cfg.immediateAccept && a.mfGroup == GI
    && CalleeOffered(cfg, d, s, GA) && d.mfState == AcceptedTxd && CycleTimer(d.timers)
    && d.writeTone == cfg.ga.addressComplete && d.readTone == b.readTone
  }

  ghost predicate Responds(cfg: Config, a: Chan, b: Chan, d: Chan, s: Session) {
    Asks(cfg, a, b, d, s) || OffersAtOnce(cfg, a, b, d, s)
  }

  ghost predicate Fair(cfg: Config, s: Session) {
    Unambiguous(cfg) && Serviceable(cfg) && Callable(cfg, s)
  }

  ghost predicate Good(cfg: Config, s: Session) { Fair(cfg, s) && !AcceptsTooSoon(cfg) }

  /** A callee between two requests; asking makes it busy again. */
  ghost predicate CalleeReady(b: Chan, s: Session) {
    AboutToAsk(b) && CalleeBusy(b.(timers := NO_TIMERS), s)
  }

  lemma AskedIsBusy(cfg: Config, b: Chan, m: MfState, s: Session)
    requires CalleeReady(b, s) && m != MfOff
    ensures CalleeBusy(Asked(cfg, b, m), s) && CycleRuns(Asked(cfg, b, m).timers)
  {
    CycleStarted(b.timers);
  }

  /** The callee has a request pending, or waits for the first digit. */
  predicate InDialogue(b: Chan) {
    b.mfState == MfSeizeAckTxd || b.mfState == DnisRqTxd || b.mfState == CategoryRqTxd || b.mfState == AniRqTxd
  }

  /** With everything collected, the callee asks for the change to group II or accepts at once. */
  lemma Concludes(cfg: Config, a: Chan, b: Chan, c: Chan, s: Session)
    requires Good(cfg, s) && a.mfGroup == GI && CalleeReady(c, s) && CollectedAll(cfg, c, s)
    requires cfg.immediateAccept ==> c.mfGroup == GA
    requires c.readTone == b.readTone && InDialogue(b)
    requires |b.num.dnis| <= |c.num.dnis| && |b.num.ani| <= |c.num.ani|
    ensures Responds(cfg, a, b, TryChangeToG2(cfg, c), s)
  {
    if cfg.immediateAccept { ConcludesAtOnce(cfg, a, b, c, s); } else { ConcludesAsking(cfg, a, b, c, s); }
  }

  lemma ConcludesAsking(cfg: Config, a: Chan, b: Chan, c: Chan, s: Session)
    requires Good(cfg, s) && a.mfGroup == GI && CalleeReady(c, s) && CollectedAll(cfg, c, s)
    requires !cfg.immediateAccept && c.readTone == b.readTone && InDialogue(b)
    requires |b.num.dnis| <= |c.num.dnis| && |b.num.ani| <= |c.num.ani|
    ensures Asks(cfg, a, b, TryChangeToG2(cfg, c), s)
  {
    AsksToChange(cfg, c);
    AskedIsBusy(cfg, c, ChgGiiTxd, s);
    AskedIsLast(cfg, a, b, Asked(cfg, c, ChgGiiTxd), c.num, s);
  }

  lemma AskedIsLast(cfg: Config, a: Chan, b: Chan, d: Chan, n: Numbers, s: Session)
    requires Unambiguous(cfg) && CalleeBusy(d, s) && CollectedAll(cfg, d, s) && d.num == n && a.mfGroup == GI
    requires d.mfState == ChgGiiTxd && d.mfGroup == GB && !cfg.immediateAccept &&
        d.writeTone == RequestTone(cfg, ChgGiiTxd)
    requires d.readTone == b.readTone && InDialogue(b) && CycleRuns(d.timers)
    requires |b.num.dnis| <= |n.dnis| && |b.num.ani| <= |n.ani|
    ensures Asks(cfg, a, b, d, s)
  {
  }

  lemma ConcludesAtOnce(cfg: Config, a: Chan, b: Chan, c: Chan, s: Session)
    requires Good(cfg, s) && a.mfGroup == GI && CalleeReady(c, s) && CollectedAll(cfg, c, s)
    requires cfg.immediateAccept && c.mfGroup == GA && c.readTone == b.readTone
    ensures OffersAtOnce(cfg, a, b, TryChangeToG2(cfg, c), s)
  {
    CycleStarted(c.timers);
    ExpectedInRange(cfg, s);
    var d := c.(mfState := AcceptedTxd, writeTone := cfg.ga.addressComplete, timers := AddTimer(c.timers, BackCycle));
    assert TryChangeToG2(cfg, c) == OfferCall(cfg, d);
  }

  lemma StoresDnisDigit(b: Chan, s: Session)
    requires CalleeReady(b, s) && |b.num.dnis| < |s.dnis| && |s.dnis| < MAX_DIGITS
    ensures var c := StoreDnis(b, s.dnis[|b.num.dnis|]);
            CalleeReady(c, s) && |c.num.dnis| == |b.num.dnis| + 1 &&
            c == b.(num := b.num.(dnis := c.num.dnis), log := c.log)
  {
    var c := StoreDnis(b, s.dnis[|b.num.dnis|]);
    assert c.num.dnis == s.dnis[..|c.num.dnis|];
  }

  lemma HearsDnisDigit(cfg: Config, a: Chan, b: Chan, s: Session, u: Reply)
    requires Good(cfg, s) && CallerBusy(a, s) && CalleeReady(b, s) && Serves(cfg, a, b, s)
    requires b.mfState == MfSeizeAckTxd || (b.mfState == DnisRqTxd && Collected(cfg, b, s))
    requires |b.num.dnis| < |s.dnis| && u.moreDnis
    ensures Responds(cfg, a, b, ReceiveDnis(cfg, b, a.writeTone, u), s)
  {
    var c := StoreDnis(b, a.writeTone);
    StoresDnisDigit(b, s);
    if DnisComplete(cfg, c) || (|c.num.dnis| == 1 && cfg.getAniFirst) { DigitIsLast(cfg, a, b, c, s, u); }
    else { DigitIsNotLast(cfg, a, b, c, s, u); }
  }

  /** The digit stored is the last one wanted for now: the category is next, or the change to group II. */
  lemma DigitIsLast(cfg: Config, a: Chan, b: Chan, c: Chan, s: Session, u: Reply)
    requires Good(cfg, s) && CallerBusy(a, s) && CalleeReady(c, s) && Serves(cfg, a, b, s)
    requires b.mfState == MfSeizeAckTxd || (b.mfState == DnisRqTxd && Collected(cfg, b, s))
    requires |b.num.dnis| < |s.dnis| && u.moreDnis && c == StoreDnis(b, a.writeTone) &&
        a.writeTone == s.dnis[|b.num.dnis|]
    requires |c.num.dnis| == |b.num.dnis| + 1 && c == b.(num := b.num.(dnis := c.num.dnis), log := c.log)
    requires DnisComplete(cfg, c) || (|c.num.dnis| == 1 && cfg.getAniFirst)
    ensures Responds(cfg, a, b, ReceiveDnis(cfg, b, a.writeTone, u), s)
  {
    DnisDigitLeads(cfg, b, c, a.writeTone, u);
    if (|c.num.dnis| > 1 && cfg.getAniFirst) || cfg.skipCategory {
      LastDigitConcludes(cfg, a, b, c, s);
    } else {
      LastDigitAsks(cfg, a, b, c, s);
    }
  }

  lemma LastDigitConcludes(cfg: Config, a: Chan, b: Chan, c: Chan, s: Session)
    requires Good(cfg, s) && CallerBusy(a, s) && CalleeReady(c, s) && Serves(cfg, a, b, s)
    requires b.mfState == MfSeizeAckTxd || (b.mfState == DnisRqTxd && Collected(cfg, b, s))
    requires |b.num.dnis| < |s.dnis|
    requires |c.num.dnis| == |b.num.dnis| + 1 && c == b.(num := b.num.(dnis := c.num.dnis), log := c.log)
    requires DnisComplete(cfg, c) || (|c.num.dnis| == 1 && cfg.getAniFirst)
    requires (|c.num.dnis| > 1 && cfg.getAniFirst) || cfg.skipCategory
    ensures Responds(cfg, a, b, TryChangeToG2(cfg, c), s)
  {
    assert CollectedAll(cfg, c, s);
    Concludes(cfg, a, b, c, s);
  }

  lemma LastDigitAsks(cfg: Config, a: Chan, b: Chan, c: Chan, s: Session)
    requires Good(cfg, s) && CallerBusy(a, s) && CalleeReady(c, s) && Serves(cfg, a, b, s)
    requires b.mfState == MfSeizeAckTxd || (b.mfState == DnisRqTxd && Collected(cfg, b, s))
    requires |b.num.dnis| < |s.dnis|
    requires |c.num.dnis| == |b.num.dnis| + 1 && c == b.(num := b.num.(dnis := c.num.dnis), log := c.log)
    requires DnisComplete(cfg, c) || (|c.num.dnis| == 1 && cfg.getAniFirst)
    requires !(|c.num.dnis| > 1 && cfg.getAniFirst) && !cfg.skipCategory
    ensures Asks(cfg, a, b, TryRequestCategory(cfg, c), s)
  {
    AsksFor(cfg, c);
    AskedIsBusy(cfg, c, CategoryRqTxd, s);
  }

  /** What follows a digit, as long as the callee's user keeps asking. */
  lemma DnisDigitLeads(cfg: Config, b: Chan, c: Chan, tone: Tone, u: Reply)
    requires IsDigit(tone) && c == StoreDnis(b, tone) && u.moreDnis
    ensures ReceiveDnis(cfg, b, tone, u) ==
            if !DnisComplete(cfg, c) && !(|c.num.dnis| == 1 && cfg.getAniFirst) then RequestNextDnis(cfg, c)
            else if (|c.num.dnis| > 1 && cfg.getAniFirst) ||
                (cfg.skipCategory && |c.num.dnis| > 0) then TryChangeToG2(cfg, c)
            else TryRequestCategory(cfg, c)
  {
  }

  lemma DigitIsNotLast(cfg: Config, a: Chan, b: Chan, c: Chan, s: Session, u: Reply)
    requires Good(cfg, s) && CallerBusy(a, s) && CalleeReady(c, s) && Serves(cfg, a, b, s)
    requires b.mfState == MfSeizeAckTxd || (b.mfState == DnisRqTxd && Collected(cfg, b, s))
    requires |b.num.dnis| < |s.dnis| && u.moreDnis && c == StoreDnis(b, a.writeTone) &&
        a.writeTone == s.dnis[|b.num.dnis|]
    requires |c.num.dnis| == |b.num.dnis| + 1 && c == b.(num := b.num.(dnis := c.num.dnis), log := c.log)
    requires !DnisComplete(cfg, c) && !(|c.num.dnis| == 1 && cfg.getAniFirst)
    ensures Responds(cfg, a, b, ReceiveDnis(cfg, b, a.writeTone, u), s)
  {
    DnisDigitLeads(cfg, b, c, a.writeTone, u);
    NextDigitAsked(cfg, a, b, c, s);
  }

  lemma NextDigitAsked(cfg: Config, a: Chan, b: Chan, c: Chan, s: Session)
    requires Good(cfg, s) && CallerBusy(a, s) && CalleeReady(c, s) && Serves(cfg, a, b, s)
    requires b.mfState == MfSeizeAckTxd || (b.mfState == DnisRqTxd && Collected(cfg, b, s))
    requires |c.num.dnis| == |b.num.dnis| + 1 && c == b.(num := b.num.(dnis := c.num.dnis), log := c.log)
    requires !DnisComplete(cfg, c) && !(|c.num.dnis| == 1 && cfg.getAniFirst)
    ensures Asks(cfg, a, b, RequestNextDnis(cfg, c), s)
  {
    AsksFor(cfg, c);
    AskedIsBusy(cfg, c, DnisRqTxd, s);
  }

  lemma HearsDnisEnd(cfg: Config, a: Chan, b: Chan, s: Session, u: Reply)
    requires Good(cfg, s) && CallerBusy(a, s) && CalleeReady(b, s) && Serves(cfg, a, b, s)
    requires b.mfState == DnisRqTxd && Collected(cfg, b, s) && |b.num.dnis| == |s.dnis|
    ensures Responds(cfg, a, b, ReceiveDnis(cfg, b, a.writeTone, u), s)
  {
    AsksFor(cfg, b);
    if cfg.getAniFirst || cfg.skipCategory { Concludes(cfg, a, b, b, s); }
    else { AskedIsBusy(cfg, b, CategoryRqTxd, s); }
  }

  lemma HearsCategory(cfg: Config, a: Chan, b: Chan, s: Session)
    requires Good(cfg, s) && CallerBusy(a, s) && CalleeReady(b, s) && Serves(cfg, a, b, s)
    requires b.mfState == CategoryRqTxd && Collected(cfg, b, s)
    ensures Responds(cfg, a, b, ReceiveCategory(cfg, b, a.writeTone), s)
  {
    var c := b.(num := b.num.(category := s.category));
    if cfg.maxAni > 0 {
      AsksForAni(cfg, c);
      AskedIsBusy(cfg, c, AniRqTxd, s);
    } else {
      Concludes(cfg, a, b, c, s);
    }
  }

  lemma HearsAniDigit(cfg: Config, a: Chan, b: Chan, s: Session)
    requires Good(cfg, s) && CallerBusy(a, s) && CalleeReady(b, s) && Serves(cfg, a, b, s)
    requires b.mfState == AniRqTxd && Collected(cfg, b, s) && |b.num.ani| < |s.ani|
    ensures Responds(cfg, a, b, ReceiveAni(cfg, b, a.writeTone), s)
  {
    var c := Emit(b.(num := b.num.(ani := b.num.ani + [a.writeTone])), AniDigit(a.writeTone));
    StoresAniDigit(b, s);
    if cfg.maxAni > |c.num.ani| { AniDigitIsNotLast(cfg, a, b, c, s); }
    else { AfterAniAsks(cfg, a, c, s); }
  }

  lemma StoresAniDigit(b: Chan, s: Session)
    requires CalleeReady(b, s) && |b.num.ani| < |s.ani|
    ensures var tone := s.ani[|b.num.ani|];
            CalleeReady(Emit(b.(num := b.num.(ani := b.num.ani + [tone])), AniDigit(tone)), s)
  {
    var ani := b.num.ani + [s.ani[|b.num.ani|]];
    assert ani == s.ani[..|ani|];
  }

  lemma AniDigitIsNotLast(cfg: Config, a: Chan, b: Chan, c: Chan, s: Session)
    requires Good(cfg, s) && CallerBusy(a, s) && CalleeReady(c, s) && Serves(cfg, a, b, s)
    requires b.mfState == AniRqTxd && Collected(cfg, b, s) && |b.num.ani| < |s.ani| && a.writeTone == s.ani[|b.num.ani|]
    requires c == Emit(b.(num := b.num.(ani := b.num.ani + [a.writeTone])), AniDigit(a.writeTone))
    requires cfg.maxAni > |c.num.ani|
    ensures Responds(cfg, a, b, ReceiveAni(cfg, b, a.writeTone), s)
  {
    AniDigitAsksNext(cfg, b, c, a.writeTone);
    MoreAniAsked(cfg, a, b, c, s);
  }

  lemma MoreAniAsked(cfg: Config, a: Chan, b: Chan, c: Chan, s: Session)
    requires CallerBusy(a, s) && CalleeReady(c, s) && Serves(cfg, a, b, s)
    requires b.mfState == AniRqTxd && Collected(cfg, b, s) && |b.num.ani| < |s.ani|
    requires c.num == b.num.(ani := c.num.ani) && |c.num.ani| == |b.num.ani| + 1 && c.readTone == b.readTone
    requires cfg.maxAni > |c.num.ani| && |c.num.ani| <= |s.ani|
    ensures Asks(cfg, a, b, Asked(cfg, c, AniRqTxd), s)
  {
    AskedIsBusy(cfg, c, AniRqTxd, s);
  }

  lemma AniDigitAsksNext(cfg: Config, b: Chan, c: Chan, tone: Tone)
    requires Unambiguous(cfg) && Workable(cfg) && AboutToAsk(c) && c.mfGroup == GA && IsDigit(tone)
    requires c == Emit(b.(num := b.num.(ani := b.num.ani + [tone])), AniDigit(tone)) && cfg.maxAni > |c.num.ani|
    ensures ReceiveAni(cfg, b, tone) == Asked(cfg, c, AniRqTxd)
  {
    AsksForAni(cfg, c);
  }

  lemma HearsAniEnd(cfg: Config, a: Chan, b: Chan, s: Session)
    requires Good(cfg, s) && CallerBusy(a, s) && CalleeReady(b, s) && Serves(cfg, a, b, s)
    requires b.mfState == AniRqTxd && Collected(cfg, b, s) && |b.num.ani| == |s.ani|
    ensures Responds(cfg, a, b, ReceiveAni(cfg, b, a.writeTone), s)
  {
    var c := if a.writeTone == cfg.g1.restricted then b.(num := b.num.(restricted := true)) else b;
    AfterAniAsks(cfg, a, c, s);
  }

  /** All the ANI there is to collect has been collected. */
  lemma AfterAniAsks(cfg: Config, a: Chan, c: Chan, s: Session)
    requires Good(cfg, s) && CallerBusy(a, s) && CalleeReady(c, s) && c.mfGroup == GA
    requires a.mfGroup == GI && a.num.categorySent && a.mfState != DnisEndTxd && a.mfState != WaitingTimeout
    requires cfg.getAniFirst ==> a.num.dnisIndex == |c.num.dnis| - 1
    requires |c.num.dnis| == DnisBeforeAni(cfg, s) && |c.num.ani| == AniExpected(cfg, s) && TakesAni(cfg)
    requires c.mfState == AniRqTxd
    requires c.num.restricted == RestrictedExpected(cfg, s) && c.num.category == s.category
    ensures Responds(cfg, a, c, AfterAni(cfg, c), s)
  {
    if !cfg.getAniFirst || DnisComplete(cfg, c) {
      Concludes(cfg, a, c, c, s);
    } else {
      AsksFor(cfg, c);
      AskedIsBusy(cfg, c, DnisRqTxd, s);
    }
  }

  // ---------------------------------------------------------------------------------------
  // The moves of a setup, and the stages before and after register signalling

  /** The user of the callee accepts or rejects the call, or the callee accepts it at once. */
  datatype Decision = Accepting(mode: CallMode) | Rejecting(cause: Cause) | AtOnce

  function DecisionTone(cfg: Config, d: Decision): Tone {
    match d
    case Accepting(mode) => ToneFromMode(cfg, mode)
    case Rejecting(cause) => RejectTone(cfg, cause)
    case AtOnce => cfg.ga.addressComplete
  }

  /** The table has a tone for the decision, and only a callee set up to do so accepts at once. */
  predicate CanDecide(cfg: Config, d: Decision) {
    DecisionTone(cfg, d) != NO_TONE && (d.AtOnce? ==> cfg.immediateAccept)
  }

  predicate Undecided(b: Chan) { b.callState == Offered && b.mfState == ChgGiiTxd }

  predicate AcceptedAtOnce(b: Chan) { b.callState == Offered && b.mfState == AcceptedTxd }

  /**
   No timer but the answer delay expires; the caller does not give up; the callee's user keeps asking for
   DNIS, and once the call is offered accepts or rejects it once, with a tone the table has.
   */
  predicate InStep(k: Configs, p: Pair, m: Move) {
    match m.action
    case Listen(reply) => if m.onA then !reply.dropOnAccept else reply.moreDnis
    case Expire(id) => if m.onA then id !in p.a.timers.live else id in p.b.timers.live ==>
        p.b.timers.live[id] == AnswerDelay
    case Drop(cause) => !m.onA && Undecided(p.b) && DecisionTone(k.b, Rejecting(cause)) != NO_TONE
    case AcceptAs(mode) =>
      m.onA || (p.b.callState == Offered ==> Undecided(p.b) && DecisionTone(k.b, Accepting(mode)) != NO_TONE)
    case _ => true
  }

  /** The decision made so far, if m is the move made next. */
  function DecisionAfter(k: Configs, p: Pair, m: Move, d: Option<Decision>): Option<Decision> {
    if d.Some? then d
    else if !Undecided(p.b) then if AcceptedAtOnce(Next2(k, p, m).b) then Some(AtOnce) else None
    else if m.onA then None
    else match m.action
         case AcceptAs(mode) => Some(Accepting(mode))
         case Drop(cause) => Some(Rejecting(cause))
         case _ => None
  }

  ghost predicate CallerSeizing(a: Chan, s: Session) {
    && !a.inAlarm && a.direction == Forward && a.callState == Dialing && a.r2State == SeizeTxd
    && a.casRead == BITS_IDLE && a.casTx == CasSeize && a.mfState == MfOff && !a.answered
    && a.writeTone == NO_TONE && a.readTone == NO_TONE
    && SeizeRunning(a.timers)
    && a.num == Numbers(s.dnis, 0, s.ani, if s.aniGiven then Some(0) else None, s.restricted, s.category, false)
    && CountFaults(a.log) == s.faultsA && VerdictHeard(a.log) == None
  }

  /** A channel at rest on an idle line. */
  ghost predicate AtRest(c: Chan) {
    && c.r2State == Idle && c.callState == CallIdle && c.direction == Stopped && c.mfState == MfOff
    && !c.inAlarm && c.casRead == BITS_IDLE && c.casTx == CasIdle && c.timers == NO_TIMERS && c.num == NO_NUMBERS
    && c.writeTone == NO_TONE && c.readTone == NO_TONE && !c.answered
  }

  ghost predicate Seized(p: Pair, s: Session) {
    CallerSeizing(p.a, s) && AtRest(p.b) && CountFaults(p.b.log) == s.faultsB
  }

  ghost predicate SeizeSeen(p: Pair, s: Session) {
    && CallerSeizing(p.a, s) && CalleeBusy(p.b, s)
    && p.b.mfState == MfSeizeAckTxd && p.b.mfGroup == BackInit && p.b.num == NO_NUMBERS
    && p.b.writeTone == NO_TONE && p.b.readTone == NO_TONE && p.b.timers.live == map[]
  }

  function OfferExpected(cfg: Config, s: Session): Event
    requires 0 <= AniExpected(cfg, s) <= |s.ani| && 0 <= DnisExpected(cfg, s) <= |s.dnis|
  {
    CallOffered(s.ani[..AniExpected(cfg, s)], s.dnis[..DnisExpected(cfg, s)],
                ToneToCategory(cfg, CategoryExpected(cfg, s)), RestrictedExpected(cfg, s))
  }

  lemma ExpectedInRange(cfg: Config, s: Session)
    requires |s.dnis| > 0
    ensures 0 <= AniExpected(cfg, s) <= |s.ani| && 1 <= DnisExpected(cfg, s) <= |s.dnis|
  {
  }

  /** The offer the callee's user should see. */
  ghost predicate OfferedAsExpected(cfg: Config, b: Chan, s: Session) {
    |s.dnis| > 0 && (ExpectedInRange(cfg, s); OfferMade(b.log) == Some(OfferExpected(cfg, s)))
  }

  /** The group in which the callee decides. */
  function GroupOf(d: Decision): MfGroup { if d.AtOnce? then GA else GB }

  ghost predicate CalleeOffered(cfg: Config, b: Chan, s: Session, g: MfGroup) {
    && !b.inAlarm && b.direction == Backward && b.callState == Offered && b.r2State == SeizeAckTxd
    && b.casRead == BITS_SEIZE && b.casTx == CasSeizeAck && b.mfGroup == g
    && CountFaults(b.log) == s.faultsB && OfferedAsExpected(cfg, b, s)
  }

  /** The caller has sent the last it was asked for and waits for the decision, in the group it is made in. */
  ghost predicate CallerWaiting(a: Chan, s: Session, d: Decision) {
    CallerBusy(a, s) && a.mfGroup == (if d.AtOnce? then GI else GII)
  }

  ghost predicate AwaitingDecision(cfg: Config, p: Pair, s: Session) {
    && CallerBusy(p.a, s) && p.a.mfGroup == GII
    && CalleeOffered(cfg, p.b, s, GB)
    && p.b.mfState == ChgGiiTxd && p.b.timers.live == map[] && p.b.timers.lastId >= 1
    && p.a.writeTone == s.category && s.category != NO_TONE && p.a.readTone == NO_TONE
    && p.b.writeTone == NO_TONE && p.b.readTone == s.category
  }

  predicate DecidedState(d: Decision, m: MfState) {
    m == (if d.Rejecting? then DisconnectTxd else AcceptedTxd)
  }

  /** The decision tone is on the line and has not been heard. */
  ghost predicate Decided1(cfg: Config, p: Pair, s: Session, d: Decision) {
    && CallerWaiting(p.a, s, d) && CalleeOffered(cfg, p.b, s, GroupOf(d)) && CycleTimer(p.b.timers)
    && DecidedState(d, p.b.mfState) && CanDecide(cfg, d)
    && p.a.writeTone != NO_TONE && p.a.readTone == NO_TONE
    && p.b.writeTone == DecisionTone(cfg, d) && p.b.readTone == p.a.writeTone
  }

  /** The caller heard it and went silent. */
  ghost predicate Decided2(cfg: Config, p: Pair, s: Session, d: Decision) {
    && CallerWaiting(p.a, s, d) && CalleeOffered(cfg, p.b, s, GroupOf(d)) && CycleTimer(p.b.timers)
    && DecidedState(d, p.b.mfState) && CanDecide(cfg, d)
    && p.a.writeTone == NO_TONE && p.a.readTone == DecisionTone(cfg, d)
    && p.b.writeTone == DecisionTone(cfg, d) && p.b.readTone != NO_TONE
  }

  ghost predicate DelayOnly(tt: TimerTable) { forall id :: id in tt.live ==> tt.live[id] == AnswerDelay }

  /** The callee after the compelled cycles: about to answer or answered, or waiting to be cleared. */
  ghost predicate CalleeDone(cfg: Config, b: Chan, s: Session, d: Decision) {
    && !b.inAlarm && b.direction == Backward && b.casRead == BITS_SEIZE && b.writeTone == NO_TONE &&
        b.readTone == NO_TONE
    && CountFaults(b.log) == s.faultsB && OfferedAsExpected(cfg, b, s) && DelayOnly(b.timers)
    && if d.Rejecting? then
         b.callState == Offered && b.r2State == SeizeAckTxd && b.casTx == CasSeizeAck && b.mfState == DisconnectTxd
       else
         && b.mfState == MfOff
         && ((b.callState == Accepted && b.r2State == SeizeAckTxd && b.casTx == CasSeizeAck) ||
             (b.callState == Answered && b.r2State == AnswerTxd && b.casTx == CasAnswer))
  }

  /** The callee is silent; the caller has yet to hear that, and may already have seen the answer on the line. */
  ghost predicate Decided3(cfg: Config, p: Pair, s: Session, d: Decision) {
    && CalleeDone(cfg, p.b, s, d)
    && CanDecide(cfg, d)
    && p.a.writeTone == NO_TONE && p.a.readTone == DecisionTone(cfg, d)
    && (CallerWaiting(p.a, s, d) ||
        (p.a.r2State == AnswerRxdMfPending && p.a.casRead == BITS_ANSWER && p.b.casTx == CasAnswer &&
         CallerWaiting(p.a.(r2State := SeizeAckRxd, casRead := BITS_SEIZE_ACK), s, d)))
  }

  /** What the caller's user hears for a group B tone. */
  function Heard(cfg: Config, tone: Tone): Event {
    if tone == cfg.gb.acceptCharge || tone == cfg.gb.acceptNoCharge || tone == cfg.gb.specialInfo then
      CallAccepted(ModeFromTone(cfg, tone))
    else if tone == cfg.gb.busy then CallDisconnect(BusyNumber)
    else if tone == cfg.gb.congestion then CallDisconnect(NetworkCongestion)
    else if tone == cfg.gb.unallocated then CallDisconnect(UnallocatedNumber)
    else if tone == cfg.gb.numberChanged then CallDisconnect(NumberChanged)
    else CallDisconnect(OutOfOrder)
  }

  /** What it hears of a decision. */
  function Verdict(cfg: Config, d: Decision): Event {
    if d.AtOnce? then CallAccepted(WithCharge) else Heard(cfg, DecisionTone(cfg, d))
  }

  /** The caller after the decision. */
  ghost predicate CallerTold(cfg: Config, a: Chan, tx: CasSignal, s: Session, d: Decision) {
    && !a.inAlarm && a.direction == Forward && a.casTx == CasSeize && a.writeTone == NO_TONE && a.readTone == NO_TONE
    && CountFaults(a.log) == s.faultsA && VerdictHeard(a.log) == Some(Verdict(cfg, d))
    && match a.r2State
       case AcceptRxd => a.callState == Dialing && a.casRead == BITS_SEIZE_ACK && !a.answered && AnswerTimer(a.timers)
       case AnswerRxd =>
         a.callState == Answered && a.casRead == BITS_ANSWER && a.mfState == MfOff && tx == CasAnswer &&
             a.timers.live == map[]
       case ClearBackToneRxd => a.callState == Disconnected && a.casRead == BITS_SEIZE_ACK && d.Rejecting?
       case _ => false
  }

  /** The answer timer alone is running, under the id its field holds. */
  ghost predicate AnswerTimer(tt: TimerTable) {
    1 <= IdOf(tt, Answer) <= tt.lastId && tt.live == map[IdOf(tt, Answer) := Answer]
  }

  ghost predicate Told(cfg: Config, p: Pair, s: Session, d: Decision) {
    CallerTold(cfg, p.a, p.b.casTx, s, d) && CalleeDone(cfg, p.b, s, d)
  }

  ghost predicate SetupInv(cfg: Config, p: Pair, s: Session, d: Option<Decision>) {
    match d
    case None =>
      Seized(p, s) || SeizeSeen(p, s) ||
      Beat1(cfg, p, s) || Beat2(cfg, p, s) || Beat3(cfg, p, s) || Beat4(cfg, p, s) || AwaitingDecision(cfg, p, s)
    case Some(e) => Decided1(cfg, p, s, e) || Decided2(cfg, p, s, e) || Decided3(cfg, p, s, e) || Told(cfg, p, s, e)
  }

  // ---------------------------------------------------------------------------------------
  // Beats

  /** While the registers work, only listening changes anything. */
  lemma QuietInBeats(k: Configs, p: Pair, s: Session, m: Move)
    requires CallerBusy(p.a, s) && CalleeBusy(p.b, s) && InStep(k, p, m) && !m.action.Listen?
    ensures Next2(k, p, m) == p
  {
  }

  lemma SameToneIgnored(cfg: Config, x: Chan, tone: Tone, u: Reply)
    requires tone == x.readTone
    ensures HandleMedia(cfg, x, tone, u) == x
  {
  }

  /** The callee just after taking a tone and stopping its cycle timer. */
  function Taken(b: Chan, tone: Tone): Chan { Cancel(b.(readTone := tone), BackCycle) }

  lemma ToneTaken(cfg: Config, p: Pair, s: Session)
    requires Beat1(cfg, p, s)
    ensures CalleeReady(Taken(p.b, p.a.writeTone), s)
    ensures Taken(p.b, p.a.writeTone) == p.b.(readTone := p.a.writeTone, timers := Taken(p.b, p.a.writeTone).timers)
  {
    CycleCancelled(p.b.(readTone := p.a.writeTone));
  }

  /** The receiver a tone goes to, by what was asked. */
  function Received(cfg: Config, c: Chan, tone: Tone, u: Reply): Chan {
    match c.mfState
    case CategoryRqTxd => ReceiveCategory(cfg, c, tone)
    case AniRqTxd => ReceiveAni(cfg, c, tone)
    case ChgGiiTxd => OfferCall(cfg, c)
    case _ => ReceiveDnis(cfg, c, tone, u)
  }

  lemma ToneDispatched(cfg: Config, p: Pair, s: Session, u: Reply)
    requires Fair(cfg, s) && Beat1(cfg, p, s)
    ensures HandleMedia(cfg, p.b, p.a.writeTone, u) == Received(cfg, Taken(p.b, p.a.writeTone), p.a.writeTone, u)
  {
    HearsInGroup(cfg, p, s);
    ReceivedInGroup(cfg, p.b, p.a.writeTone, u);
  }

  /** A callee that listens, in the group of its request. */
  predicate InItsGroup(b: Chan) {
    && b.direction == Backward && b.readTone == NO_TONE
    && match b.mfState
       case MfSeizeAckTxd => b.mfGroup == BackInit
       case ChgGiiTxd => b.mfGroup == GB
       case _ => b.mfGroup == GA && (b.mfState == DnisRqTxd || b.mfState == CategoryRqTxd || b.mfState == AniRqTxd)
  }

  lemma HearsInGroup(cfg: Config, p: Pair, s: Session)
    requires Beat1(cfg, p, s)
    ensures InItsGroup(p.b) && p.a.writeTone != NO_TONE
  {
  }

  lemma ReceivedInGroup(cfg: Config, b: Chan, tone: Tone, u: Reply)
    requires InItsGroup(b) && tone != NO_TONE && !(cfg.getAniFirst && cfg.aniCanComeFirst)
    ensures HandleMedia(cfg, b, tone, u) == Received(cfg, Taken(b, tone), tone, u)
  {
    assert HandleMedia(cfg, b, tone, u) == HandleForwardTone(cfg, b.(readTone := tone), tone, u);
  }

  lemma CalleeAsksNext(cfg: Config, p: Pair, s: Session, u: Reply)
    requires Good(cfg, s) && Beat1(cfg, p, s) && u.moreDnis && p.b.mfState != ChgGiiTxd
    ensures Responds(cfg, p.a, Taken(p.b, p.a.writeTone), Received(cfg, Taken(p.b, p.a.writeTone), p.a.writeTone, u), s)
  {
    var c := Taken(p.b, p.a.writeTone);
    ToneTaken(cfg, p, s);
    if c.mfState == CategoryRqTxd { HearsCategory(cfg, p.a, c, s); }
    else if c.mfState == AniRqTxd { HearsAni(cfg, p.a, c, s); }
    else { HearsDnis(cfg, p.a, c, s, u); }
  }

  lemma HearsAni(cfg: Config, a: Chan, b: Chan, s: Session)
    requires Good(cfg, s) && CallerBusy(a, s) && CalleeReady(b, s) && Serves(cfg, a, b, s)
    requires b.mfState == AniRqTxd && Collected(cfg, b, s)
    ensures Responds(cfg, a, b, ReceiveAni(cfg, b, a.writeTone), s)
  {
    if |b.num.ani| < |s.ani| { HearsAniDigit(cfg, a, b, s); } else { HearsAniEnd(cfg, a, b, s); }
  }

  lemma HearsDnis(cfg: Config, a: Chan, b: Chan, s: Session, u: Reply)
    requires Good(cfg, s) && CallerBusy(a, s) && CalleeReady(b, s) && Serves(cfg, a, b, s) && u.moreDnis
    requires b.mfState == MfSeizeAckTxd || (b.mfState == DnisRqTxd && Collected(cfg, b, s))
    ensures Responds(cfg, a, b, ReceiveDnis(cfg, b, a.writeTone, u), s)
  {
    if |b.num.dnis| < |s.dnis| { HearsDnisDigit(cfg, a, b, s, u); } else { HearsDnisEnd(cfg, a, b, s, u); }
  }

  lemma ResponseIsNext(cfg: Config, p: Pair, c: Chan, d: Chan, s: Session)
    requires Good(cfg, s) && Beat1(cfg, p, s) && c.readTone == p.a.writeTone && Responds(cfg, p.a, c, d, s)
    ensures Beat2(cfg, p.(b := d), s) || Decided1(cfg, p.(b := d), s, AtOnce)
  {
    if Asks(cfg, p.a, c, d, s) { assert Beat2(cfg, p.(b := d), s); }
    else { assert Decided1(cfg, p.(b := d), s, AtOnce); }
  }

  lemma CalleeHears(cfg: Config, p: Pair, s: Session, u: Reply)
    requires Good(cfg, s) && Beat1(cfg, p, s) && u.moreDnis
    ensures var q := p.(b := HandleMedia(cfg, p.b, p.a.writeTone, u));
            Beat2(cfg, q, s) || AwaitingDecision(cfg, q, s) || Decided1(cfg, q, s, AtOnce)
  {
    var c := Taken(p.b, p.a.writeTone);
    ToneDispatched(cfg, p, s, u);
    ToneTaken(cfg, p, s);
    if p.b.mfState == ChgGiiTxd {
      CallIsOffered(cfg, p, c, s);
    } else {
      CalleeAsksNext(cfg, p, s, u);
      ResponseIsNext(cfg, p, c, Received(cfg, c, p.a.writeTone, u), s);
    }
  }

  lemma CallIsOffered(cfg: Config, p: Pair, c: Chan, s: Session)
    requires Good(cfg, s) && Beat1(cfg, p, s) && p.b.mfState == ChgGiiTxd
    requires CalleeReady(c, s) && c == p.b.(readTone := p.a.writeTone, timers := c.timers)
    ensures AwaitingDecision(cfg, p.(b := OfferCall(cfg, c)), s)
  {
    ExpectedInRange(cfg, s);
  }

  lemma CallerHearsRequest(cfg: Config, p: Pair, s: Session, u: Reply)
    requires Unambiguous(cfg) && Beat2(cfg, p, s)
    ensures Beat3(cfg, p.(a := HandleMedia(cfg, p.a, p.b.writeTone, u)), s)
  {
    assert RequestTone(cfg, p.b.mfState) != NO_TONE;
    assert IdOf(p.a.timers, FwdSafety) !in p.a.timers.live;
    assert HandleMedia(cfg, p.a, p.b.writeTone, u) == p.a.(readTone := p.b.writeTone, writeTone := NO_TONE);
  }

  lemma CalleeHearsSilence(cfg: Config, p: Pair, s: Session, u: Reply)
    requires Beat3(cfg, p, s)
    ensures Beat4(cfg, p.(b := HandleMedia(cfg, p.b, p.a.writeTone, u)), s)
  {
    assert HandleMedia(cfg, p.b, NO_TONE, u) == p.b.(readTone := NO_TONE, writeTone := NO_TONE);
  }

  /** The caller with its answer on the line, before the tone it answers is forgotten. */
  ghost predicate Served(cfg: Config, a: Chan, b: Chan, s: Session) {
    CallerBusy(a, s) && Serves(cfg, a, b, s) && a.writeTone != NO_TONE
  }

  lemma ServesDnis(cfg: Config, a: Chan, b: Chan, s: Session)
    requires Good(cfg, s) && CallerBusy(a, s) && CalleeBusy(b, s) && Collected(cfg, b, s) && CanServe(cfg, a, b, s)
    requires b.mfState == DnisRqTxd && a.writeTone == NO_TONE
    ensures Served(cfg, SendDnis(cfg, a, 1), b, s)
  {
  }

  lemma ServesCategory(cfg: Config, a: Chan, b: Chan, s: Session)
    requires Good(cfg, s) && CallerBusy(a, s) && CalleeBusy(b, s) && Collected(cfg, b, s) && CanServe(cfg, a, b, s)
    requires a.writeTone == NO_TONE
    ensures b.mfState == CategoryRqTxd ==> Served(cfg, SendCategory(a), b, s)
    ensures b.mfState == ChgGiiTxd ==> Served(cfg, SendCategory(a.(mfGroup := GII)), b, s)
  {
  }

  lemma ServesAni(cfg: Config, a: Chan, b: Chan, s: Session)
    requires Good(cfg, s) && CallerBusy(a, s) && CalleeBusy(b, s) && Collected(cfg, b, s) && CanServe(cfg, a, b, s)
    requires b.mfState == AniRqTxd && a.writeTone == NO_TONE
    ensures Served(cfg, SendAni(cfg, a), b, s)
  {
  }

  lemma CallerServes(ka: Config, kb: Config, p: Pair, s: Session, u: Reply)
    requires Good(kb, s) && Unambiguous(ka) && SameTones(ka, kb) && Beat4(kb, p, s)
    ensures Beat1(kb, p.(a := HandleMedia(ka, p.a, p.b.writeTone, u)), s)
  {
    var a, b := p.a, p.b;
    ServesRequest(kb, a, b, s);
    ServingIgnoresLimits(ka, kb, a);
    RequestIsRead(ka, a, b.mfState, u);
    SilenceDispatched(ka, a, u);
    assert HandleMedia(ka, a, NO_TONE, u) == Answering(kb, a, b.mfState).(readTone := NO_TONE);
    ServedIsNext(kb, p, Answering(kb, a, b.mfState), s);
  }

  /** What the caller does about a request. */
  function Answering(cfg: Config, a: Chan, m: MfState): Chan {
    match m
    case DnisRqTxd => SendDnis(cfg, a, 1)
    case AniRqTxd => SendAni(cfg, a)
    case CategoryRqTxd => SendCategory(a)
    case _ => SendCategory(a.(mfGroup := GII))
  }

  lemma ServesRequest(cfg: Config, a: Chan, b: Chan, s: Session)
    requires Good(cfg, s) && CallerBusy(a, s) && CalleeBusy(b, s) && Collected(cfg, b, s) && CanServe(cfg, a, b, s)
    requires a.writeTone == NO_TONE
    ensures Served(cfg, Answering(cfg, a, b.mfState), b, s)
  {
    match b.mfState {
      case DnisRqTxd => ServesDnis(cfg, a, b, s);
      case AniRqTxd => ServesAni(cfg, a, b, s);
      case _ => ServesCategory(cfg, a, b, s);
    }
  }

  lemma ServedIsNext(cfg: Config, p: Pair, d: Chan, s: Session)
    requires Beat4(cfg, p, s) && Served(cfg, d, p.b, s)
    ensures Beat1(cfg, p.(a := d.(readTone := NO_TONE)), s)
  {
  }

  lemma SilenceDispatched(cfg: Config, a: Chan, u: Reply)
    requires a.direction == Forward && a.mfState != MfOff && a.readTone != NO_TONE
    ensures HandleMedia(cfg, a, NO_TONE, u) == HandleBackwardSilence(cfg, a, a.readTone, u).(readTone := NO_TONE)
  {
  }

  /** What the caller sends depends on the tone table alone. */
  lemma ServingIgnoresLimits(ka: Config, kb: Config, a: Chan)
    requires SameTones(ka, kb)
    ensures SendDnis(ka, a, 1) == SendDnis(kb, a, 1)
    ensures SendAni(ka, a) == SendAni(kb, a)
    ensures SendDnis(ka, a, 0) == SendDnis(kb, a, 0)
  {
  }

  /** Every request tone is read as the request it stands for. */
  lemma RequestIsRead(cfg: Config, a: Chan, m: MfState, u: Reply)
    requires Unambiguous(cfg) && a.mfGroup == GI
    requires (m == AniRqTxd ==> a.num.categorySent) && (m == CategoryRqTxd ==> !a.num.categorySent)
    requires m == DnisRqTxd || m == AniRqTxd || m == CategoryRqTxd || m == ChgGiiTxd
    ensures HandleBackwardSilence(cfg, a, RequestTone(cfg, m), u) ==
            Answering(cfg, a, m)
  {
  }

  lemma BeatStep(k: Configs, p: Pair, s: Session, m: Move)
    requires Good(k.b, s) && Unambiguous(k.a) && SameTones(k.a, k.b) && InStep(k, p, m)
    requires Beat1(k.b, p, s) || Beat2(k.b, p, s) || Beat3(k.b, p, s) || Beat4(k.b, p, s)
    ensures SetupInv(k.b, Next2(k, p, m), s, DecisionAfter(k, p, m, None))
  {
    var q := Next2(k, p, m);
    if !m.action.Listen? { QuietInBeats(k, p, s, m); }
    else if m.onA { CallerListens(k, p, s, m.action.reply); }
    else { CalleeListens(k, p, s, m.action.reply); }
    assert !Undecided(p.b) by { BeatsAreUndecided(k.b, p, s); }
    AtOnceOrNot(k.b, q, s);
  }

  lemma AtOnceOrNot(cfg: Config, p: Pair, s: Session)
    requires Beat1(cfg, p, s) || Beat2(cfg, p, s) || Beat3(cfg, p, s) || Beat4(cfg, p, s) ||
        AwaitingDecision(cfg, p, s) ||
             Decided1(cfg, p, s, AtOnce)
    ensures SetupInv(cfg, p, s, if AcceptedAtOnce(p.b) then Some(AtOnce) else None)
  {
    if Decided1(cfg, p, s, AtOnce) { AtOnceIsSeen(cfg, p, s); } else { NotAtOnce(cfg, p, s); }
  }

  lemma BeatsAreUndecided(cfg: Config, p: Pair, s: Session)
    requires Beat1(cfg, p, s) || Beat2(cfg, p, s) || Beat3(cfg, p, s) || Beat4(cfg, p, s)
    ensures !Undecided(p.b)
  {
  }

  lemma AtOnceIsSeen(cfg: Config, p: Pair, s: Session)
    requires Decided1(cfg, p, s, AtOnce)
    ensures AcceptedAtOnce(p.b)
  {
  }

  lemma NotAtOnce(cfg: Config, p: Pair, s: Session)
    requires Beat1(cfg, p, s) || Beat2(cfg, p, s) || Beat3(cfg, p, s) || Beat4(cfg, p, s) || AwaitingDecision(cfg, p, s)
    ensures !AcceptedAtOnce(p.b)
  {
  }

  lemma CallerListens(k: Configs, p: Pair, s: Session, u: Reply)
    requires Good(k.b, s) && Unambiguous(k.a) && SameTones(k.a, k.b)
    requires Beat1(k.b, p, s) || Beat2(k.b, p, s) || Beat3(k.b, p, s) || Beat4(k.b, p, s)
    ensures var q := p.(a := HandleMedia(k.a, p.a, p.b.writeTone, u));
            Beat1(k.b, q, s) || Beat3(k.b, q, s)
  {
    if Beat1(k.b, p, s) || Beat3(k.b, p, s) { SameToneIgnored(k.a, p.a, p.b.writeTone, u); }
    else if Beat2(k.b, p, s) {
      CallerHearsRequest(k.b, p, s, u);
      MutingIgnoresLimits(k.a, k.b, p.a, p.b.writeTone, u);
    }
    else { CallerServes(k.a, k.b, p, s, u); }
  }

  lemma MutingIgnoresLimits(ka: Config, kb: Config, a: Chan, tone: Tone, u: Reply)
    requires a.direction == Forward && tone != NO_TONE && a.readTone == NO_TONE
    ensures HandleMedia(ka, a, tone, u) == HandleMedia(kb, a, tone, u)
  {
  }

  lemma CalleeListens(k: Configs, p: Pair, s: Session, u: Reply)
    requires Good(k.b, s) && u.moreDnis
    requires Beat1(k.b, p, s) || Beat2(k.b, p, s) || Beat3(k.b, p, s) || Beat4(k.b, p, s)
    ensures var q := p.(b := HandleMedia(k.b, p.b, p.a.writeTone, u));
            Beat2(k.b, q, s) || Beat4(k.b, q, s) || AwaitingDecision(k.b, q, s) || Decided1(k.b, q, s, AtOnce)
  {
    if Beat1(k.b, p, s) { CalleeHears(k.b, p, s, u); }
    else if Beat3(k.b, p, s) { CalleeHearsSilence(k.b, p, s, u); }
    else { SameToneIgnored(k.b, p.b, p.a.writeTone, u); }
  }

  // ---------------------------------------------------------------------------------------
  // Seizing

  lemma SeizeStep(k: Configs, p: Pair, s: Session, m: Move)
    requires Serviceable(k.b) && Seized(p, s) && InStep(k, p, m)
    ensures Seized(Next2(k, p, m), s) || SeizeSeen(Next2(k, p, m), s)
  {
  }

  lemma AcknowledgeStep(k: Configs, p: Pair, s: Session, m: Move)
    requires Fair(k.b, s) && SameTones(k.a, k.b) && SeizeSeen(p, s) && InStep(k, p, m)
    ensures SeizeSeen(Next2(k, p, m), s) || Beat1(k.b, Next2(k, p, m), s)
  {
    if m.onA && m.action.Sample? { SeizeAcknowledgedStarts(k.a, k.b, p, s); }
  }

  lemma SeizeAcknowledgedStarts(ka: Config, kb: Config, p: Pair, s: Session)
    requires Fair(kb, s) && SameTones(ka, kb) && SeizeSeen(p, s)
    ensures Beat1(kb, p.(a := HandleCas(ka, p.a, BITS_SEIZE_ACK)), s)
  {
    FirstDigitOn(ka, p.a, s);
  }

  lemma FirstDigitOn(cfg: Config, a: Chan, s: Session)
    requires CallerSeizing(a, s) && s.dnis != "" && s.dnis[0] != NO_TONE
    ensures var d := HandleCas(cfg, a, BITS_SEIZE_ACK);
            && CallerBusy(d, s) && d.mfState == DnisTxd && d.mfGroup == GI && d.num == a.num
            && d.writeTone == s.dnis[0] && d.readTone == NO_TONE
  {
    SeizeStopped(a.timers);
  }

  lemma SeizeStopped(tt: TimerTable)
    requires SeizeRunning(tt)
    ensures CancelTimer(tt, Seize).live == map[]
  {
  }

  // ---------------------------------------------------------------------------------------
  // The decision

  lemma DecisionStep(k: Configs, p: Pair, s: Session, m: Move)
    requires Good(k.b, s) && AwaitingDecision(k.b, p, s) && InStep(k, p, m)
    ensures SetupInv(k.b, Next2(k, p, m), s, DecisionAfter(k, p, m, None))
  {
    if !m.onA && m.action.AcceptAs? { AcceptanceSent(k.b, p, s, m.action.mode); }
    else if !m.onA && m.action.Drop? { RejectionSent(k.b, p, s, m.action.cause); }
    else { QuietWhileDeciding(k, p, s, m); }
  }

  lemma QuietWhileDeciding(k: Configs, p: Pair, s: Session, m: Move)
    requires AwaitingDecision(k.b, p, s) && InStep(k, p, m)
    requires m.onA || (!m.action.AcceptAs? && !m.action.Drop?)
    ensures Next2(k, p, m) == p && DecisionAfter(k, p, m, None) == None
  {
  }

  lemma AcceptanceSent(cfg: Config, p: Pair, s: Session, mode: CallMode)
    requires AwaitingDecision(cfg, p, s) && DecisionTone(cfg, Accepting(mode)) != NO_TONE
    ensures Decided1(cfg, p.(b := AcceptCall(cfg, p.b, mode)), s, Accepting(mode))
  {
    CycleStarted(p.b.timers);
  }

  lemma RejectionSent(cfg: Config, p: Pair, s: Session, cause: Cause)
    requires AwaitingDecision(cfg, p, s) && DecisionTone(cfg, Rejecting(cause)) != NO_TONE
    ensures Decided1(cfg, p.(b := DisconnectCall(cfg, p.b, cause)), s, Rejecting(cause))
  {
    CycleStarted(p.b.timers);
  }

  lemma Decided1Step(k: Configs, p: Pair, s: Session, d: Decision, m: Move)
    requires Good(k.b, s) && Decided1(k.b, p, s, d) && InStep(k, p, m)
    ensures Decided1(k.b, Next2(k, p, m), s, d) || Decided2(k.b, Next2(k, p, m), s, d)
  {
    if m.onA && m.action.Listen? {
      assert IdOf(p.a.timers, FwdSafety) !in p.a.timers.live;
    } else {
      assert Next2(k, p, m) == p;
    }
  }

  lemma Decided2Step(k: Configs, p: Pair, s: Session, d: Decision, m: Move)
    requires Good(k.b, s) && Decided2(k.b, p, s, d) && InStep(k, p, m)
    ensures Decided2(k.b, Next2(k, p, m), s, d) || Decided3(k.b, Next2(k, p, m), s, d)
  {
    if !m.onA && m.action.Listen? {
      CalleeHearsTheEnd(k.b, p, s, d, m.action.reply);
    } else {
      assert Next2(k, p, m) == p;
    }
  }

  lemma CalleeHearsTheEnd(cfg: Config, p: Pair, s: Session, d: Decision, u: Reply)
    requires Good(cfg, s) && Decided2(cfg, p, s, d)
    ensures Decided3(cfg, p.(b := HandleMedia(cfg, p.b, NO_TONE, u)), s, d)
  {
    var c := p.b.(writeTone := NO_TONE);
    if !d.Rejecting? {
      var e := Cancel(c, BackCycle);
      CycleCancelled(c);
      DelayStarted(e.timers);
      assert HandleMedia(cfg, p.b, NO_TONE, u) ==
             e.(mfState := MfOff, callState := Accepted, timers := AddTimer(e.timers, AnswerDelay),
                 readTone := NO_TONE);
    } else {
      assert HandleMedia(cfg, p.b, NO_TONE, u) == c.(timers := NO_TIMERS, readTone := NO_TONE);
    }
  }

  lemma DelayStarted(tt: TimerTable)
    requires tt.live == map[]
    ensures DelayOnly(AddTimer(tt, AnswerDelay)) && !SlotsFull(tt)
  {
  }

  lemma Decided3Step(k: Configs, p: Pair, s: Session, d: Decision, m: Move)
    requires Good(k.b, s) && SameTones(k.a, k.b) && Decided3(k.b, p, s, d) && InStep(k, p, m)
    ensures Decided3(k.b, Next2(k, p, m), s, d) || Told(k.b, Next2(k, p, m), s, d)
  {
    if !m.onA { Decided3Callee(k, p, s, d, m.action); }
    else if m.action.Listen? { CallerHearsDecision(k.a, k.b, p, s, d, m.action.reply); }
    else { Decided3Caller(k, p, s, d, m.action); }
  }

  lemma Decided3Caller(k: Configs, p: Pair, s: Session, d: Decision, action: Action)
    requires Decided3(k.b, p, s, d) && InStep(k, p, Move(true, action)) && !action.Listen?
    ensures Decided3(k.b, Next2(k, p, Move(true, action)), s, d)
  {
  }

  lemma Decided3Callee(k: Configs, p: Pair, s: Session, d: Decision, action: Action)
    requires Decided3(k.b, p, s, d) && InStep(k, p, Move(false, action))
    ensures Decided3(k.b, Next2(k, p, Move(false, action)), s, d)
  {
    match action {
      case Pick => CalleePicks(k.b, p, s, d);
      case Expire(id) => CalleeDelayExpires(k.b, p, s, d, id);
      case _ => CalleeIdles(k, p, s, d, action);
    }
  }

  lemma CalleePicks(cfg: Config, p: Pair, s: Session, d: Decision)
    requires Decided3(cfg, p, s, d)
    ensures Decided3(cfg, p.(b := AnswerCall(p.b, false)), s, d)
  {
  }

  lemma CalleeDelayExpires(cfg: Config, p: Pair, s: Session, d: Decision, id: int)
    requires Decided3(cfg, p, s, d)
    ensures Decided3(cfg, p.(b := TimerFires(cfg, p.b, id)), s, d)
  {
  }

  lemma CalleeIdles(k: Configs, p: Pair, s: Session, d: Decision, action: Action)
    requires Decided3(k.b, p, s, d) && InStep(k, p, Move(false, action)) && !action.Pick? && !action.Expire?
    ensures Act(k.b, p.b, p.a, action) == p.b
  {
  }

  predicate IsAcceptTone(cfg: Config, tone: Tone) {
    tone == cfg.gb.acceptCharge || tone == cfg.gb.acceptNoCharge || tone == cfg.gb.specialInfo
  }

  lemma CallerHearsDecision(ka: Config, kb: Config, p: Pair, s: Session, d: Decision, u: Reply)
    requires Good(kb, s) && SameTones(ka, kb) && Decided3(kb, p, s, d) && !u.dropOnAccept
    ensures Told(kb, p.(a := HandleMedia(ka, p.a, NO_TONE, u)), s, d)
  {
    DecidedIsHeard(kb, p, s, d);
    DecisionIsRead(ka, kb, p.a, d, u);
    if IsRejection(kb, d) { CallerRejected(ka, kb, p, s, d, u); }
    else if p.a.r2State == SeizeAckRxd { CallerAccepted(ka, kb, p, s, d, u); }
    else { CallerAnswered(ka, kb, p, s, d, u); }
  }

  /** A rejection that is also heard as one. */
  predicate IsRejection(cfg: Config, d: Decision) { !d.AtOnce? && !IsAcceptTone(cfg, DecisionTone(cfg, d)) }

  /** The mode an acceptance is heard with. */
  function HeardMode(cfg: Config, d: Decision): CallMode {
    if d.AtOnce? then WithCharge else ModeFromTone(cfg, DecisionTone(cfg, d))
  }

  /** What the caller makes of the decision tone when it ends. */
  function Judged(cfg: Config, a: Chan, d: Decision, u: Reply): Chan {
    if IsRejection(cfg, d) then HandleGroupBRequest(cfg, a, DecisionTone(cfg, d), u)
    else HandleAcceptTone(cfg, a, HeardMode(cfg, d), u)
  }

  /** The caller, silent, has the decision tone in its ear, in the group it is read in. */
  predicate Hearing(cfg: Config, a: Chan, d: Decision) {
    && a.direction == Forward && a.mfState != MfOff && a.readTone == DecisionTone(cfg, d) && CanDecide(cfg, d)
    && a.mfGroup == if d.AtOnce? then GI else GII
  }

  lemma DecidedIsHeard(cfg: Config, p: Pair, s: Session, d: Decision)
    requires Decided3(cfg, p, s, d)
    ensures Hearing(cfg, p.a, d)
  {
  }

  lemma DecisionIsRead(ka: Config, kb: Config, a: Chan, d: Decision, u: Reply)
    requires Unambiguous(kb) && Workable(kb) && SameTones(ka, kb) && Hearing(kb, a, d)
    ensures HandleMedia(ka, a, NO_TONE, u) == Judged(ka, a, d, u).(readTone := NO_TONE)
  {
    SilenceDispatched(ka, a, u);
    if d.AtOnce? { AtOnceIsRead(ka, a, u); } else { GroupBIsRead(ka, a, d, u); }
  }

  lemma AtOnceIsRead(cfg: Config, a: Chan, u: Reply)
    requires a.mfGroup == GI && AcceptsReadably(cfg) && cfg.ga.category != NO_TONE
    ensures HandleBackwardSilence(cfg, a, cfg.ga.addressComplete, u) == Judged(cfg, a, AtOnce, u)
  {
  }

  lemma GroupBIsRead(cfg: Config, a: Chan, d: Decision, u: Reply)
    requires a.mfGroup == GII && !d.AtOnce?
    ensures HandleBackwardSilence(cfg, a, DecisionTone(cfg, d), u) == Judged(cfg, a, d, u)
  {
  }

  lemma CallerAccepted(ka: Config, kb: Config, p: Pair, s: Session, d: Decision, u: Reply)
    requires SameTones(ka, kb) && Decided3(kb, p, s, d) && !u.dropOnAccept
    requires p.a.r2State == SeizeAckRxd && !IsRejection(kb, d)
    ensures CallerTold(kb, Judged(ka, p.a, d, u).(readTone := NO_TONE), p.b.casTx, s, d)
  {
    AnswerTimerStarted(p.a.timers);
  }

  lemma AnswerTimerStarted(tt: TimerTable)
    requires tt.live == map[] && tt.lastId >= 1
    ensures AnswerTimer(AddTimer(tt, Answer)) && !SlotsFull(tt)
  {
  }

  lemma CallerAnswered(ka: Config, kb: Config, p: Pair, s: Session, d: Decision, u: Reply)
    requires SameTones(ka, kb) && Decided3(kb, p, s, d) && !u.dropOnAccept
    requires p.a.r2State == AnswerRxdMfPending && !IsRejection(kb, d)
    ensures CallerTold(kb, Judged(ka, p.a, d, u).(readTone := NO_TONE), p.b.casTx, s, d)
  {
    EarlyAnswerDelivered(ka, p.a, HeardMode(ka, d), u);
    AnswerTold(kb, p.a, p.b.casTx, s, d, HeardMode(ka, d));
  }

  lemma AnswerTold(cfg: Config, a: Chan, tx: CasSignal, s: Session, d: Decision, mode: CallMode)
    requires a.r2State == AnswerRxdMfPending && a.casRead == BITS_ANSWER && tx == CasAnswer
    requires CallerWaiting(a.(r2State := SeizeAckRxd, casRead := BITS_SEIZE_ACK), s, d) && a.writeTone == NO_TONE
    requires Verdict(cfg, d) == CallAccepted(mode)
    ensures CallerTold(cfg, MarkAnswered(Emit(a.(r2State := AcceptRxd), CallAccepted(mode))).(readTone := NO_TONE), tx,
        s, d)
  {
    NothingToCancel(a.timers);
  }

  lemma EarlyAnswerDelivered(cfg: Config, a: Chan, mode: CallMode, u: Reply)
    requires a.r2State == AnswerRxdMfPending && !u.dropOnAccept
    ensures HandleAcceptTone(cfg, a, mode, u) == MarkAnswered(Emit(a.(r2State := AcceptRxd), CallAccepted(mode)))
  {
  }

  lemma NothingToCancel(tt: TimerTable)
    requires tt.live == map[]
    ensures forall t :: CancelTimer(tt, t) == tt
  {
  }

  lemma CallerRejected(ka: Config, kb: Config, p: Pair, s: Session, d: Decision, u: Reply)
    requires SameTones(ka, kb) && Decided3(kb, p, s, d) && IsRejection(kb, d)
    ensures CallerTold(kb, Judged(ka, p.a, d, u).(readTone := NO_TONE), p.b.casTx, s, d)
  {
  }

  lemma ToldStep(k: Configs, p: Pair, s: Session, d: Decision, m: Move)
    requires SameTones(k.a, k.b) && Told(k.b, p, s, d) && InStep(k, p, m)
    ensures Told(k.b, Next2(k, p, m), s, d)
  {
    if m.onA { ToldCaller(k, p, s, d, m.action); } else { ToldCallee(k, p, s, d, m.action); }
  }

  lemma ToldCaller(k: Configs, p: Pair, s: Session, d: Decision, action: Action)
    requires Told(k.b, p, s, d) && InStep(k, p, Move(true, action))
    ensures CallerTold(k.b, Act(k.a, p.a, p.b, action), p.b.casTx, s, d)
  {
  }

  lemma ToldCallee(k: Configs, p: Pair, s: Session, d: Decision, action: Action)
    requires Told(k.b, p, s, d) && InStep(k, p, Move(false, action))
    ensures var b := Act(k.b, p.b, p.a, action); CallerTold(k.b, p.a, b.casTx, s, d) && CalleeDone(k.b, b, s, d)
  {
  }

  // ---------------------------------------------------------------------------------------
  // Runs

  lemma SetupStep(k: Configs, p: Pair, s: Session, d: Option<Decision>, m: Move)
    requires Good(k.b, s) && Unambiguous(k.a) && SameTones(k.a, k.b)
    requires SetupInv(k.b, p, s, d) && InStep(k, p, m)
    ensures SetupInv(k.b, Next2(k, p, m), s, DecisionAfter(k, p, m, d))
  {
    match d
    case None => UndecidedStep(k, p, s, m);
    case Some(e) => DecidedStep(k, p, s, e, m);
  }

  lemma UndecidedStep(k: Configs, p: Pair, s: Session, m: Move)
    requires Good(k.b, s) && Unambiguous(k.a) && SameTones(k.a, k.b)
    requires SetupInv(k.b, p, s, None) && InStep(k, p, m)
    ensures SetupInv(k.b, Next2(k, p, m), s, DecisionAfter(k, p, m, None))
  {
    if Seized(p, s) { SeizeStep(k, p, s, m); }
    else if SeizeSeen(p, s) { AcknowledgeStep(k, p, s, m); }
    else if AwaitingDecision(k.b, p, s) { DecisionStep(k, p, s, m); }
    else { BeatStep(k, p, s, m); }
  }

  lemma DecidedStep(k: Configs, p: Pair, s: Session, d: Decision, m: Move)
    requires Good(k.b, s) && SameTones(k.a, k.b) && SetupInv(k.b, p, s, Some(d)) && InStep(k, p, m)
    ensures SetupInv(k.b, Next2(k, p, m), s, Some(d))
  {
    if Decided1(k.b, p, s, d) { Decided1Step(k, p, s, d, m); }
    else if Decided2(k.b, p, s, d) { Decided2Step(k, p, s, d, m); }
    else if Decided3(k.b, p, s, d) { Decided3Step(k, p, s, d, m); }
    else { ToldStep(k, p, s, d, m); }
  }

  function FinalDecision(k: Configs, p: Pair, moves: seq<Move>, d: Option<Decision>): Option<Decision>
    decreases |moves|
  {
    if moves == [] then d
    else FinalDecision(k, Next2(k, p, moves[0]), moves[1..], DecisionAfter(k, p, moves[0], d))
  }

  function InStepOf(k: Configs): (Pair, Move) -> bool { (p: Pair, m: Move) => InStep(k, p, m) }

  lemma {:induction false} SetupRun(k: Configs, p: Pair, s: Session, d: Option<Decision>, moves: seq<Move>)
    requires Good(k.b, s) && Unambiguous(k.a) && SameTones(k.a, k.b)
    requires SetupInv(k.b, p, s, d) && Admitted(k, p, moves, InStepOf(k))
    ensures SetupInv(k.b, Run2(k, p, moves), s, FinalDecision(k, p, moves, d))
    decreases |moves|
  {
    if moves != [] {
      SetupStep(k, p, s, d, moves[0]);
      SetupRun(k, Next2(k, p, moves[0]), s, DecisionAfter(k, p, moves[0], d), moves[1..]);
    }
  }

  function Dial(cfg: Config, p: Pair, call: Call): Pair { p.(a := Dialled(cfg, p.a, call)) }

  /** What the caller holds once the request has been taken in: a malformed ANI is withheld, long numbers are cut. */
  function SessionOf(cfg: Config, p: Pair, call: Call): Session {
    var given := call.ani.Some? && AllDigits(call.ani.value);
    Session(Truncated(call.dnis), if given then Truncated(call.ani.value) else "", given, call.restricted,
            CategoryToTone(cfg, call.category), CountFaults(p.a.log), CountFaults(p.b.log))
  }

  /** A digit DNIS, a category the table has a tone for, and an end of DNIS the callee can learn of. */
  predicate Dialable(k: Configs, call: Call) {
    && call.dnis != "" && AllDigits(call.dnis)
    && CategoryToTone(k.a, call.category) != NO_TONE
    && (k.b.g1.noMoreDnis != NO_TONE || Uint32(k.b.maxDnis) <= |Truncated(call.dnis)|)
  }

  lemma DialledIsSeized(k: Configs, p: Pair, call: Call)
    requires AtRest(p.a) && AtRest(p.b) && Dialable(k, call)
    ensures Seized(Dial(k.a, p, call), SessionOf(k.a, p, call)) && Callable(k.b, SessionOf(k.a, p, call))
  {
    var s := SessionOf(k.a, p, call);
    assert AllDigits(s.dnis) && AllDigits(s.ani);
  }
}
