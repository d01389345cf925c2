/**
 Vocabulary of the MFC/R2 stack: line (CAS) signals and their bit patterns, the states of a
 channel, the multi-frequency tone tables and the per-variant configuration.
 */
module Signals {

  datatype Option<+T> = None | Some(value: T)

  // ---------------------------------------------------------------------------------------
  // Line signals

  /** The A and B bits, after masking with the R2 bits of the context: 0x0, 0x4, 0x8 or 0xC. */
  type Bits = int

  datatype CasSignal =
    | CasInvalid | CasIdle | CasBlock | CasSeize | CasSeizeAck
    | CasClearBack | CasForcedRelease | CasClearForward | CasAnswer

  const BITS_IDLE: Bits := 0x8
  const BITS_BLOCK: Bits := 0xC
  const BITS_SEIZE: Bits := 0x0
  const BITS_SEIZE_ACK: Bits := 0xC
  const BITS_CLEAR_BACK: Bits := 0xC
  const BITS_FORCED_RELEASE: Bits := 0x0
  const BITS_CLEAR_FORWARD: Bits := 0x8
  const BITS_ANSWER: Bits := 0x4

  /** What the line carries for a signal; an invalid signal is recorded as all zeros. */
  function BitsOf(s: CasSignal): Bits {
    match s
    case CasInvalid => 0x0
    case CasIdle => BITS_IDLE
    case CasBlock => BITS_BLOCK
    case CasSeize => BITS_SEIZE
    case CasSeizeAck => BITS_SEIZE_ACK
    case CasClearBack => BITS_CLEAR_BACK
    case CasForcedRelease => BITS_FORCED_RELEASE
    case CasClearForward => BITS_CLEAR_FORWARD
    case CasAnswer => BITS_ANSWER
  }

  // ---------------------------------------------------------------------------------------
  // Channel states

  datatype R2State =
    | Init | Idle | Blocked
    // backward states
    | SeizeAckTxd | AnswerTxd | ClearBackTxd | ClearFwdRxd | ExecutingDoubleAnswer
    | ForcedReleaseTxd
    // forward states
    | SeizeTxd | SeizeAckRxd | ClearBackToneRxd | AcceptRxd | AnswerRxd | ClearBackRxd
    | AnswerRxdMfPending | ClearFwdTxd | ForcedReleaseRxd | ClearBackAfterClearFwdRxd
    | SeizeTxdClearFwdPending | DoubleSeizureClearFwdPending | DoubleSeizure

  datatype CallState =
    | CallIdle | Collecting | Dialing | Offered | Accepted | Answered | Disconnected

  datatype Direction = Stopped | Forward | Backward

  datatype MfState =
    | MfOff
    // backward states
    | MfSeizeAckTxd | CategoryRqTxd | DnisRqTxd | AniRqTxd | ChgGiiTxd | AcceptedTxd | DisconnectTxd
    // forward states
    | CategoryTxd | DnisTxd | DnisEndTxd | AniTxd | AniEndTxd | WaitingTimeout

  datatype MfGroup = NoGroup | BackInit | GA | GB | GC | FwdInit | GI | GII | GIII

  datatype CallMode = WithCharge | NoCharge | Special | UnknownMode

  datatype Cause =
    | BusyNumber | NetworkCongestion | UnallocatedNumber | OutOfOrder | Unspecified
    | NoAnswer | NormalClearing | ForcedRelease | NumberChanged | Glare

  datatype ErrorReason =
    | InvalidCasBits | InvalidMfTone | BackMfTimeout | SeizeTimeout | FwdSafetyTimeout
    | BrokenMfSequence | InvalidR2State | InvalidMfState | InvalidMfGroup | LibraryBug
    | AlarmRaised

  datatype Category =
    | NationalSubscriber | NationalPrioritySubscriber | InternationalSubscriber
    | InternationalPrioritySubscriber | CollectCall | TestEquipment | PayPhone | UnknownCategory

  // ---------------------------------------------------------------------------------------
  // Tones

  /** A tone code point: '1'..'9', '0', 'B'..'F'; the NUL character is the invalid tone and silence. */
  type Tone = char
  const NO_TONE: Tone := '\0'

  predicate IsDigit(t: char) { '0' <= t <= '9' }

  predicate AllDigits(s: string) { forall i :: 0 <= i < |s| ==> IsDigit(s[i]) }

  datatype GaTones = GaTones(
    nextDnis: Tone, dnisMinus1: Tone, dnisMinus2: Tone, dnisMinus3: Tone, allDnisAgain: Tone,
    nextAni: Tone, category: Tone, categoryAndGc: Tone, changeToG2: Tone,
    addressComplete: Tone, congestion: Tone)

  datatype GbTones = GbTones(
    acceptCharge: Tone, acceptNoCharge: Tone, busy: Tone, congestion: Tone, unallocated: Tone,
    outOfOrder: Tone, specialInfo: Tone, numberChanged: Tone)

  datatype GcTones = GcTones(nextAni: Tone, changeToG2: Tone, nextDnisAndGa: Tone, congestion: Tone)

  datatype G1Tones = G1Tones(noMoreDnis: Tone, noMoreAni: Tone, restricted: Tone)

  datatype G2Tones = G2Tones(
    national: Tone, nationalPriority: Tone, testEquipment: Tone, international: Tone,
    internationalPriority: Tone, collect: Tone, payPhone: Tone)

  /** The callbacks a channel schedules; all but the call-down timer have a field in the timer_ids struct. */
  datatype Timer =
    | FwdSafety | Seize | SeizePersist | Answer | MeteringPulse | SetCallDown
    | DoubleAnswer | BackResumeCycle | BackCycle | AnswerDelay

  /** Protocol timers in milliseconds. */
  datatype Timers = Timers(
    backCycle: int, backResumeCycle: int, fwdSafety: int, seize: int, seizePersist: int, answer: int,
    meteringPulse: int, answerDelay: int, doubleAnswer: int, setCallDown: int)

  /** The part of a context that the protocol consults. The limits are C ints. */
  datatype Config = Config(
    ga: GaTones, gb: GbTones, gc: GcTones, g1: G1Tones, g2: G2Tones,
    maxDnis: int, maxAni: int,
    getAniFirst: bool, skipCategory: bool, immediateAccept: bool, doubleAnswer: bool,
    aniCanComeFirst: bool, forceMaxAni: bool, autoSeizeAck: bool, timers: Timers)

  const MAX_DIGITS: nat := 80

  datatype Variant =
    | Argentina | Brazil | China | Czech | Colombia | Ecuador | Itu | Mexico | Philippines | Venezuela

  /** The defaults every variant starts from (ITU-T Q.400 to Q.490). */
  function ItuConfig(maxAni: int, maxDnis: int): Config {
    Config(
      GaTones('1', '2', '7', '8', NO_TONE, '5', '5', NO_TONE, '3', '6', '4'),
      GbTones('6', '7', '3', '4', '5', '8', '2', NO_TONE),
      GcTones(NO_TONE, NO_TONE, NO_TONE, NO_TONE),
      G1Tones('F', 'F', 'C'),
      G2Tones('1', '2', '3', '7', '9', NO_TONE, NO_TONE),
      if maxDnis >= MAX_DIGITS then MAX_DIGITS - 1 else maxDnis,
      if maxAni >= MAX_DIGITS then MAX_DIGITS - 1 else maxAni,
      true, false, false, false, false, false, true,
      Timers(2000, 150, 30000, 2000, 150, 60000, 0, 150, 400, 3000))
  }

  function Configure(v: Variant, maxAni: int, maxDnis: int): Config {
    var c := ItuConfig(maxAni, maxDnis);
    match v
    case Argentina =>
      c.(g1 := G1Tones(NO_TONE, 'C', 'F'), g2 := c.g2.(payPhone := '4'), timers := c.timers.(meteringPulse := 400))
    case Brazil =>
      c.(g1 := c.g1.(noMoreDnis := NO_TONE, restricted := 'C'),
         g2 := c.g2.(collect := '8'),
         ga := c.ga.(addressComplete := NO_TONE, dnisMinus1 := '9', allDnisAgain := '2'),
         gb := c.gb.(acceptCharge := '1', busy := '2', acceptNoCharge := '5', specialInfo := '6',
                     numberChanged := '3', unallocated := '7'))
    case China =>
      c.(ga := c.ga.(nextAni := '1', category := '6', addressComplete := NO_TONE),
         gb := c.gb.(acceptCharge := '1', busy := '2', specialInfo := NO_TONE),
         g1 := c.g1.(noMoreDnis := NO_TONE),
         aniCanComeFirst := true, forceMaxAni := true, maxAni := MAX_DIGITS)
    case Mexico =>
      c.(getAniFirst := false,
         ga := c.ga.(category := NO_TONE, categoryAndGc := '6', addressComplete := NO_TONE, nextAni := NO_TONE),
         gb := c.gb.(acceptCharge := '1', acceptNoCharge := '5', busy := '2', unallocated := '2',
                     specialInfo := NO_TONE),
         gc := GcTones('1', '3', '5', '4'),
         g1 := c.g1.(noMoreDnis := NO_TONE, restricted := 'F'))
    case Venezuela =>
      c.(ga := c.ga.(nextAni := '9'), g1 := c.g1.(restricted := 'C', noMoreDnis := NO_TONE))
    case Colombia =>
      c.(g1 := c.g1.(restricted := 'C'),
         gb := c.gb.(acceptCharge := '1', busy := '2', acceptNoCharge := '5', unallocated := '6'))
    case Czech => c
    case Ecuador => c
    case Itu => c
    case Philippines => c
  }

  predicate Metering(cfg: Config) { cfg.timers.meteringPulse != 0 }

  function Duration(cfg: Config, t: Timer): int {
    match t
    case FwdSafety => cfg.timers.fwdSafety
    case Seize => cfg.timers.seize
    case SeizePersist => cfg.timers.seizePersist
    case Answer => cfg.timers.answer
    case MeteringPulse => cfg.timers.meteringPulse
    case SetCallDown => cfg.timers.setCallDown
    case DoubleAnswer => cfg.timers.doubleAnswer
    case BackResumeCycle => cfg.timers.backResumeCycle
    case BackCycle => cfg.timers.backCycle
    case AnswerDelay => cfg.timers.answerDelay
  }

  /** The cast to uint32_t with which the limits are compared. */
  function Uint32(n: int): int { if n < 0 then n + 0x1_0000_0000 else n }
}
