/**
 The transmitter of the register signals: a tone that is put goes on, without a break, until another is put or none.
 */
module MfSender {
  import opened ToneGen
  import opened Registers
  import M = MfReceiver

  /** The transmitter: its direction, the signal it sends or NUL, and its generator. */
  datatype MfTx = MfTx(forward: bool, digit: char, gen: Gen)

  predicate IsTx(s: MfTx) { IsShape(s.gen) }

  /** The place of a code among the first n codes, or -1. */
  function PlaceOf(code: char, n: nat): (i: int)
    requires n <= 15
    ensures -1 <= i < n
  {
    if n == 0 then -1
    else
      var i := PlaceOf(code, n - 1);
      if i >= 0 then i else if M.TONE_CODES[n - 1] == code then n - 1 else -1
  }

  function TonesOf(gain: real, forward: bool, index: int): seq<Tone>
    requires 0 <= index < 15
  {
    var pair := if forward then M.FWD_TONES[index] else M.BACK_TONES[index];
    [Tone(PhaseRate(pair.0), gain), Tone(PhaseRate(pair.1), gain), NO_TONE, NO_TONE]
  }

  /** openr2_mf_tx_put. A tone is a millisecond long and repeated. */
  function Put(gain: real, s: MfTx, code: char): (r: MfTx)
    requires IsTx(s)
    ensures IsTx(r)
  {
    var i := PlaceOf(code, 15);
    if i >= 0 then
      MfTx(s.forward, code, Gen(Voice(TonesOf(gain, s.forward, i), [0, 0, 0, 0]), [8, 0, 0, 0], true, 0, 0))
    else s.(digit := '\0')
  }

  /** openr2_mf_tx: n samples, and the transmitter behind them. */
  function Sent(y: Synth, s: MfTx, n: nat): (r: (seq<int>, MfTx))
    requires IsTx(s)
    ensures IsTx(r.1)
  {
    if s.digit == '\0' then (seq(n, i => 0), s)
    else
      var (out, gen) := Stream(y, s.gen, n);
      (out, s.(gen := gen))
  }

  // ---------------------------------------------------------------------------------------
  // The signals of the recommendation

  /** Every signal is found at its place in the list of the recommendation, and nothing else is found. */
  lemma SignalPlace(code: char)
    ensures var i := PlaceOf(code, 15);
            if i >= 0 then SIGNALS[i].code == code else forall k :: 0 <= k < 15 ==> SIGNALS[k].code != code
  {
    PlaceFound(code, 15);
  }

  lemma {:induction false} PlaceFound(code: char, n: nat)
    requires n <= 15
    ensures var i := PlaceOf(code, n);
            if i >= 0 then SIGNALS[i].code == code else forall k :: 0 <= k < n ==> SIGNALS[k].code != code
  {
    if n > 0 {
      PlaceFound(code, n - 1);
      M.TonesAreSignals(n - 1);
    }
  }

  lemma CodesDiffer(sig: Signal, i: int)
    requires sig in SIGNALS && 0 <= i < 15 && SIGNALS[i].code == sig.code
    ensures SIGNALS[i] == sig
  {
  }

  /** The frequencies of a signal in the direction of the transmitter. */
  function Pair(s: MfTx, sig: Signal): (int, int) { if s.forward then sig.forward else sig.backward }

  /** A signal is put: its two frequencies with one gain, from phase zero, and the eight samples are repeated. */
  lemma SignalIsPut(gain: real, s: MfTx, sig: Signal)
    requires IsTx(s) && sig in SIGNALS
    ensures var t := Put(gain, s, sig.code);
            && t.forward == s.forward && t.digit == sig.code && t.gen.voice.phases == [0, 0, 0, 0]
            && t.gen.voice.tones == [Tone(StepsOf(Pair(s, sig).0), gain), Tone(StepsOf(Pair(s, sig).1), gain),
                                     Tone(0, 0.0), Tone(0, 0.0)]
            && Continuous(t.gen) && StepsOf(Pair(s, sig).0) > 0 && StepsOf(Pair(s, sig).1) > 0
  {
    SignalPlace(sig.code);
    var i := PlaceOf(sig.code, 15);
    CodesDiffer(sig, i);
    M.TonesAreSignals(i);
  }

  /** What is heard of a signal, k samples after it was put: the rounded sum of its two sines. */
  lemma SignalSounds(y: Synth, gain: real, s: MfTx, sig: Signal, n: nat, k: nat)
    requires IsTx(s) && sig in SIGNALS && k < n
    ensures var out := Sent(y, Put(gain, s, sig.code), n).0;
            && |out| == n
            && out[k] == y.round(ToneAt(y, StepsOf(Pair(s, sig).0), gain, k) + ToneAt(y, StepsOf(Pair(s, sig).1), gain,
                k))
  {
    var g := Put(gain, s, sig.code).gen;
    SignalIsPut(gain, s, sig);
    RepeatedToneIsContinuous(y, g, n, k);
    TwoTones(y, g.voice, StepsOf(Pair(s, sig).0), gain, StepsOf(Pair(s, sig).1), gain, k);
  }

  /** Anything but a signal is silence, from the next sample on. */
  lemma OthersAreSilent(y: Synth, gain: real, s: MfTx, code: char, n: nat)
    requires IsTx(s) && forall i :: 0 <= i < 15 ==> SIGNALS[i].code != code
    ensures Sent(y, Put(gain, s, code), n) == (seq(n, i => 0), Put(gain, s, code)) && Put(gain, s, code).digit == '\0'
  {
    SignalPlace(code);
  }

  /** Two requests are one for as many samples, so a tone is not broken between them. */
  lemma SentInChunks(y: Synth, s: MfTx, m: nat, n: nat)
    requires IsTx(s)
    ensures var (first, t) := Sent(y, s, m);
            var (second, last) := Sent(y, t, n);
            Sent(y, s, m + n) == (first + second, last)
  {
    if s.digit == '\0' {
      assert seq(m, i => 0) + seq(n, i => 0) == seq(m + n, i => 0);
    } else {
      StreamInChunks(y, s.gen, m, n);
    }
  }

  // ---------------------------------------------------------------------------------------
  // The transmitter

  class Sender {
    const forward: bool
    const gain: real
    const tone: Generator
    var digit: char

    /** A tone that is sent goes on for ever. */
    ghost predicate Valid()
      reads this, tone
    {
      tone.Valid() && (digit != '\0' ==> Continuous(tone.State()))
    }

    ghost function State(): MfTx
      reads this, tone
    {
      MfTx(forward, digit, tone.State())
    }

    /** openr2_mf_tx_init, with the factor of -11 dBm0. */
    constructor (synth: Synth, forward: bool, gain: real)
      ensures Valid() && fresh(tone) && tone.synth == synth && this.forward == forward && this.gain == gain
      ensures digit == '\0'
    {
      tone := new Generator(synth);
      this.forward, this.gain, digit := forward, gain, '\0';
    }

    /** strchr over the codes. */
    method Find(code: char) returns (index: int)
      ensures index == PlaceOf(code, 15)
    {
      index := -1;
      for i := 0 to 15
        invariant index == PlaceOf(code, i)
      {
        if index < 0 && M.TONE_CODES[i] == code {
          index := i;
        }
      }
    }

    method PutCode(code: char)
      requires Valid()
      modifies this`digit, tone
      ensures Valid() && State() == Put(gain, old(State()), code)
    {
      var index := Find(code);
      if index >= 0 {
        SignalPlace(code);
        SignalIsPut(gain, State(), SIGNALS[index]);
        tone.Load(TonesOf(gain, forward, index), [8, 0, 0, 0], true);
        digit := code;
      } else {
        digit := '\0';
      }
    }

    /** Writes the next samples and nothing else. */
    method Tx(amp: array<int>, samples: nat) returns (len: nat)
      requires Valid() && samples <= amp.Length
      modifies tone, amp
      ensures Valid() && digit == old(digit)
      ensures var (out, last) := Sent(tone.synth, old(State()), samples);
              State() == last && len == samples == |out| && amp[..] == Written(old(amp[..]), 0, out)
    {
      if digit == '\0' {
        len := samples;
        ghost var was := amp[..];
        forall k | 0 <= k < len { amp[k] := 0; }
        assert amp[..] == seq(samples, i => 0) + was[samples..];
      } else {
        ContinuousGoesOn(tone.synth, tone.State(), samples);
        len := tone.Generate(amp, 0, samples);
      }
    }
  }
}
