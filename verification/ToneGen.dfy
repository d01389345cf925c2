/**
 The tone generator: up to four sections of sound and silence, made by direct digital synthesis from a sine
 table. The table and the rounding to a sample are parameters.
 */
module ToneGen {

  /** A tone by its phase increment and gain. */
  datatype Tone = Tone(phaseRate: int, gain: real)

  /** The sine table of 2048 entries and the rounding of a sum of sines to a sample. */
  datatype Synth = Synth(table: int -> real, round: real -> int)

  const PHASE: int := 0x1_0000_0000
  const TABLE_STEP: int := 0x20_0000

  /** The four tones with their phase accumulators. */
  datatype Voice = Voice(tones: seq<Tone>, phases: seq<int>)

  /** The state of a generator; a section of -1 means that it has ended. */
  datatype Gen = Gen(voice: Voice, durations: seq<int>, repeated: bool, section: int, position: int)

  predicate IsVoice(v: Voice) { |v.tones| == |v.phases| == 4 }

  predicate IsShape(g: Gen) { IsVoice(g.voice) && |g.durations| == 4 && -1 <= g.section < 4 }

  /** The current section still has samples, but for a first section of no length. */
  predicate IsGen(g: Gen) {
    && IsShape(g) && 0 <= g.position
    && (g.section >= 0 ==> g.position < g.durations[g.section] || EmptyStart(g))
  }

  predicate EmptyStart(g: Gen)
    requires |g.durations| == 4
  {
    g.section == 0 && g.position == 0 && g.durations[0] == 0
  }

  /** A repeated generator has something to repeat. */
  predicate CanEnd(g: Gen)
    requires |g.durations| == 4
  {
    g.repeated ==> g.durations[0] > 0 || g.durations[1] > 0
  }

  predicate AreLengths(durations: seq<int>) { |durations| == 4 && forall i :: 0 <= i < 4 ==> durations[i] >= 0 }

  const SAMPLE_RATE: int := 8000

  /** dds_phase_ratef, rounded down. */
  function PhaseRate(frequency: int): int { frequency * PHASE / SAMPLE_RATE }

  const NO_TONE: Tone := Tone(0, 0.0)

  // ---------------------------------------------------------------------------------------
  // One sample

  function AdvancedBy(phase: int, rate: int): int { (phase + rate) % PHASE }

  /** The value dds_modf returns. */
  function Sine(y: Synth, phase: int, gain: real): real { y.table(phase / TABLE_STEP) * gain }

  /** The number of tones before the first that has no rate. */
  function Sounding(v: Voice, i: int): (n: int)
    requires IsVoice(v) && 0 <= i <= 4
    ensures i <= n <= 4
    ensures forall k :: i <= k < n ==> v.tones[k].phaseRate != 0
    ensures n < 4 ==> v.tones[n].phaseRate == 0
    decreases 4 - i
  {
    if i == 4 || v.tones[i].phaseRate == 0 then i else Sounding(v, i + 1)
  }

  function Sum(y: Synth, v: Voice, n: int): real
    requires IsVoice(v) && 0 <= n <= 4
  {
    if n == 0 then 0.0 else Sum(y, v, n - 1) + Sine(y, v.phases[n - 1], v.tones[n - 1].gain)
  }

  /** A first tone with a negative rate is modulated by the second. */
  predicate Modulated(v: Voice)
    requires IsVoice(v)
  {
    v.tones[0].phaseRate < 0
  }

  function Modulate(carrier: real, envelope: real): real { carrier * (1.0 + envelope) }

  function Sound(y: Synth, v: Voice): int
    requires IsVoice(v)
  {
    if Modulated(v) then
      y.round(Modulate(Sine(y, v.phases[0], v.tones[0].gain), Sine(y, v.phases[1], v.tones[1].gain)))
    else y.round(Sum(y, v, Sounding(v, 0)))
  }

  /** The first n phases advanced by their rates. */
  function Advanced(v: Voice, n: int): (p: seq<int>)
    requires IsVoice(v) && 0 <= n <= 4
    ensures |p| == 4
  {
    seq(4, i requires 0 <= i < 4 => if i < n then AdvancedBy(v.phases[i], v.tones[i].phaseRate) else v.phases[i])
  }

  /** The voice one sample of sound later. */
  function Turned(v: Voice): (r: Voice)
    requires IsVoice(v)
    ensures IsVoice(r) && r.tones == v.tones
  {
    if Modulated(v) then
      v.(phases := v.phases[0 := AdvancedBy(v.phases[0], -v.tones[0].phaseRate)]
                           [1 := AdvancedBy(v.phases[1], v.tones[1].phaseRate)])
    else v.(phases := Advanced(v, Sounding(v, 0)))
  }

  predicate Silent(g: Gen) { g.section % 2 == 1 }

  /** The sample a generator is about to make. */
  function Sample(y: Synth, v: Voice, silent: bool): int
    requires IsVoice(v)
  {
    if silent then 0 else Sound(y, v)
  }

  function Moved(v: Voice, silent: bool): (r: Voice)
    requires IsVoice(v)
    ensures IsVoice(r) && r.tones == v.tones
  {
    if silent then v else Turned(v)
  }

  function NextSection(g: Gen): (r: Gen)
    requires IsShape(g) && g.section >= 0
    ensures IsShape(r) && r == g.(section := r.section, position := 0)
  {
    if g.section + 1 <= 3 && g.durations[g.section + 1] != 0 then g.(section := g.section + 1, position := 0)
    else g.(section := if g.repeated then 0 else -1, position := 0)
  }

  /** k samples further in the same section, and in the next one when it is over. */
  function Forward(g: Gen, k: nat): (r: Gen)
    requires IsShape(g) && g.section >= 0
    ensures IsShape(r)
  {
    var h := g.(position := g.position + k);
    if h.position >= h.durations[h.section] then NextSection(h) else h
  }

  /** The generator one sample later. */
  function Next(g: Gen): (r: Gen)
    requires IsShape(g) && g.section >= 0
    ensures IsShape(r)
  {
    Forward(g.(voice := Moved(g.voice, Silent(g))), 1)
  }

  /** A first section of no length is passed over before the next sample. */
  function Settled(g: Gen): (r: Gen)
    requires IsShape(g)
    ensures IsShape(r)
  {
    if EmptyStart(g) then NextSection(g) else g
  }

  // ---------------------------------------------------------------------------------------
  // The stream of samples

  /** At most n samples, and the generator behind them. */
  function Stream(y: Synth, g: Gen, n: nat): (r: (seq<int>, Gen))
    requires IsShape(g)
    ensures IsShape(r.1) && |r.0| <= n && (|r.0| < n ==> r.1.section < 0)
    decreases n
  {
    if n == 0 then ([], g)
    else
      var h := Settled(g);
      if h.section < 0 then ([], h)
      else
        var (rest, last) := Stream(y, Next(h), n - 1);
        ([Sample(y, h.voice, Silent(h))] + rest, last)
  }

  predicate Joins(y: Synth, g: Gen, m: nat, n: nat)
    requires IsShape(g)
  {
    var (first, h) := Stream(y, g, m);
    var (second, last) := Stream(y, h, n);
    Stream(y, g, m + n) == (first + second, last)
  }

  /** Two requests yield the samples of one request for as many, and leave the same generator. */
  lemma {:induction false} StreamInChunks(y: Synth, g: Gen, m: nat, n: nat)
    requires IsShape(g)
    ensures Joins(y, g, m, n)
    decreases m
  {
    var h := Settled(g);
    if m == 0 {
      NothingFirst(y, g, n);
    } else if h.section < 0 {
      NothingAfterEnd(y, g, m, n);
    } else {
      var next := Next(h);
      assert Joins(y, next, m - 1, n) by { StreamInChunks(y, next, m - 1, n); }
      ChunksFromNext(y, g, m, n, next, Sample(y, h.voice, Silent(h)));
    }
  }

  lemma NothingFirst(y: Synth, g: Gen, n: nat)
    requires IsShape(g)
    ensures Joins(y, g, 0, n)
  {
    assert [] + Stream(y, g, n).0 == Stream(y, g, n).0;
  }

  lemma ChunksFromNext(y: Synth, g: Gen, m: nat, n: nat, next: Gen, x: int)
    requires IsShape(g) && m > 0 && Settled(g).section >= 0
    requires next == Next(Settled(g)) && x == Sample(y, Settled(g).voice, Silent(Settled(g)))
    requires Joins(y, next, m - 1, n)
    ensures Joins(y, g, m, n)
  {
    StreamStep(y, g, m);
    StreamStep(y, g, m + n);
    var a := Stream(y, next, m - 1);
    JoinedStep(y, g, m, n, x, a, Stream(y, a.1, n));
  }

  lemma JoinedStep(y: Synth, g: Gen, m: nat, n: nat, x: int, a: (seq<int>, Gen), b: (seq<int>, Gen))
    requires IsShape(g) && IsShape(a.1) && b == Stream(y, a.1, n)
    requires Stream(y, g, m) == ([x] + a.0, a.1) && Stream(y, g, m + n) == ([x] + (a.0 + b.0), b.1)
    ensures Joins(y, g, m, n)
  {
    assert ([x] + a.0) + b.0 == [x] + (a.0 + b.0);
  }

  lemma NothingAfterEnd(y: Synth, g: Gen, m: nat, n: nat)
    requires IsShape(g) && m > 0 && Settled(g).section < 0
    ensures Joins(y, g, m, n)
  {
    var h := Settled(g);
    var first, second := Stream(y, g, m), Stream(y, h, n);
    assert first == ([], h);
    assert second == ([], h);
    assert first.0 + second.0 == [];
    assert Stream(y, g, m + n) == ([], h);
  }

  lemma StreamStep(y: Synth, g: Gen, n: nat)
    requires IsShape(g) && n > 0 && Settled(g).section >= 0
    ensures var h := Settled(g); var rest := Stream(y, Next(h), n - 1);
            Stream(y, g, n) == ([Sample(y, h.voice, Silent(h))] + rest.0, rest.1)
  {
  }

  // ---------------------------------------------------------------------------------------
  // A stretch within a section

  function MovedBy(v: Voice, silent: bool, k: nat): (r: Voice)
    requires IsVoice(v)
    ensures IsVoice(r) && r.tones == v.tones
    decreases k
  {
    if k == 0 then v else MovedBy(Moved(v, silent), silent, k - 1)
  }

  function Samples(y: Synth, v: Voice, silent: bool, k: nat): (s: seq<int>)
    requires IsVoice(v)
    ensures |s| == k
    decreases k
  {
    if k == 0 then [] else [Sample(y, v, silent)] + Samples(y, Moved(v, silent), silent, k - 1)
  }

  /** The generator after k samples of its current section. */
  function Stretched(g: Gen, k: nat): (r: Gen)
    requires IsShape(g) && g.section >= 0
    ensures IsShape(r)
  {
    Forward(g.(voice := MovedBy(g.voice, Silent(g), k)), k)
  }

  /** A round that makes no sample and leaves the generator as it was: the loop over the sections goes on for ever. */
  predicate Stuck(g: Gen)
    requires IsShape(g) && g.section >= 0
  {
    g.durations[g.section] == g.position && Stretched(g, 0) == g
  }

  /** A generator that has been set up with lengths that are not negative gets stuck exactly when it cannot end. */
  lemma StuckExactly(g: Gen)
    requires IsGen(g) && g.section >= 0 && AreLengths(g.durations)
    ensures Stuck(g) ==> !CanEnd(g)
    ensures g.section == 0 && g.position == 0 ==> (Stuck(g) <==> !CanEnd(g))
  {
    assert MovedBy(g.voice, Silent(g), 0) == g.voice;
  }

  /** What is left of a section, or a part of it, comes out of the stream in one piece. */
  lemma {:induction false} SectionIsStream(y: Synth, g: Gen, k: nat)
    requires IsShape(g) && g.section >= 0 && g.position >= 0 && k >= 1 && g.position + k <= g.durations[g.section]
    ensures Stream(y, g, k) == (Samples(y, g.voice, Silent(g), k), Stretched(g, k))
    decreases k
  {
    StreamStep(y, g, k);
    if k == 1 {
      OneSample(y, g.voice, Silent(g));
    } else {
      StillInSection(g, k);
      SectionIsStream(y, Next(g), k - 1);
    }
  }

  lemma StillInSection(g: Gen, k: nat)
    requires IsShape(g) && g.section >= 0 && g.position >= 0 && k > 1 && g.position + k <= g.durations[g.section]
    ensures Settled(g) == g
    ensures Next(g) == g.(voice := Moved(g.voice, Silent(g)), position := g.position + 1)
    ensures Stretched(g, k) == Stretched(Next(g), k - 1)
  {
  }

  lemma OneSample(y: Synth, v: Voice, silent: bool)
    requires IsVoice(v)
    ensures Samples(y, v, silent, 1) == [Sample(y, v, silent)] && MovedBy(v, silent, 1) == Moved(v, silent)
  {
    assert Samples(y, Moved(v, silent), silent, 0) == [];
  }

  lemma {:induction false} OneMore(y: Synth, v: Voice, silent: bool, k: nat)
    requires IsVoice(v)
    ensures MovedBy(v, silent, k + 1) == Moved(MovedBy(v, silent, k), silent)
    ensures Samples(y, v, silent, k + 1) == Samples(y, v, silent, k) + [Sample(y, MovedBy(v, silent, k), silent)]
    decreases k
  {
    if k > 0 { OneMore(y, Moved(v, silent), silent, k - 1); } else { OneSample(y, v, silent); }
  }

  // ---------------------------------------------------------------------------------------
  // Repeated tones in closed form

  lemma ModPlus(a: int, b: int, m: int)
    requires m > 0
    ensures (a % m + b) % m == (a + b) % m
  {
    var c := a % m + b;
    assert a + b == m * (a / m) + c;
    assert c == m * (c / m) + c % m;
    RemainderUnique(a + b, a / m + c / m, c % m, m);
  }

  lemma RemainderUnique(n: int, q: int, r: int, m: int)
    requires m > 0 && 0 <= r < m && n == m * q + r
    ensures n % m == r
  {
    assert n == m * (n / m) + n % m;
    var d := q - n / m;
    assert m * d == n % m - r;
    assert d >= 1 ==> m * d >= m;
    assert d <= -1 ==> m * d <= -m;
  }

  /** The number of phases that advance with every sample. */
  function Turning(v: Voice): (n: int)
    requires IsVoice(v)
    ensures 0 <= n <= 4
  {
    if Modulated(v) then 2 else Sounding(v, 0)
  }

  /** What a phase advances by; a modulated carrier is marked by a negative rate. */
  function RateOf(v: Voice, i: int): int
    requires IsVoice(v) && 0 <= i < 4
  {
    if Modulated(v) && i == 0 then -v.tones[0].phaseRate else v.tones[i].phaseRate
  }

  function PhaseAt(v: Voice, i: int, k: int): int
    requires IsVoice(v) && 0 <= i < 4
  {
    (v.phases[i] + k * RateOf(v, i)) % PHASE
  }

  predicate PhasesInRange(v: Voice)
    requires IsVoice(v)
  {
    forall i :: 0 <= i < 4 ==> 0 <= v.phases[i] < PHASE
  }

  /** After k samples of sound the phase of every tone that sounds is a closed form in k. */
  lemma {:induction false} PhasesAfter(y: Synth, v: Voice, k: nat, i: int)
    requires IsVoice(v) && PhasesInRange(v) && 0 <= i < Turning(v)
    ensures MovedBy(v, false, k).phases[i] == PhaseAt(v, i, k)
  {
    if k > 0 {
      PhasesAfter(y, v, k - 1, i);
      OneMore(y, v, false, k - 1);
      PhaseNext(v, MovedBy(v, false, k - 1), k, i);
    }
  }

  lemma PhaseNext(v: Voice, w: Voice, k: nat, i: int)
    requires IsVoice(v) && IsVoice(w) && v.tones == w.tones && k > 0 && 0 <= i < Turning(v)
    requires w.phases[i] == PhaseAt(v, i, k - 1)
    ensures Turned(w).phases[i] == PhaseAt(v, i, k)
  {
    SameTonesSound(v, w, 0);
    TurnedPhase(w, i);
    PhaseStep(v.phases[i], RateOf(v, i), k);
  }

  lemma TurnedPhase(v: Voice, i: int)
    requires IsVoice(v) && 0 <= i < Turning(v)
    ensures Turned(v).phases[i] == AdvancedBy(v.phases[i], RateOf(v, i))
  {
  }

  lemma PhaseStep(p: int, rate: int, k: nat)
    requires k > 0
    ensures AdvancedBy((p + (k - 1) * rate) % PHASE, rate) == (p + k * rate) % PHASE
  {
    ModPlus(p + (k - 1) * rate, rate, PHASE);
    assert p + (k - 1) * rate + rate == p + k * rate;
  }

  lemma {:induction false} SameTonesSound(v: Voice, w: Voice, i: int)
    requires IsVoice(v) && IsVoice(w) && v.tones == w.tones && 0 <= i <= 4
    ensures Sounding(v, i) == Sounding(w, i)
    decreases 4 - i
  {
    if i < 4 && v.tones[i].phaseRate != 0 { SameTonesSound(v, w, i + 1); }
  }

  /** The sum of the first n tones at the k-th sample. */
  function WaveAt(y: Synth, v: Voice, k: int, n: int): real
    requires IsVoice(v) && 0 <= n <= 4
  {
    if n == 0 then 0.0 else WaveAt(y, v, k, n - 1) + Sine(y, PhaseAt(v, n - 1, k), v.tones[n - 1].gain)
  }

  lemma {:induction false} SumIsWave(y: Synth, v: Voice, k: nat, n: int)
    requires IsVoice(v) && !Modulated(v) && PhasesInRange(v) && 0 <= n <= Sounding(v, 0)
    ensures Sum(y, MovedBy(v, false, k), n) == WaveAt(y, v, k, n)
  {
    if n > 0 {
      SumIsWave(y, v, k, n - 1);
      PhasesAfter(y, v, k, n - 1);
    }
  }

  /** The k-th sample in closed form. */
  function SoundAt(y: Synth, v: Voice, k: int): int
    requires IsVoice(v)
  {
    if Modulated(v) then
      y.round(Modulate(Sine(y, PhaseAt(v, 0, k), v.tones[0].gain), Sine(y, PhaseAt(v, 1, k), v.tones[1].gain)))
    else y.round(WaveAt(y, v, k, Sounding(v, 0)))
  }

  lemma SoundInTime(y: Synth, v: Voice, k: nat)
    requires IsVoice(v) && PhasesInRange(v)
    ensures Sound(y, MovedBy(v, false, k)) == SoundAt(y, v, k)
  {
    if Modulated(v) {
      PhasesAfter(y, v, k, 0);
      PhasesAfter(y, v, k, 1);
    } else {
      SameTonesSound(v, MovedBy(v, false, k), 0);
      SumIsWave(y, v, k, Sounding(v, 0));
    }
  }

  /** A repeated generator with one section, as the MF tones are made. */
  predicate Continuous(g: Gen) {
    && IsShape(g) && g.repeated && g.section == 0 && 0 <= g.position < g.durations[0] && g.durations[1] == 0
    && PhasesInRange(g.voice)
  }

  lemma {:induction false} ContinuousStream(y: Synth, g: Gen, n: nat)
    requires IsShape(g) && g.repeated && g.section == 0 && 0 <= g.position < g.durations[0] && g.durations[1] == 0
    ensures Stream(y, g, n).0 == Samples(y, g.voice, false, n)
    decreases n
  {
    if n > 0 {
      StreamStep(y, g, n);
      ContinuousStream(y, Next(g), n - 1);
    }
  }

  /** Such a generator stays one. */
  lemma {:induction false} ContinuousGoesOn(y: Synth, g: Gen, n: nat)
    requires Continuous(g)
    ensures |Stream(y, g, n).0| == n && Continuous(Stream(y, g, n).1)
    decreases n
  {
    if n > 0 {
      StreamStep(y, g, n);
      StaysContinuous(g);
      ContinuousGoesOn(y, Next(g), n - 1);
    }
  }

  lemma StaysContinuous(g: Gen)
    requires Continuous(g)
    ensures Continuous(Next(g))
  {
  }

  lemma {:induction false} SampleAt(y: Synth, v: Voice, silent: bool, n: nat, k: nat)
    requires IsVoice(v) && k < n
    ensures Samples(y, v, silent, n)[k] == Sample(y, MovedBy(v, silent, k), silent)
    decreases k
  {
    if k > 0 { SampleAt(y, Moved(v, silent), silent, n - 1, k - 1); }
  }

  /**
   The repetitions of an MF tone are not heard: the stream never ends, and its k-th sample is made of sines at
   phases proportional to k.
   */
  lemma RepeatedToneIsContinuous(y: Synth, g: Gen, n: nat, k: nat)
    requires Continuous(g) && k < n
    ensures |Stream(y, g, n).0| == n
    ensures Stream(y, g, n).0[k] == SoundAt(y, g.voice, k)
  {
    ContinuousStream(y, g, n);
    SampleAt(y, g.voice, false, n, k);
    SoundInTime(y, g.voice, k);
  }

  // ---------------------------------------------------------------------------------------
  // The generator

  class Generator {
    const synth: Synth
    var tones: seq<Tone>
    var phases: seq<int>
    var durations: seq<int>
    var repeated: bool
    var section: int
    var position: int

    /** A generator that has nothing to make yet. */
    constructor (synth: Synth)
      ensures Valid() && State().section < 0 && !repeated && this.synth == synth
    {
      this.synth := synth;
      tones, durations := [Tone(0, 0.0), Tone(0, 0.0), Tone(0, 0.0), Tone(0, 0.0)], [0, 0, 0, 0];
      phases := [0, 0, 0, 0];
      repeated, section, position := false, -1, 0;
    }

    ghost predicate Valid()
      reads this
    {
      IsGen(State()) && AreLengths(durations)
    }

    /** tone_gen_init. */
    method Load(tones: seq<Tone>, durations: seq<int>, repeated: bool)
      requires |tones| == 4 && AreLengths(durations)
      modifies this
      ensures Valid() && State() == Gen(Voice(tones, [0, 0, 0, 0]), durations, repeated, 0, 0)
    {
      this.tones, this.durations, this.repeated := tones, durations, repeated;
      phases := [0, 0, 0, 0];
      section, position := 0, 0;
    }

    ghost function CurrentVoice(): Voice
      reads this
    {
      Voice(tones, phases)
    }

    ghost function State(): Gen
      reads this
    {
      Gen(CurrentVoice(), durations, repeated, section, position)
    }

    /** One sample of the sum of the tones, advancing the phases of those that sound. */
    method MakeSum() returns (x: int)
      requires |tones| == |phases| == 4 && !Modulated(CurrentVoice())
      modifies this`phases
      ensures x == Sound(synth, old(CurrentVoice())) && CurrentVoice() == Turned(old(CurrentVoice()))
    {
      ghost var v := CurrentVoice();
      var xamp, i := 0.0, 0;
      while i < 4 && tones[i].phaseRate != 0
        invariant 0 <= i <= 4 && Sounding(v, i) == Sounding(v, 0) && xamp == Sum(synth, v, i)
        invariant phases == Advanced(v, i)
      {
        assert phases[i] == Advanced(v, i)[i];
        xamp := xamp + Sine(synth, phases[i], tones[i].gain);
        phases := phases[i := AdvancedBy(phases[i], tones[i].phaseRate)];
        assert phases == Advanced(v, i)[i := AdvancedBy(v.phases[i], v.tones[i].phaseRate)];
        i := i + 1;
      }
      x := synth.round(xamp);
    }

    /** One sample of the first tone modulated by the second. */
    method MakeModulated() returns (x: int)
      requires |tones| == |phases| == 4 && Modulated(CurrentVoice())
      modifies this`phases
      ensures x == Sound(synth, old(CurrentVoice())) && CurrentVoice() == Turned(old(CurrentVoice()))
    {
      ghost var v := CurrentVoice();
      var first := Sine(synth, phases[0], tones[0].gain);
      phases := phases[0 := AdvancedBy(phases[0], -tones[0].phaseRate)];
      var second := Sine(synth, phases[1], tones[1].gain);
      phases := phases[1 := AdvancedBy(phases[1], tones[1].phaseRate)];
      assert phases == Turned(v).phases;
      x := synth.round(Modulate(first, second));
    }

    /** One sample of the current section. */
    method MakeSample() returns (x: int)
      requires |tones| == |phases| == 4
      modifies this`phases
      ensures x == Sample(synth, old(CurrentVoice()), section % 2 == 1)
      ensures CurrentVoice() == Moved(old(CurrentVoice()), section % 2 == 1)
    {
      if section % 2 == 1 {
        x := 0;
      } else if tones[0].phaseRate < 0 {
        x := MakeModulated();
      } else {
        x := MakeSum();
      }
    }

    /** Stores a sample. */
    static method Store(amp: array<int>, i: nat, x: int)
      requires i < amp.Length
      modifies amp
      ensures amp[..] == old(amp[..])[i := x]
    {
      amp[i] := x;
    }

    /** The samples of a stretch within the current section. */
    method Fill(amp: array<int>, from: nat, n: nat)
      requires |tones| == |phases| == 4 && from + n <= amp.Length
      modifies this`phases, amp
      ensures amp[..] == Written(old(amp[..]), from, Samples(synth, old(CurrentVoice()), section % 2 == 1, n))
      ensures CurrentVoice() == MovedBy(old(CurrentVoice()), section % 2 == 1, n)
    {
      ghost var v, silent, was := CurrentVoice(), section % 2 == 1, amp[..];
      NothingWritten(was, from);
      for k := 0 to n
        invariant amp[..] == Written(was, from, Samples(synth, v, silent, k))
        invariant CurrentVoice() == MovedBy(v, silent, k)
      {
        OneMoreFilled(synth, v, silent, was, from, k);
        var x := MakeSample();
        Store(amp, from + k, x);
      }
    }

    /** One round of tone_gen: the rest of the section, or as much of it as is asked for. */
    method Stretch(amp: array<int>, from: nat, room: nat, ghost now: Gen, ghost was: seq<int>) returns (made: nat)
      requires Valid() && now == State() && was == amp[..] && section >= 0 && 0 < room && from + room <= amp.Length
      requires CanEnd(State())
      modifies this`section, this`position, this`phases, amp
      ensures Valid()
      ensures made == var left := now.durations[now.section] - now.position; if left > room then room else left
      ensures State() == Stretched(now, made) && CanEnd(State()) && (made == 0 ==> now.section == 0 && section != 0)
      ensures amp[..] == Written(was, from, Samples(synth, now.voice, Silent(now), made))
    {
      made := durations[section] - position;
      if made > room {
        made := room;
      }
      Fill(amp, from, made);
      Advance(made);
    }

    method Advance(made: nat)
      requires IsShape(State()) && section >= 0
      modifies this`section, this`position
      ensures State() == Forward(old(State()), made)
    {
      position := position + made;
      if position >= durations[section] {
        EndSection();
      }
    }

    method EndSection()
      requires IsShape(State()) && section >= 0
      modifies this`section, this`position
      ensures State() == NextSection(old(State()))
    {
      position := 0;
      section := section + 1;
      if section > 3 || durations[section] == 0 {
        section := if repeated then 0 else -1;
      }
    }

    /** The loop of tone_gen, until there are enough samples or the generator has ended. */
    method Rounds(amp: array<int>, offset: nat, max: nat, ghost start: seq<int>, ghost whole: (seq<int>, Gen))
      returns (samples: nat, ghost out: seq<int>)
      requires Valid() && offset + max <= amp.Length && (CanEnd(State()) || section < 0 || max == 0)
      requires |start| == amp.Length && InProgress(synth, start, amp[..], offset, max, [], State(), whole)
      modifies this`section, this`position, this`phases, amp
      ensures Valid() && samples == |out| <= max && (samples == max || section < 0)
      ensures InProgress(synth, start, amp[..], offset, max, out, State(), whole)
    {
      samples, out := 0, [];
      while samples < max && section >= 0
        invariant Valid() && samples == |out| <= max && (CanEnd(State()) || section < 0 || max == 0)
        invariant InProgress(synth, start, amp[..], offset, max, out, State(), whole)
        decreases max - samples, if section == 0 then 1 else 0
      {
        var made, more := Round(amp, offset, max, samples, start, out, whole);
        samples, out := samples + made, out + more;
      }
    }

    method Round(amp: array<int>, offset: nat, max: nat, samples: nat, ghost start: seq<int>, ghost out: seq<int>,
                 ghost whole: (seq<int>, Gen)) returns (made: nat, ghost more: seq<int>)
      requires Valid() && offset + max <= amp.Length && CanEnd(State()) && section >= 0 && samples == |out| < max
      requires |start| == amp.Length && InProgress(synth, start, amp[..], offset, max, out, State(), whole)
      modifies this`section, this`position, this`phases, amp
      ensures Valid() && CanEnd(State()) && made == |more| && (made == 0 ==> old(section) == 0 && section != 0)
      ensures InProgress(synth, start, amp[..], offset, max, out + more, State(), whole)
    {
      ghost var was, now := amp[..], State();
      made := Stretch(amp, offset + samples, max - samples, now, was);
      RoundDone(synth, start, was, amp[..], offset, max, samples, out, now, whole, made);
      more := Samples(synth, now.voice, Silent(now), made);
    }

    /** tone_gen: at most max samples, fewer only when the generator ends; one that gets stuck does not return. */
    method Generate(amp: array<int>, offset: nat, max: nat) returns (samples: nat)
      requires Valid() && offset + max <= amp.Length && (CanEnd(State()) || section < 0 || max == 0)
      modifies this`section, this`position, this`phases, amp
      ensures Valid() && samples <= max && (samples == max || section < 0)
      ensures var (out, last) := Stream(synth, old(State()), max);
              State() == last && samples == |out| && amp[..] == Written(old(amp[..]), offset, out)
    {
      ghost var whole := Stream(synth, State(), max);
      NothingYet(whole, []);
      NothingWritten(amp[..], offset);
      ghost var out;
      samples, out := Rounds(amp, offset, max, amp[..], whole);
      NoMore(synth, State(), max - samples, out);
    }
  }

  /** The samples out have been written, and the stream of the generator now holds the others. */
  ghost predicate InProgress(y: Synth, start: seq<int>, buffer: seq<int>, offset: nat, max: nat, out: seq<int>,
                             now: Gen,
                             whole: (seq<int>, Gen)) {
    IsShape(now) && |out| <= max && buffer == Written(start, offset, out) &&
        whole == Behind(out, Stream(y, now, max - |out|))
  }

  lemma RoundDone(y: Synth, start: seq<int>, was: seq<int>, buffer: seq<int>, offset: nat, max: nat, n: nat,
                  out: seq<int>, now: Gen, whole: (seq<int>, Gen), made: nat)
    requires InProgress(y, start, was, offset, max, out, now, whole) && n == |out| < max && offset + max <= |start|
    requires IsGen(now) && now.section >= 0
    requires made == var left := now.durations[now.section] - now.position; if left > max - n then max - n else left
    requires buffer == Written(was, offset + n, Samples(y, now.voice, Silent(now), made))
    ensures InProgress(y, start, buffer, offset, max, out + Samples(y, now.voice, Silent(now), made),
                       Stretched(now, made), whole)
  {
    var more, next, left := Samples(y, now.voice, Silent(now), made), Stretched(now, made), max - n - made;
    assert made <= max - n by { MadeOfSection(now, max - n, made); }
    assert whole == Behind(out + more, Stream(y, next, left)) by {
      MadeOfSection(now, max - n, made);
      RoundStreamed(y, now, max - n, made, out, whole);
    }
    RoundAdded(y, start, was, buffer, offset, max, n, out, more, next, whole, left);
  }

  lemma RoundAdded(y: Synth, start: seq<int>, was: seq<int>, buffer: seq<int>, offset: nat, max: nat, n: nat,
                   out: seq<int>,
                   more: seq<int>, next: Gen, whole: (seq<int>, Gen), left: nat)
    requires was == Written(start, offset, out) && n == |out| && n + |more| + left == max && offset + max <= |start|
    requires buffer == Written(was, offset + n, more) && IsShape(next)
    requires whole == Behind(out + more, Stream(y, next, left))
    ensures InProgress(y, start, buffer, offset, max, out + more, next, whole)
  {
    RoundWritten(start, was, buffer, offset, n, out, more);
  }

  lemma MadeOfSection(g: Gen, room: nat, made: nat)
    requires IsGen(g) && g.section >= 0
    requires made == var left := g.durations[g.section] - g.position; if left > room then room else left
    ensures made <= room && g.position + made <= g.durations[g.section]
    ensures made == room || g.position + made == g.durations[g.section]
  {
  }

  lemma RoundStreamed(y: Synth, g: Gen, room: nat, made: nat, out: seq<int>, whole: (seq<int>, Gen))
    requires IsGen(g) && g.section >= 0 && 0 < room && made <= room && g.position + made <= g.durations[g.section]
    requires made == room || g.position + made == g.durations[g.section]
    requires whole == Behind(out, Stream(y, g, room))
    ensures whole == Behind(out + Samples(y, g.voice, Silent(g), made), Stream(y, Stretched(g, made), room - made))
  {
    OneRound(y, g, room, made, out);
  }

  lemma RoundWritten(start: seq<int>, was: seq<int>, buffer: seq<int>, offset: nat, n: nat, out: seq<int>,
                     more: seq<int>)
    requires was == Written(start, offset, out) && n == |out| && offset + n + |more| <= |start|
    requires buffer == Written(was, offset + n, more)
    ensures buffer == Written(start, offset, out + more)
  {
    MoreWritten(start, offset, out, more);
  }

  lemma OneRound(y: Synth, g: Gen, n: nat, k: nat, out: seq<int>)
    requires IsGen(g) && g.section >= 0 && 0 < n && k <= n && g.position + k <= g.durations[g.section]
    requires k == n || g.position + k == g.durations[g.section]
    ensures Behind(out, Stream(y, g, n)) ==
            Behind(out + Samples(y, g.voice, Silent(g), k), Stream(y, Stretched(g, k), n - k))
  {
    StretchOfStream(y, g, n, k);
    BehindBoth(out, Samples(y, g.voice, Silent(g), k), Stream(y, Stretched(g, k), n - k));
  }

  /** Samples put before a stream. */
  function Behind(out: seq<int>, s: (seq<int>, Gen)): (seq<int>, Gen) { (out + s.0, s.1) }

  /** A stretch of the current section comes first in the stream. */
  lemma StretchOfStream(y: Synth, g: Gen, n: nat, k: nat)
    requires IsGen(g) && g.section >= 0 && 0 < n && k <= n && g.position + k <= g.durations[g.section]
    requires k == n || g.position + k == g.durations[g.section]
    ensures Stream(y, g, n) == Behind(Samples(y, g.voice, Silent(g), k), Stream(y, Stretched(g, k), n - k))
  {
    if k > 0 {
      SamplesPassed(y, g, n, k);
    } else {
      EmptySectionPassed(y, g, n);
    }
  }

  lemma SamplesPassed(y: Synth, g: Gen, n: nat, k: nat)
    requires IsGen(g) && g.section >= 0 && 0 < k <= n && g.position + k <= g.durations[g.section]
    ensures Stream(y, g, n) == Behind(Samples(y, g.voice, Silent(g), k), Stream(y, Stretched(g, k), n - k))
  {
    SectionIsStream(y, g, k);
    ChunksBehind(y, g, k, n - k, Samples(y, g.voice, Silent(g), k), Stretched(g, k));
  }

  lemma ChunksBehind(y: Synth, g: Gen, k: nat, rest: nat, out: seq<int>, h: Gen)
    requires IsShape(g) && IsShape(h) && Stream(y, g, k) == (out, h)
    ensures Stream(y, g, k + rest) == Behind(out, Stream(y, h, rest))
  {
    StreamInChunks(y, g, k, rest);
  }

  lemma EmptySectionPassed(y: Synth, g: Gen, n: nat)
    requires IsGen(g) && EmptyStart(g) && n > 0
    ensures Stream(y, g, n) == Behind(Samples(y, g.voice, Silent(g), 0), Stream(y, Stretched(g, 0), n))
  {
    assert Settled(g) == Stretched(g, 0) && Settled(Settled(g)) == Settled(g);
    NothingYet(Stream(y, Settled(g), n), []);
  }

  lemma NothingYet(s: (seq<int>, Gen), out: seq<int>)
    requires out == []
    ensures Behind(out, s) == s
  {
    assert out + s.0 == s.0;
  }

  lemma BehindBoth(out: seq<int>, more: seq<int>, s: (seq<int>, Gen))
    ensures Behind(out, Behind(more, s)) == Behind(out + more, s)
  {
    assert out + (more + s.0) == out + more + s.0;
  }

  lemma NoMore(y: Synth, g: Gen, n: nat, out: seq<int>)
    requires IsShape(g) && (n == 0 || g.section < 0)
    ensures Behind(out, Stream(y, g, n)) == (out, g)
  {
    assert out + [] == out;
  }

  /** The buffer with samples written at a place where they fit. */
  function Written(was: seq<int>, from: nat, out: seq<int>): seq<int> {
    if from + |out| <= |was| then was[..from] + out + was[from + |out|..] else was
  }

  lemma NothingWritten(was: seq<int>, from: nat)
    ensures Written(was, from, []) == was
  {
  }

  lemma OneMoreWritten(was: seq<int>, from: nat, out: seq<int>, x: int)
    requires from + |out| < |was|
    ensures Written(was, from, out)[from + |out| := x] == Written(was, from, out + [x])
  {
  }

  lemma OneMoreFilled(y: Synth, v: Voice, silent: bool, was: seq<int>, from: nat, k: nat)
    requires IsVoice(v) && from + k < |was|
    ensures var w := MovedBy(v, silent, k);
            && MovedBy(v, silent, k + 1) == Moved(w, silent)
            && |Written(was, from, Samples(y, v, silent, k))| == |was|
            && Written(was, from, Samples(y, v, silent, k))[from + k := Sample(y, w, silent)] ==
               Written(was, from, Samples(y, v, silent, k + 1))
  {
    OneMore(y, v, silent, k);
    OneMoreWritten(was, from, Samples(y, v, silent, k), Sample(y, MovedBy(v, silent, k), silent));
  }

  lemma MoreWritten(was: seq<int>, from: nat, out: seq<int>, more: seq<int>)
    requires from + |out| + |more| <= |was|
    ensures Written(Written(was, from, out), from + |out|, more) == Written(was, from, out + more)
  {
  }

  // ---------------------------------------------------------------------------------------
  // Sections of sound and silence

  /** The steps of the phase with which a tone of some hertz is made at 8000 samples a second. */
  function StepsOf(hertz: int): int { hertz * 4294967296 / 8000 }

  /** The k-th sample of a tone that starts at phase zero: a table of 2048 entries for a phase of 32 bits. */
  function ToneAt(y: Synth, rate: int, gain: real, k: int): real {
    y.table(k * rate % 4294967296 / 2097152) * gain
  }

  lemma FromPhaseZero(y: Synth, v: Voice, i: int, k: nat)
    requires IsVoice(v) && 0 <= i < 4 && v.phases == [0, 0, 0, 0]
    ensures Sine(y, PhaseAt(v, i, k), v.tones[i].gain) == ToneAt(y, RateOf(v, i), v.tones[i].gain, k)
  {
    assert v.phases[i] == 0;
  }

  /** The k-th sample of two tones from phase zero is the rounded sum of both. */
  lemma TwoTones(y: Synth, v: Voice, rate0: int, gain0: real, rate1: int, gain1: real, k: nat)
    requires IsVoice(v) && v.phases == [0, 0, 0, 0] && rate0 > 0 && rate1 > 0
    requires v.tones[..3] == [Tone(rate0, gain0), Tone(rate1, gain1), Tone(0, 0.0)]
    ensures SoundAt(y, v, k) == y.round(ToneAt(y, rate0, gain0, k) + ToneAt(y, rate1, gain1, k))
  {
    assert v.tones[0] == Tone(rate0, gain0) && v.tones[1] == Tone(rate1, gain1);
    ThirdEndsSound(v);
    FromPhaseZero(y, v, 0, k);
    FromPhaseZero(y, v, 1, k);
    assert WaveAt(y, v, k, 1) == 0.0 + Sine(y, PhaseAt(v, 0, k), gain0);
    assert WaveAt(y, v, k, 2) == WaveAt(y, v, k, 1) + Sine(y, PhaseAt(v, 1, k), gain1);
  }

  lemma ThirdEndsSound(v: Voice)
    requires IsVoice(v) && v.tones[0].phaseRate > 0 && v.tones[1].phaseRate > 0 && v.tones[..3][2].phaseRate == 0
    ensures Sounding(v, 0) == 2 && !Modulated(v)
  {
    assert v.tones[2].phaseRate == 0;
    assert Sounding(v, 2) == 2 && Sounding(v, 1) == 2;
  }

  /** A carrier with a negative rate is multiplied by one more than the second tone. */
  lemma ModulatedTone(y: Synth, v: Voice, rate0: int, gain0: real, rate1: int, gain1: real, k: nat)
    requires IsVoice(v) && v.phases == [0, 0, 0, 0] && rate0 > 0
    requires v.tones[..2] == [Tone(-rate0, gain0), Tone(rate1, gain1)]
    ensures SoundAt(y, v, k) == y.round(ToneAt(y, rate0, gain0, k) * (1.0 + ToneAt(y, rate1, gain1, k)))
  {
    assert v.tones[0] == Tone(-rate0, gain0) && v.tones[1] == Tone(rate1, gain1);
    FromPhaseZero(y, v, 0, k);
    FromPhaseZero(y, v, 1, k);
    CarrierRate(v);
    assert SoundAt(y, v, k) == y.round(Modulate(ToneAt(y, rate0, gain0, k), ToneAt(y, rate1, gain1, k)));
  }

  lemma CarrierRate(v: Voice)
    requires IsVoice(v) && v.tones[0].phaseRate < 0
    ensures Modulated(v) && RateOf(v, 0) == -v.tones[0].phaseRate && RateOf(v, 1) == v.tones[1].phaseRate
  {
  }

  lemma {:induction false} SilenceIsZero(y: Synth, v: Voice, n: nat)
    requires IsVoice(v)
    ensures Samples(y, v, true, n) == seq(n, i => 0) && MovedBy(v, true, n) == v
  {
    if n > 0 {
      SilenceIsZero(y, v, n - 1);
      OneMore(y, v, true, n - 1);
    }
  }

  /** A section of some length from its start, and what comes behind it. */
  lemma WholeSection(y: Synth, g: Gen, n: nat)
    requires IsShape(g) && g.section >= 0 && g.position == 0 && 0 < g.durations[g.section] <= n
    ensures var d := g.durations[g.section];
            Stream(y, g, n) == Behind(Samples(y, g.voice, Silent(g), d),
                                      Stream(y, NextSection(g.(voice := MovedBy(g.voice, Silent(g), d))), n - d))
  {
    var d := g.durations[g.section];
    SamplesPassed(y, g, n, d);
    assert Stretched(g, d) == NextSection(g.(voice := MovedBy(g.voice, Silent(g), d)));
  }

  /** A generator at the start of its sections, with phases in range. */
  predicate AtStart(g: Gen) {
    IsShape(g) && g.section == 0 && g.position == 0 && PhasesInRange(g.voice)
  }

  /** Sound for some samples, then silence: what a generator with two sections makes before it ends or repeats. */
  lemma SoundThenSilence(y: Synth, g: Gen, a: nat, b: nat, k: nat)
    requires AtStart(g) && g.durations == [a, b, 0, 0] && k < a + b
    ensures var (out, last) := Stream(y, g, a + b);
            && |out| == a + b && out[k] == (if k < a then SoundAt(y, g.voice, k) else 0)
            && last == g.(voice := MovedBy(g.voice, false, a), section := if g.repeated then 0 else -1)
  {
    SoundBeforeSilence(y, g, a, b);
    FourParts(Samples(y, g.voice, false, a), b, [], 0, k);
    if k < a {
      SampleAt(y, g.voice, false, a, k);
      SoundInTime(y, g.voice, k);
    }
  }

  lemma SoundBeforeSilence(y: Synth, g: Gen, a: nat, b: nat)
    requires AtStart(g) && g.durations == [a, b, 0, 0] && a + b > 0
    ensures Stream(y, g, a + b) ==
            (Samples(y, g.voice, false, a) + seq(b, i => 0),
             g.(voice := MovedBy(g.voice, false, a), section := if g.repeated then 0 else -1))
  {
    if a > 0 && b > 0 {
      TwoSections(y, g, a, b);
    } else if a > 0 {
      OneSection(y, g, a);
      assert Samples(y, g.voice, false, a) + seq(b, i => 0) == Samples(y, g.voice, false, a);
    } else {
      SilentSection(y, g, b);
      assert Samples(y, g.voice, false, a) + seq(b, i => 0) == seq(b, i => 0) && MovedBy(g.voice, false, a) == g.voice;
    }
  }

  lemma TwoSections(y: Synth, g: Gen, a: nat, b: nat)
    requires AtStart(g) && g.durations == [a, b, 0, 0] && a > 0 && b > 0
    ensures Stream(y, g, a + b) ==
            (Samples(y, g.voice, false, a) + seq(b, i => 0),
             g.(voice := MovedBy(g.voice, false, a), section := if g.repeated then 0 else -1))
  {
    var v := MovedBy(g.voice, false, a);
    var h := g.(voice := v, section := 1);
    WholeSection(y, g, a + b);
    assert NextSection(g.(voice := v)) == h;
    WholeSection(y, h, b);
    SilenceIsZero(y, v, b);
    assert Stream(y, h, b).0 == seq(b, i => 0) + [];
    assert seq(b, i => 0) + [] == seq(b, i => 0);
  }

  lemma OneSection(y: Synth, g: Gen, a: nat)
    requires AtStart(g) && g.durations == [a, 0, 0, 0] && a > 0
    ensures Stream(y, g, a) == (Samples(y, g.voice, false, a),
                                g.(voice := MovedBy(g.voice, false, a), section := if g.repeated then 0 else -1))
  {
    WholeSection(y, g, a);
    assert Samples(y, g.voice, false, a) + [] == Samples(y, g.voice, false, a);
  }

  lemma SilentSection(y: Synth, g: Gen, b: nat)
    requires AtStart(g) && g.durations == [0, b, 0, 0] && b > 0
    ensures Stream(y, g, b) == (seq(b, i => 0), g.(section := if g.repeated then 0 else -1))
  {
    var h := g.(section := 1);
    assert Settled(g) == h && Settled(h) == h;
    assert Stream(y, g, b) == Stream(y, h, b);
    WholeSection(y, h, b);
    SilenceIsZero(y, g.voice, b);
    assert seq(b, i => 0) + [] == seq(b, i => 0);
  }

  /** Four sections: sound, silence, the sound going on where it stopped, and silence. */
  lemma FourSections(y: Synth, g: Gen, a: nat, b: nat, c: nat, d: nat, k: nat)
    requires AtStart(g) && g.durations == [a, b, c, d] && a > 0 && b > 0 && c > 0 && d > 0 && k < a + b + c + d
    ensures var (out, last) := Stream(y, g, a + b + c + d);
            && |out| == a + b + c + d
            && out[k] == (if k < a then SoundAt(y, g.voice, k)
                          else if a + b <= k < a + b + c then SoundAt(y, g.voice, k - b) else 0)
            && last == g.(voice := MovedBy(g.voice, false, a + c), section := if g.repeated then 0 else -1)
  {
    SectionsInTurn(y, g, a, b, c, d);
    MovedOn(y, g.voice, a, c);
    FourParts(Samples(y, g.voice, false, a), b, Samples(y, MovedBy(g.voice, false, a), false, c), d, k);
    if k < a { SampleSounds(y, g.voice, 0, a, k); }
    else if a + b <= k < a + b + c { SampleSounds(y, g.voice, a, c, k - a - b); }
  }

  lemma FourParts(p: seq<int>, b: nat, r: seq<int>, d: nat, k: nat)
    requires k < |p| + b + |r| + d
    ensures (p + seq(b, i => 0) + (r + seq(d, i => 0)))[k] ==
            if k < |p| then p[k] else if |p| + b <= k < |p| + b + |r| then r[k - |p| - b] else 0
  {
  }

  /** The k-th sample of sound made after the first from samples. */
  lemma SampleSounds(y: Synth, v: Voice, from: nat, n: nat, k: nat)
    requires IsVoice(v) && PhasesInRange(v) && k < n
    ensures Samples(y, MovedBy(v, false, from), false, n)[k] == SoundAt(y, v, from + k)
  {
    SampleAt(y, MovedBy(v, false, from), false, n, k);
    MovedOn(y, v, from, k);
    SoundInTime(y, v, from + k);
  }

  lemma SectionsInTurn(y: Synth, g: Gen, a: nat, b: nat, c: nat, d: nat)
    requires AtStart(g) && g.durations == [a, b, c, d] && a > 0 && b > 0 && c > 0 && d > 0
    ensures var (out, last) := Stream(y, g, a + b + c + d);
            var v := MovedBy(g.voice, false, a);
            && out == Samples(y, g.voice, false, a) + seq(b, i => 0) + (Samples(y, v, false, c) + seq(d, i => 0))
            && last == g.(voice := MovedBy(v, false, c), section := if g.repeated then 0 else -1)
  {
    var v := MovedBy(g.voice, false, a);
    var h := g.(voice := v, section := 2);
    LastSections(y, h, c, d);
    assert a + b + c + d == a + b + (c + d);
    PairOfSections(y, g, a, b, c + d);
  }

  lemma LastSections(y: Synth, h: Gen, c: nat, d: nat)
    requires IsShape(h) && h.section == 2 && h.position == 0 && h.durations[2] == c > 0 && h.durations[3] == d > 0
    ensures Stream(y, h, c + d) ==
            (Samples(y, h.voice, false, c) + seq(d, i => 0),
             h.(voice := MovedBy(h.voice, false, c), section := if h.repeated then 0 else -1))
  {
    var last := h.(voice := MovedBy(h.voice, false, c), section := if h.repeated then 0 else -1);
    PairOfSections(y, h, c, d, 0);
    assert Stream(y, last, 0) == ([], last);
    assert Samples(y, h.voice, false, c) + seq(d, i => 0) + [] == Samples(y, h.voice, false, c) + seq(d, i => 0);
  }

  /** A section of sound and the section of silence behind it. */
  lemma PairOfSections(y: Synth, g: Gen, a: nat, b: nat, n: nat)
    requires IsShape(g) && (g.section == 0 || g.section == 2) && g.position == 0
    requires g.durations[g.section] == a > 0 && g.durations[g.section + 1] == b > 0
    ensures var v := MovedBy(g.voice, false, a);
            var h := NextSection(g.(voice := v, section := g.section + 1));
            Stream(y, g, a + b + n) == Behind(Samples(y, g.voice, false, a) + seq(b, i => 0), Stream(y, h, n))
  {
    var v := MovedBy(g.voice, false, a);
    var pause := g.(voice := v, section := g.section + 1);
    assert Stream(y, g, a + b + n) == Behind(Samples(y, g.voice, false, a), Stream(y, pause, b + n)) by {
      WholeSection(y, g, a + b + n);
    }
    Pause(y, pause, b, n);
    BehindBoth(Samples(y, g.voice, false, a), seq(b, i => 0), Stream(y, NextSection(pause), n));
  }

  lemma Pause(y: Synth, g: Gen, b: nat, n: nat)
    requires IsShape(g) && (g.section == 1 || g.section == 3) && g.position == 0 && g.durations[g.section] == b > 0
    ensures Stream(y, g, b + n) == Behind(seq(b, i => 0), Stream(y, NextSection(g), n))
  {
    WholeSection(y, g, b + n);
    SilenceIsZero(y, g.voice, b);
  }

  lemma {:induction false} MovedOn(y: Synth, v: Voice, m: nat, n: nat)
    requires IsVoice(v)
    ensures MovedBy(MovedBy(v, false, m), false, n) == MovedBy(v, false, m + n)
  {
    if n > 0 {
      MovedOn(y, v, m, n - 1);
      OneMore(y, MovedBy(v, false, m), false, n - 1);
      OneMore(y, v, false, m + n - 1);
    }
  }
}
