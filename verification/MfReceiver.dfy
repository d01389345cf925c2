/**
 The detector of R2 tones: six Goertzel filters over blocks of samples, the choice of the two strongest
 frequencies and the digit they stand for. Samples and energies are reals.
 */
module MfReceiver {
  import opened Goertzel
  import opened Registers

  type Digit = char
  const NO_DIGIT: Digit := '\0'

  // ---------------------------------------------------------------------------------------
  // Tables

  const FWD_FREQUENCIES: seq<int> := [1380, 1500, 1620, 1740, 1860, 1980]
  const BACK_FREQUENCIES: seq<int> := [1140, 1020, 900, 780, 660, 540]

  /** The frequency pairs the generators are made with, in the order of TONE_CODES. */
  const FWD_TONES: seq<(int, int)> :=
    [(1380, 1500), (1380, 1620), (1500, 1620), (1380, 1740), (1500, 1740), (1620, 1740), (1380, 1860), (1500, 1860),
     (1620, 1860), (1740, 1860), (1380, 1980), (1500, 1980), (1620, 1980), (1740, 1980), (1860, 1980)]
  const BACK_TONES: seq<(int, int)> :=
    [(1140, 1020), (1140, 900), (1020, 900), (1140, 780), (1020, 780), (900, 780), (1140, 660), (1020, 660),
     (900, 660), (780, 660), (1140, 540), (1020, 540), (900, 540), (780, 540), (660, 540)]
  const TONE_CODES: string := "1234567890BCDEF"

  /** The digits by the two positions of their frequencies: five to a row. */
  const POSITIONS: string := "1247B-358C--69D---0E----F"

  /** The tone generated for the d-th code has the frequencies at the two positions, in both directions. */
  predicate IsPair(d: int, i: int, j: int)
    requires 0 <= d < 15 && 0 <= i < 6 && 0 <= j < 6
  {
    var low, high := if i < j then i else j, if i < j then j else i;
    FWD_TONES[d] == (FWD_FREQUENCIES[low], FWD_FREQUENCIES[high]) &&
    BACK_TONES[d] == (BACK_FREQUENCIES[low], BACK_FREQUENCIES[high])
  }

  /** The entry of a pair of positions is the code of the tone generated with those frequencies. */
  lemma PositionsAgree(i: int, j: int) returns (d: int)
    requires 0 <= i < j < 6
    ensures 0 <= d < 15 && POSITIONS[i * 5 + j - 1] == TONE_CODES[d] && IsPair(d, i, j)
  {
    d := j * (j - 1) / 2 + i;
  }

  // ---------------------------------------------------------------------------------------
  // The two strongest frequencies

  /** i is stronger than j; of equal energies the later counts as the stronger. */
  predicate Stronger(e: seq<real>, i: int, j: int) {
    0 <= i < |e| && 0 <= j < |e| && (e[i] > e[j] || (e[i] == e[j] && i > j))
  }

  /** The best and second best of the first n energies, as the selection loop finds them. */
  function TopTwo(e: seq<real>, n: int): (r: (int, int))
    requires 2 <= n <= |e|
    ensures 0 <= r.0 < n && 0 <= r.1 < n
  {
    if n == 2 then (if e[0] > e[1] then (0, 1) else (1, 0))
    else
      var (best, second) := TopTwo(e, n - 1);
      var i := n - 1;
      if e[i] >= e[best] then (i, best) else if e[i] >= e[second] then (best, i) else (best, second)
  }

  lemma {:induction false} TopTwoAreStrongest(e: seq<real>, n: int)
    requires 2 <= n <= |e|
    ensures var (best, second) := TopTwo(e, n);
            && Stronger(e, best, second)
            && forall i :: 0 <= i < n && i != best && i != second ==> Stronger(e, second, i)
  {
    if n > 2 {
      TopTwoAreStrongest(e, n - 1);
      var (best, second) := TopTwo(e, n - 1);
      forall i | 0 <= i < n - 1 && i != best ensures Stronger(e, best, i) {
        assert i != second ==> Stronger(e, second, i);
      }
      var (b, s) := TopTwo(e, n);
      forall i | 0 <= i < n && i != b && i != s ensures Stronger(e, s, i) {
        assert i != best && i != second && i < n - 1 ==> Stronger(e, second, i);
      }
    }
  }

  const THRESHOLD: real := 5.0e8
  const TWIST: real := 5.0
  const RELATIVE_PEAK: real := 12.6

  /** The tests of level, twist and relative peak. */
  predicate IsHit(e: seq<real>, best: int, second: int)
    requires |e| == 6 && 0 <= best < 6 && 0 <= second < 6
  {
    && e[best] >= THRESHOLD && e[second] >= THRESHOLD
    && e[best] < e[second] * TWIST && e[best] * TWIST > e[second]
    && forall i :: 0 <= i < 6 && i != best && i != second ==> e[i] * RELATIVE_PEAK < e[second]
  }

  function DigitAt(i: int, j: int): Digit
    requires 0 <= i < 6 && 0 <= j < 6 && i != j
  {
    var low, high := if i < j then i else j, if i < j then j else i;
    POSITIONS[low * 5 + high - 1]
  }

  /** What a block of samples with the given energies is taken for. */
  function BlockDigit(e: seq<real>): Digit
    requires |e| == 6
  {
    TopTwoAreStrongest(e, 6);
    var (best, second) := TopTwo(e, 6);
    if IsHit(e, best, second) then DigitAt(best, second) else NO_DIGIT
  }

  /**
   A block yields a digit exactly when the two strongest of its frequencies pass the tests, and the digit is then
   the code of the tone generated with that pair, in either direction.
   */
  lemma DigitIsOfStrongest(e: seq<real>, best: int, second: int)
    requires |e| == 6 && 0 <= best < 6 && 0 <= second < 6 && Stronger(e, best, second)
    requires forall k :: 0 <= k < 6 && k != best && k != second ==> Stronger(e, second, k)
    ensures BlockDigit(e) != NO_DIGIT <==> IsHit(e, best, second)
    ensures BlockDigit(e) != NO_DIGIT ==> IsDigitOf(BlockDigit(e), best, second)
  {
    StrongestUnique(e, best, second);
    DigitAgrees(best, second);
  }

  /** The digit is the code of the tone that is generated with the frequencies at the two positions. */
  ghost predicate IsDigitOf(digit: Digit, i: int, j: int)
    requires 0 <= i < 6 && 0 <= j < 6
  {
    exists d :: 0 <= d < 15 && digit == TONE_CODES[d] && IsPair(d, i, j)
  }

  lemma DigitAgrees(i: int, j: int)
    requires 0 <= i < 6 && 0 <= j < 6 && i != j
    ensures DigitAt(i, j) != NO_DIGIT && IsDigitOf(DigitAt(i, j), i, j)
  {
    var low, high := if i < j then i else j, if i < j then j else i;
    var d := PositionsAgree(low, high);
    CodesAreDigits();
    assert IsPair(d, i, j);
  }

  lemma CodesAreDigits()
    ensures forall d :: 0 <= d < 15 ==> TONE_CODES[d] != NO_DIGIT
  {
  }

  /** The tests of the two strongest: levels, twist either way, and how far the others stay behind the second. */
  predicate Passes(e: seq<real>, best: int, second: int)
    requires |e| == 6 && 0 <= best < 6 && 0 <= second < 6
  {
    && e[best] >= 500000000.0 && e[second] >= 500000000.0
    && e[best] < 5.0 * e[second] && e[second] < 5.0 * e[best]
    && forall i :: 0 <= i < 6 && i != best && i != second ==> 12.6 * e[i] < e[second]
  }

  /** The signal whose two frequencies are the strongest and pass. */
  ghost predicate Sounded(e: seq<real>, code: Digit)
    requires |e| == 6
  {
    exists best, second ::
      && 0 <= best < 6 && 0 <= second < 6 && best != second && e[second] <= e[best] && Passes(e, best, second)
      && Stands(code, best, second)
  }

  /** The signal with the frequencies at two places, in either order. */
  predicate Stands(code: Digit, i: int, j: int) { IsSignal(code, if i < j then i else j, if i < j then j else i) }

  /** A block is taken for the signal whose two frequencies are the strongest and pass, and for none otherwise. */
  lemma SignalExactly(e: seq<real>, code: Digit)
    requires |e| == 6
    ensures code != NO_DIGIT ==> (BlockDigit(e) == code <==> Sounded(e, code))
    ensures BlockDigit(e) == NO_DIGIT <==> forall k :: !Sounded(e, k)
  {
    TopTwoAreStrongest(e, 6);
    var (best, second) := TopTwo(e, 6);
    if IsHit(e, best, second) { StrongestSounds(e, best, second); }
    forall k | Sounded(e, k) ensures IsHit(e, best, second) && k == DigitAt(best, second) {
      SoundedIsStrongest(e, best, second, k);
    }
  }

  lemma StrongestSounds(e: seq<real>, best: int, second: int)
    requires |e| == 6 && 0 <= best < 6 && 0 <= second < 6 && Stronger(e, best, second) && IsHit(e, best, second)
    ensures DigitAt(best, second) != NO_DIGIT && Sounded(e, DigitAt(best, second))
  {
    SignalAt(if best < second then best else second, if best < second then second else best);
    assert Passes(e, best, second);
  }

  lemma SoundedIsStrongest(e: seq<real>, best: int, second: int, code: Digit)
    requires |e| == 6 && Sounded(e, code) && TopTwo(e, 6) == (best, second) && Stronger(e, best, second)
    ensures IsHit(e, best, second) && code == DigitAt(best, second)
  {
    var i, j :|
      && 0 <= i < 6 && 0 <= j < 6 && i != j && e[j] <= e[i] && Passes(e, i, j)
      && Stands(code, i, j);
    OnlyPair(e, i, j);
    OneCode(i, j, code);
    SamePlace(i, j);
  }

  lemma OneCode(i: int, j: int, code: Digit)
    requires 0 <= i < 6 && 0 <= j < 6 && i != j && Stands(code, i, j)
    ensures code == DigitAt(i, j)
  {
    OneSignal(if i < j then i else j, if i < j then j else i, code);
  }

  lemma SamePlace(i: int, j: int)
    requires 0 <= i < 6 && 0 <= j < 6 && i != j
    ensures DigitAt(i, j) == DigitAt(j, i)
  {
  }

  lemma OnlyPair(e: seq<real>, i: int, j: int)
    requires |e| == 6 && 0 <= i < 6 && 0 <= j < 6 && i != j && e[j] <= e[i] && Passes(e, i, j)
    ensures var (best, second) := TopTwo(e, 6);
            IsHit(e, best, second) && ((i == best && j == second) || (i == second && j == best))
  {
    TopTwoAreStrongest(e, 6);
    var (best, second) := TopTwo(e, 6);
    assert best != i && best != j ==> 12.6 * e[best] < e[j];
    assert second != i && second != j ==> 12.6 * e[second] < e[j];
    assert best == i || second == i || Stronger(e, second, i);
    assert best == j || second == j || Stronger(e, second, j);
  }

  lemma SignalAt(i: int, j: int)
    requires 0 <= i < j < 6
    ensures POSITIONS[i * 5 + j - 1] != NO_DIGIT && IsSignal(POSITIONS[i * 5 + j - 1], i, j)
  {
    var d := j * (j - 1) / 2 + i;
    assert SIGNALS[d] ==
      Signal(POSITIONS[i * 5 + j - 1], (FORWARD[i], FORWARD[j]), (BACKWARD[i], BACKWARD[j]));
  }

  lemma OneSignal(i: int, j: int, code: Digit)
    requires IsSignal(code, i, j)
    ensures code == POSITIONS[i * 5 + j - 1]
  {
    var d :| 0 <= d < |SIGNALS| &&
             SIGNALS[d] == Signal(code, (FORWARD[i], FORWARD[j]), (BACKWARD[i], BACKWARD[j]));
  }

  /** The tables the generators are made from are those of the recommendation, code by code. */
  lemma TonesAreSignals(d: int)
    requires 0 <= d < 15
    ensures Signal(TONE_CODES[d], FWD_TONES[d], BACK_TONES[d]) == SIGNALS[d]
  {
  }

  lemma StrongestUnique(e: seq<real>, best: int, second: int)
    requires |e| == 6 && 0 <= best < 6 && 0 <= second < 6 && Stronger(e, best, second)
    requires forall k :: 0 <= k < 6 && k != best && k != second ==> Stronger(e, second, k)
    ensures TopTwo(e, 6) == (best, second)
  {
    TopTwoAreStrongest(e, 6);
    var (b, s) := TopTwo(e, 6);
    assert b != best && b != second ==> Stronger(e, second, b);
    assert best != b && best != s ==> Stronger(e, s, best);
    assert s != best && s != second ==> Stronger(e, second, s);
    assert second != b && second != s ==> Stronger(e, s, second);
  }

  // ---------------------------------------------------------------------------------------
  // The detector, sample by sample

  const BLOCK: int := 133

  datatype MfState = MfState(bank: seq<Osc>, count: int, digit: Digit)

  predicate IsState(s: MfState) { |s.bank| == 6 && 0 <= s.count < BLOCK }

  /** One more sample: the last one of a block decides the digit and resets the filters. */
  function Heard(fac: seq<real>, s: MfState, x: real): (r: MfState)
    requires |fac| == 6 && IsState(s)
    ensures IsState(r)
  {
    var bank := PushedAll(s.bank, fac, x);
    if s.count + 1 < BLOCK then MfState(bank, s.count + 1, s.digit)
    else MfState(Rest(6), 0, BlockDigit(Energies(bank, fac)))
  }

  function HeardAll(fac: seq<real>, s: MfState, xs: seq<real>): (r: MfState)
    requires |fac| == 6 && IsState(s)
    ensures IsState(r)
    decreases |xs|
  {
    if xs == [] then s else Heard(fac, HeardAll(fac, s, xs[..|xs| - 1]), xs[|xs| - 1])
  }

  /** Two calls are one call with the samples of both. */
  lemma {:induction false} HeardInChunks(fac: seq<real>, s: MfState, xs: seq<real>, ys: seq<real>)
    requires |fac| == 6 && IsState(s)
    ensures HeardAll(fac, s, xs + ys) == HeardAll(fac, HeardAll(fac, s, xs), ys)
    decreases |ys|
  {
    if ys == [] {
      assert xs + ys == xs;
    } else {
      HeardInChunks(fac, s, xs, ys[..|ys| - 1]);
      assert (xs + ys)[..|xs + ys| - 1] == xs + ys[..|ys| - 1];
    }
  }

  lemma HeardOnwards(fac: seq<real>, s: MfState, amp: seq<int>, from: nat, to: nat)
    requires |fac| == 6 && IsState(s) && from <= to <= |amp|
    ensures HeardAll(fac, s, Reals(amp[..to])) ==
        HeardAll(fac, HeardAll(fac, s, Reals(amp[..from])), Reals(amp[from..to]))
  {
    HeardInChunks(fac, s, Reals(amp[..from]), Reals(amp[from..to]));
    assert Reals(amp[..from]) + Reals(amp[from..to]) == Reals(amp[..to]);
  }

  /** Within a block the samples only go through the filters; at its end the digit is decided. */
  lemma {:induction false} WithinBlock(fac: seq<real>, s: MfState, xs: seq<real>)
    requires |fac| == 6 && IsState(s) && s.count + |xs| <= BLOCK
    ensures HeardAll(fac, s, xs) ==
            if s.count + |xs| < BLOCK then MfState(BankFed(s.bank, fac, xs), s.count + |xs|, s.digit)
            else MfState(Rest(6), 0, BlockDigit(Energies(BankFed(s.bank, fac, xs), fac)))
    decreases |xs|
  {
    if xs != [] { WithinBlock(fac, s, xs[..|xs| - 1]); }
  }

  /** A whole block from rest: the digit depends on its Fourier powers alone. */
  lemma BlockOfSamples(turns: seq<Complex>, fac: seq<real>, s: MfState, xs: seq<real>)
    requires |turns| == |fac| == 6 && IsState(s) && s.bank == Rest(6) && s.count == 0 && |xs| == 133
    requires forall i :: 0 <= i < 6 ==> IsRotation(turns[i]) && fac[i] == 2.0 * turns[i].re
    ensures HeardAll(fac, s, xs).digit ==
            BlockDigit(seq(6, i requires 0 <= i < 6 => Power(FourierSum(turns[i], xs))))
  {
    WithinBlock(fac, s, xs);
    var e := Energies(BankFed(s.bank, fac, xs), fac);
    forall i | 0 <= i < 6 ensures e[i] == Power(FourierSum(turns[i], xs)) {
      BlockEnergies(turns, fac, xs, i);
    }
    assert e == seq(6, i requires 0 <= i < 6 => Power(FourierSum(turns[i], xs)));
  }

  // ---------------------------------------------------------------------------------------
  // The detector

  class Receiver {
    const bank: array<Osc>
    const fac: seq<real>
    var count: int
    var digit: Digit

    ghost predicate Valid()
      reads this
    {
      bank.Length == |fac| == 6 && 0 <= count < BLOCK
    }

    ghost function State(): (s: MfState)
      reads this, bank
      requires Valid()
      ensures IsState(s)
    {
      MfState(bank[..], count, digit)
    }

    /** openr2_mf_rx_init, with the factors of the direction. */
    constructor (fac: seq<real>)
      requires |fac| == 6
      ensures Valid() && fresh(bank) && this.fac == fac && State() == MfState(Rest(6), 0, NO_DIGIT)
    {
      bank := new Osc[6](_ => RESTING);
      this.fac := fac;
      count := 0;
      digit := NO_DIGIT;
      new;
      assert bank[..] == Rest(6);
    }

    /** The selection loop. */
    method Select(energy: seq<real>) returns (best: int, second: int)
      requires |energy| == 6
      ensures (best, second) == TopTwo(energy, 6)
    {
      if energy[0] > energy[1] {
        best, second := 0, 1;
      } else {
        best, second := 1, 0;
      }
      for i := 2 to 6
        invariant (best, second) == TopTwo(energy, i)
      {
        if energy[i] >= energy[best] {
          best, second := i, best;
        } else if energy[i] >= energy[second] {
          second := i;
        }
      }
    }

    method Decide(energy: seq<real>) returns (d: Digit)
      requires |energy| == 6
      ensures d == BlockDigit(energy)
    {
      TopTwoAreStrongest(energy, 6);
      var best, second := Select(energy);
      var hit := false;
      if energy[best] >= THRESHOLD && energy[second] >= THRESHOLD &&
         energy[best] < energy[second] * TWIST && energy[best] * TWIST > energy[second] {
        hit := true;
        for i := 0 to 6
          invariant hit
          invariant forall k :: 0 <= k < i && k != best && k != second ==> energy[k] * RELATIVE_PEAK < energy[second]
        {
          if i != best && i != second && energy[i] * RELATIVE_PEAK >= energy[second] {
            hit := false;
            break;
          }
        }
      }
      if hit {
        if second < best {
          best, second := second, best;
        }
        d := POSITIONS[best * 5 + second - 1];
      } else {
        d := NO_DIGIT;
      }
    }

    /** The loop over the samples up to the end of the block or of the buffer. */
    method Filter(amp: array<int>, from: nat, to: nat)
      requires bank.Length == |fac| && from <= to <= amp.Length
      modifies bank
      ensures bank[..] == BankFed(old(bank[..]), fac, Reals(amp[..][from..to]))
    {
      ghost var before, heard, xs := bank[..], amp[..], Reals(amp[..][from..to]);
      for j := from to to
        invariant amp[..] == heard
        invariant bank[..] == BankFed(before, fac, xs[..j - from])
      {
        OneMoreFed(before, fac, xs, j - from);
        RealAt(amp[..], from, to, j);
        PushAll(bank, fac, amp[j] as real);
      }
      assert xs[..to - from] == xs;
    }

    /** One round of the outer loop; ended says that a block was completed. */
    method Chunk(amp: array<int>, from: nat, to: nat) returns (ended: bool)
      requires Valid() && from <= to <= amp.Length && count + (to - from) <= BLOCK
      modifies this`count, this`digit, bank
      ensures Valid() && State() == HeardAll(fac, old(State()), Reals(amp[..][from..to]))
      ensures ended <==> old(count) + (to - from) == BLOCK
      ensures !ended ==> count == old(count) + (to - from) && digit == old(digit)
    {
      WithinBlock(fac, State(), Reals(amp[..][from..to]));
      Filter(amp, from, to);
      count := count + (to - from);
      ended := count >= BLOCK;
      if ended {
        digit := Decide(Energies(bank[..], fac));
        ResetAll(bank);
        count := 0;
      }
    }

    /** openr2_mf_rx: the digit of the last block that ended in this call, if one did. */
    method Rx(amp: array<int>, samples: nat) returns (hitDigit: Digit)
      requires Valid() && samples <= amp.Length
      modifies this`count, this`digit, bank
      ensures Valid() && State() == HeardAll(fac, old(State()), Reals(amp[..][..samples]))
      ensures hitDigit == if old(count) + samples >= BLOCK then digit else NO_DIGIT
    {
      ghost var before := State();
      hitDigit := NO_DIGIT;
      var sample := 0;
      while sample < samples
        invariant sample <= samples && Valid()
        invariant State() == HeardAll(fac, before, Reals(amp[..][..sample]))
        invariant hitDigit == if before.count + sample >= BLOCK then digit else NO_DIGIT
        invariant before.count + sample < BLOCK ==> count == before.count + sample
      {
        var limit := if samples - sample >= BLOCK - count then sample + (BLOCK - count) else samples;
        HeardOnwards(fac, before, amp[..], sample, limit);
        var ended := Chunk(amp, sample, limit);
        if ended {
          hitDigit := digit;
        }
        sample := limit;
      }
    }
  }
}
