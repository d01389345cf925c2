/**
 The Goertzel filter of the tone detectors in real arithmetic: its result is the squared magnitude of the
 discrete Fourier sum of the samples at the frequency of the filter.
 */
module Goertzel {

  // ---------------------------------------------------------------------------------------
  // Complex numbers

  datatype Complex = Complex(re: real, im: real)

  const ZERO: Complex := Complex(0.0, 0.0)
  const ONE: Complex := Complex(1.0, 0.0)

  function Plus(x: Complex, y: Complex): Complex { Complex(x.re + y.re, x.im + y.im) }

  function Times(x: Complex, y: Complex): Complex { Complex(x.re * y.re - x.im * y.im, x.re * y.im + x.im * y.re) }

  function Conjugate(x: Complex): Complex { Complex(x.re, -x.im) }

  function Scaled(a: real, x: Complex): Complex { Complex(a * x.re, a * x.im) }

  /** The square of the magnitude. */
  function Power(x: Complex): real { x.re * x.re + x.im * x.im }

  lemma PowerOfProduct(x: Complex, y: Complex)
    ensures Power(Times(x, y)) == Power(x) * Power(y)
  {
    var a, b, c, d := x.re, x.im, y.re, y.im;
    Square2(a * c - b * d, a * d + b * c, a, b, c, d);
  }

  lemma Square2(u: real, v: real, a: real, b: real, c: real, d: real)
    requires u == a * c - b * d && v == a * d + b * c
    ensures u * u + v * v == (a * a + b * b) * (c * c + d * d)
  {
  }

  lemma TimesAssociates(x: Complex, y: Complex, z: Complex)
    ensures Times(Times(x, y), z) == Times(x, Times(y, z))
  {
  }

  lemma TimesDistributes(x: Complex, y: Complex, z: Complex)
    ensures Times(x, Plus(y, z)) == Plus(Times(x, y), Times(x, z))
  {
  }

  // ---------------------------------------------------------------------------------------
  // The filter

  /** The two values a filter carries from sample to sample. */
  datatype Osc = Osc(v2: real, v3: real)

  const RESTING: Osc := Osc(0.0, 0.0)

  function Pushed(o: Osc, fac: real, x: real): Osc { Osc(o.v3, fac * o.v3 - o.v2 + x) }

  /** The filter after a sequence of samples. */
  function Fed(fac: real, xs: seq<real>): Osc
    decreases |xs|
  {
    if xs == [] then RESTING else Pushed(Fed(fac, xs[..|xs| - 1]), fac, xs[|xs| - 1])
  }

  /** goertzel_result: a zero is pushed and the non-recursive side of the filter is taken. */
  function Result(o: Osc, fac: real): real {
    var p := Pushed(o, fac, 0.0);
    p.v3 * p.v3 + p.v2 * p.v2 - p.v2 * p.v3 * fac
  }

  // ---------------------------------------------------------------------------------------
  // The Fourier sum

  function PowerOf(t: Complex, n: nat): Complex { if n == 0 then ONE else Times(t, PowerOf(t, n - 1)) }

  /** The samples, each turned back by its number of steps of the rotation t, and summed. */
  function FourierSum(t: Complex, xs: seq<real>): Complex
    decreases |xs|
  {
    if xs == [] then ZERO
    else
      var n := |xs| - 1;
      Plus(FourierSum(t, xs[..n]), Scaled(xs[n], PowerOf(Conjugate(t), n)))
  }

  predicate IsRotation(t: Complex) { Power(t) == 1.0 }

  lemma {:induction false} RotationPowers(t: Complex, n: nat)
    requires IsRotation(t)
    ensures Power(PowerOf(t, n)) == 1.0
    ensures Times(PowerOf(t, n), PowerOf(Conjugate(t), n)) == ONE
  {
    if n > 0 {
      RotationPowers(t, n - 1);
      PowerOfProduct(t, PowerOf(t, n - 1));
      Interleave(t, PowerOf(t, n - 1), Conjugate(t), PowerOf(Conjugate(t), n - 1));
      assert Times(t, Conjugate(t)) == ONE;
    }
  }

  lemma Interleave(a: Complex, b: Complex, c: Complex, d: Complex)
    ensures Times(Times(a, b), Times(c, d)) == Times(Times(a, c), Times(b, d))
  {
    TimesAssociates(a, b, Times(c, d));
    TimesAssociates(b, c, d);
    TimesAssociates(c, b, d);
    TimesAssociates(a, c, Times(b, d));
    assert Times(b, c) == Times(c, b);
  }

  /** The state of a filter as a complex number that turns once with every sample. */
  function Phasor(t: Complex, o: Osc): Complex { Complex(o.v3 - t.re * o.v2, t.im * o.v2) }

  lemma PhasorTurns(t: Complex, o: Osc, x: real)
    requires IsRotation(t)
    ensures Phasor(t, Pushed(o, 2.0 * t.re, x)) == Plus(Times(t, Phasor(t, o)), Complex(x, 0.0))
  {
    var c, s := t.re, t.im;
    assert c * (o.v3 - c * o.v2) - s * (s * o.v2) == c * o.v3 - (c * c + s * s) * o.v2;
    assert c * (s * o.v2) + s * (o.v3 - c * o.v2) == s * o.v3;
  }

  /** The samples, each turned forward by the number of samples after it, and summed. */
  function TurningSum(t: Complex, xs: seq<real>): Complex
    decreases |xs|
  {
    if xs == [] then ZERO
    else Plus(Times(t, TurningSum(t, xs[..|xs| - 1])), Complex(xs[|xs| - 1], 0.0))
  }

  lemma {:induction false} PhasorIsTurningSum(t: Complex, xs: seq<real>)
    requires IsRotation(t)
    ensures Phasor(t, Fed(2.0 * t.re, xs)) == TurningSum(t, xs)
    decreases |xs|
  {
    if xs != [] {
      PhasorIsTurningSum(t, xs[..|xs| - 1]);
      PhasorTurns(t, Fed(2.0 * t.re, xs[..|xs| - 1]), xs[|xs| - 1]);
    }
  }

  /** Turned once more, that is the Fourier sum turned forward by the number of samples. */
  lemma {:induction false} TurningSumIsFourier(t: Complex, xs: seq<real>)
    requires IsRotation(t)
    ensures Times(t, TurningSum(t, xs)) == Times(PowerOf(t, |xs|), FourierSum(t, xs))
    decreases |xs|
  {
    if xs != [] {
      var n := |xs| - 1;
      TurningSumIsFourier(t, xs[..n]);
      RotationPowers(t, n);
      NextSample(t, TurningSum(t, xs[..n]), PowerOf(t, n), FourierSum(t, xs[..n]), PowerOf(Conjugate(t), n), xs[n],
                 TurningSum(t, xs), PowerOf(t, n + 1), FourierSum(t, xs));
    }
  }

  lemma TimesScaled(x: Complex, y: Complex, a: real)
    ensures Times(x, Scaled(a, y)) == Scaled(a, Times(x, y))
  {
  }

  lemma NextSample(t: Complex, phasor: Complex, forth: Complex, sum: Complex, back: Complex, x: real,
                   phasor': Complex, forth': Complex, sum': Complex)
    requires Times(t, phasor) == Times(forth, sum) && Times(forth, back) == ONE
    requires phasor' == Plus(Times(t, phasor), Complex(x, 0.0))
    requires forth' == Times(t, forth) && sum' == Plus(sum, Scaled(x, back))
    ensures Times(t, phasor') == Times(forth', sum')
  {
    TimesAssociates(t, forth, sum');
    TimesDistributes(forth, sum, Scaled(x, back));
    TimesScaled(forth, back, x);
  }

  /**
   For every rotation and every sequence of samples the filter computes the squared magnitude of the Fourier
   sum, exactly; so its result is never negative.
   */
  lemma ResultIsPower(t: Complex, xs: seq<real>)
    requires IsRotation(t)
    ensures Result(Fed(2.0 * t.re, xs), 2.0 * t.re) == Power(FourierSum(t, xs))
    ensures Result(Fed(2.0 * t.re, xs), 2.0 * t.re) >= 0.0
  {
    PhasorIsTurningSum(t, xs);
    TurningSumIsFourier(t, xs);
    RotationPowers(t, |xs|);
    SamePower(Times(t, TurningSum(t, xs)), PowerOf(t, |xs|), FourierSum(t, xs));
    ResultTurned(t, Fed(2.0 * t.re, xs));
    PowerNotNegative(FourierSum(t, xs));
  }

  lemma SamePower(turned: Complex, forth: Complex, sum: Complex)
    requires turned == Times(forth, sum) && Power(forth) == 1.0
    ensures Power(turned) == Power(sum)
  {
    PowerOfProduct(forth, sum);
  }

  lemma PowerNotNegative(x: Complex)
    ensures Power(x) >= 0.0
  {
  }

  lemma ResultTurned(t: Complex, o: Osc)
    requires IsRotation(t)
    ensures Result(o, 2.0 * t.re) == Power(Times(t, Phasor(t, o)))
  {
    PhasorTurns(t, o, 0.0);
    PhasorPower(t, Pushed(o, 2.0 * t.re, 0.0));
    var z := Times(t, Phasor(t, o));
    assert Plus(z, ZERO) == z;
  }

  lemma PhasorPower(t: Complex, o: Osc)
    requires IsRotation(t)
    ensures Power(Phasor(t, o)) == o.v3 * o.v3 + o.v2 * o.v2 - 2.0 * t.re * o.v2 * o.v3
  {
    var c, s, u, v := t.re, t.im, o.v2, o.v3;
    assert (v - c * u) * (v - c * u) + (s * u) * (s * u) == v * v - 2.0 * c * u * v + (c * c + s * s) * (u * u);
  }

  // ---------------------------------------------------------------------------------------
  // Banks of filters

  function PushedAll(bank: seq<Osc>, fac: seq<real>, x: real): seq<Osc>
    requires |bank| == |fac|
  {
    seq(|bank|, i requires 0 <= i < |bank| => Pushed(bank[i], fac[i], x))
  }

  function Rest(n: nat): seq<Osc> { seq(n, i => RESTING) }

  /** The bank after more samples. */
  function BankFed(bank: seq<Osc>, fac: seq<real>, xs: seq<real>): (r: seq<Osc>)
    requires |bank| == |fac|
    ensures |r| == |fac|
    decreases |xs|
  {
    if xs == [] then bank else PushedAll(BankFed(bank, fac, xs[..|xs| - 1]), fac, xs[|xs| - 1])
  }

  lemma OneMoreFed(bank: seq<Osc>, fac: seq<real>, xs: seq<real>, k: nat)
    requires |bank| == |fac| && k < |xs|
    ensures BankFed(bank, fac, xs[..k + 1]) == PushedAll(BankFed(bank, fac, xs[..k]), fac, xs[k])
  {
    assert xs[..k + 1][..k] == xs[..k];
  }

  function Energies(bank: seq<Osc>, fac: seq<real>): seq<real>
    requires |bank| == |fac|
  {
    seq(|bank|, i requires 0 <= i < |bank| => Result(bank[i], fac[i]))
  }

  /** The filters of a bank do not influence each other. */
  lemma {:induction false} BankIsFilters(fac: seq<real>, xs: seq<real>, i: nat)
    requires i < |fac|
    ensures BankFed(Rest(|fac|), fac, xs)[i] == Fed(fac[i], xs)
    decreases |xs|
  {
    if xs != [] { BankIsFilters(fac, xs[..|xs| - 1], i); }
  }

  /** The energies of a block, from rest, are the powers of its Fourier sums at the frequencies of the filters. */
  lemma BlockEnergies(turns: seq<Complex>, fac: seq<real>, xs: seq<real>, i: nat)
    requires i < |turns| == |fac| && IsRotation(turns[i]) && fac[i] == 2.0 * turns[i].re
    ensures Energies(BankFed(Rest(|fac|), fac, xs), fac)[i] == Power(FourierSum(turns[i], xs))
  {
    BankIsFilters(fac, xs, i);
    ResultIsPower(turns[i], xs);
  }

  /** Pushes a sample through every filter of a bank. */
  method PushAll(bank: array<Osc>, fac: seq<real>, x: real)
    requires bank.Length == |fac|
    modifies bank
    ensures bank[..] == PushedAll(old(bank[..]), fac, x)
  {
    for i := 0 to bank.Length
      invariant forall k :: 0 <= k < i ==> bank[k] == Pushed(old(bank[k]), fac[k], x)
      invariant forall k :: i <= k < bank.Length ==> bank[k] == old(bank[k])
    {
      bank[i] := Pushed(bank[i], fac[i], x);
    }
  }

  /** goertzel_reset of every filter of a bank. */
  method ResetAll(bank: array<Osc>)
    modifies bank
    ensures bank[..] == Rest(bank.Length)
  {
    for i := 0 to bank.Length
      invariant forall k :: 0 <= k < i ==> bank[k] == RESTING
    {
      bank[i] := RESTING;
    }
  }

  /** The samples of a buffer as reals. */
  function Reals(amp: seq<int>): seq<real> { seq(|amp|, i requires 0 <= i < |amp| => amp[i] as real) }

  lemma RealAt(amp: seq<int>, from: nat, to: nat, j: nat)
    requires from <= j < to <= |amp|
    ensures Reals(amp[from..to])[j - from] == amp[j] as real
  {
  }
}
