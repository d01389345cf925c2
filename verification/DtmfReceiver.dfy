/**
 The DTMF detector: eight Goertzel filters over blocks of 102 samples, the choice of row and column, and the
 logic that turns the hits of successive blocks into digits. The report goes to the digit buffer or the digit
 callback.
 */
module DtmfReceiver {
  import opened Goertzel
  import opened Keypad

  type Digit = char
  const NO_DIGIT: Digit := '\0'

  // ---------------------------------------------------------------------------------------
  // Debouncing

  /** The digit being received and the hit of the last block, as it was left by the logic. */
  datatype Debounce = Debounce(inDigit: Digit, lastHit: Digit)

  const SILENT: Debounce := Debounce(NO_DIGIT, NO_DIGIT)

  /** What the hit of a block counts for once the logic has looked at it. */
  function Settled(d: Debounce, hit: Digit): Digit {
    if hit != d.inDigit && d.lastHit != d.inDigit then (if hit != NO_DIGIT && hit == d.lastHit then hit else NO_DIGIT)
    else hit
  }

  function Debounced(d: Debounce, hit: Digit): Debounce {
    Debounce(if hit != d.inDigit && d.lastHit != d.inDigit then Settled(d, hit) else d.inDigit, Settled(d, hit))
  }

  /** The digit reported for a block. */
  function Reported(d: Debounce, hit: Digit): Digit {
    if hit != d.inDigit && d.lastHit != d.inDigit then Settled(d, hit) else NO_DIGIT
  }

  /** What is told of a digit that is there, or may be starting. */
  function StatusOf(d: Debounce): Digit {
    if d.inDigit != NO_DIGIT then d.inDigit else if d.lastHit != NO_DIGIT then 'x' else NO_DIGIT
  }

  /**
   Between digits one may be starting exactly if the next block can report one, and that is the digit of the last hit.
   */
  lemma MayBeStarting(d: Debounce)
    requires d.inDigit == NO_DIGIT
    ensures StatusOf(d) == 'x' <==> exists hit :: Reported(d, hit) != NO_DIGIT
    ensures forall hit :: Reported(d, hit) != NO_DIGIT ==> hit == d.lastHit
  {
    if d.lastHit != NO_DIGIT { assert Reported(d, d.lastHit) == d.lastHit; }
  }

  function After(hits: seq<Digit>): Debounce
    decreases |hits|
  {
    if hits == [] then SILENT else Debounced(After(hits[..|hits| - 1]), hits[|hits| - 1])
  }

  function ReportAt(hits: seq<Digit>, t: nat): Digit
    requires t < |hits|
  {
    Reported(After(hits[..t]), hits[t])
  }

  /** The last hit is remembered as it was, or as no hit at all. */
  lemma {:induction false} LastHitMeaning(hits: seq<Digit>)
    ensures var d := After(hits);
            d.lastHit != NO_DIGIT ==> hits != [] && d.lastHit == hits[|hits| - 1]
    decreases |hits|
  {
  }

  /** A digit is reported only after two equal blocks. */
  lemma ReportNeedsTwo(hits: seq<Digit>, t: nat)
    requires t < |hits| && ReportAt(hits, t) != NO_DIGIT
    ensures t >= 1 && hits[t - 1] == hits[t] == ReportAt(hits, t)
  {
    LastHitMeaning(hits[..t]);
  }

  /** Reports are the changes of in_digit to a digit, one for one. */
  lemma ReportsAreChanges(hits: seq<Digit>, t: nat)
    requires t < |hits|
    ensures var before, after := After(hits[..t]).inDigit, After(hits[..t + 1]).inDigit;
            ReportAt(hits, t) == if after != before && after != NO_DIGIT then after else NO_DIGIT
  {
    assert hits[..t + 1][..t] == hits[..t];
  }

  /** While a digit is being received, one deviating block does not end it, and a second one does. */
  lemma DigitEndsAfterTwo(hits: seq<Digit>, t: nat)
    requires 1 <= t && t + 1 < |hits| && After(hits[..t]).inDigit == hits[t - 1] != NO_DIGIT
    ensures After(hits[..t + 1]).inDigit == hits[t - 1]
    ensures hits[t] != hits[t - 1] ==>
              (After(hits[..t + 2]).inDigit == hits[t - 1] <==> hits[t + 1] == hits[t - 1])
  {
    assert hits[..t][..t - 1] == hits[..t - 1];
    assert hits[..t + 1][..t] == hits[..t];
    assert hits[..t + 2][..t + 1] == hits[..t + 1];
  }

  /** Three equal blocks always establish their digit. */
  lemma ThreeEstablish(d: Debounce, hit: Digit)
    requires hit != NO_DIGIT
    ensures Debounced(Debounced(Debounced(d, hit), hit), hit).inDigit == hit
  {
  }

  /**
   Two do so exactly when the digit was already being received or had just been hit, or the last block changed
   nothing. So the patterns ABB and CDD need a third block, against the comment in the source.
   */
  lemma TwoEstablish(d: Debounce, hit: Digit)
    requires hit != NO_DIGIT
    ensures Debounced(Debounced(d, hit), hit).inDigit == hit <==>
              d.inDigit == hit || d.lastHit == hit || d.lastHit == d.inDigit
  {
  }

  /** The nine patterns of the comment: the two that do not hold, and the seven that do. */
  lemma CommentedPatterns(a: Digit, b: Digit, c: Digit, d: Digit)
    requires a != b && b != c && c != d && b != d && a != c && a != d
    requires a != NO_DIGIT && b != NO_DIGIT && c != NO_DIGIT && d != NO_DIGIT
    ensures After([NO_DIGIT, a, b, b]).inDigit == NO_DIGIT
    ensures After([b, NO_DIGIT, b, b]).inDigit == b
    ensures After([a, NO_DIGIT, b, b]).inDigit == b
    ensures Debounced(Debounced(Debounced(Debounce(b, b), c), d), d).inDigit == NO_DIGIT
    ensures Debounced(Debounced(Debounce(b, b), c), c).inDigit == c
    ensures Debounced(Debounced(Debounce(b, b), NO_DIGIT), NO_DIGIT).inDigit == NO_DIGIT
    ensures Debounced(Debounced(Debounce(b, b), c), NO_DIGIT).inDigit == NO_DIGIT
    ensures Debounced(Debounced(Debounce(b, b), a), b).inDigit == b
    ensures var ended := Debounced(Debounced(Debounce(b, b), a), c);
            ended.inDigit == NO_DIGIT && Debounced(Debounced(ended, b), b).inDigit == b
  {
    AfterFour(NO_DIGIT, a, b, b);
    AfterFour(b, NO_DIGIT, b, b);
    AfterFour(a, NO_DIGIT, b, b);
  }

  lemma AfterFour(w: Digit, x: Digit, y: Digit, z: Digit)
    ensures After([w, x, y, z]) == Debounced(Debounced(Debounced(Debounced(SILENT, w), x), y), z)
  {
    var s := [w, x, y, z];
    assert s[..3] == [w, x, y] && [w, x, y][..2] == [w, x] && [w, x][..1] == [w] && [w][..0] == [];
    assert After([w]) == Debounced(SILENT, w);
    assert After([w, x]) == Debounced(After([w]), x);
    assert After([w, x, y]) == Debounced(After([w, x]), y);
  }

  // ---------------------------------------------------------------------------------------
  // One block

  const POSITIONS: string := "123A456B789C*0#D"
  const THRESHOLD: real := 8.0e7
  const NORMAL_TWIST: real := 6.3
  const REVERSE_TWIST: real := 2.5
  const RELATIVE_PEAK: real := 6.3
  const TO_TOTAL_ENERGY: real := 42.0

  /** The first of the largest of the first n energies. */
  function Peak(e: seq<real>, n: int): (best: int)
    requires 1 <= n <= |e|
    ensures 0 <= best < n
    ensures forall i :: 0 <= i < n ==> e[i] <= e[best]
    ensures forall i :: 0 <= i < best ==> e[i] < e[best]
  {
    if n == 1 then 0
    else
      var best := Peak(e, n - 1);
      if e[n - 1] > e[best] then n - 1 else best
  }

  /** No other energy comes near the one at the peak. */
  predicate StandsOut(e: seq<real>, best: int)
    requires 0 <= best < |e|
  {
    forall i :: 0 <= i < |e| && i != best ==> e[i] * RELATIVE_PEAK <= e[best]
  }

  predicate IsHit(rows: seq<real>, cols: seq<real>, r: int, c: int, energy: real)
    requires 0 <= r < |rows| && 0 <= c < |cols|
  {
    && rows[r] >= THRESHOLD && cols[c] >= THRESHOLD
    && cols[c] < rows[r] * REVERSE_TWIST && cols[c] * NORMAL_TWIST > rows[r]
    && StandsOut(cols, c) && StandsOut(rows, r)
    && rows[r] + cols[c] > TO_TOTAL_ENERGY * energy
  }

  function BlockHit(rows: seq<real>, cols: seq<real>, energy: real): Digit
    requires |rows| == |cols| == 4
  {
    var r, c := Peak(rows, 4), Peak(cols, 4);
    if IsHit(rows, cols, r, c, energy) then POSITIONS[4 * r + c] else NO_DIGIT
  }

  /** The tests of a block, with the peaks in row r and column c: levels, twist, relative peaks, share of the energy. */
  predicate Passes(rows: seq<real>, cols: seq<real>, r: int, c: int, energy: real)
    requires |rows| == |cols| == 4 && 0 <= r < 4 && 0 <= c < 4
  {
    && rows[r] >= 80000000.0 && cols[c] >= 80000000.0
    && cols[c] < 2.5 * rows[r] && rows[r] < 6.3 * cols[c]
    && (forall i :: 0 <= i < 4 && i != r ==> 6.3 * rows[i] <= rows[r])
    && (forall i :: 0 <= i < 4 && i != c ==> 6.3 * cols[i] <= cols[c])
    && rows[r] + cols[c] > 42.0 * energy
  }

  /** The key at the crossing of the row and the column that pass. */
  ghost predicate Pressed(rows: seq<real>, cols: seq<real>, energy: real, key: Digit)
    requires |rows| == |cols| == 4
  {
    exists r, c ::
      0 <= r < 4 && 0 <= c < 4 && Passes(rows, cols, r, c, energy) && IsKey(ROWS[r], COLUMNS[c], key)
  }

  /** A block is taken for the key whose two frequencies pass the tests, and for no digit if none do. */
  lemma HitExactly(rows: seq<real>, cols: seq<real>, energy: real, key: Digit)
    requires |rows| == |cols| == 4
    ensures key != NO_DIGIT ==> (BlockHit(rows, cols, energy) == key <==> Pressed(rows, cols, energy, key))
    ensures BlockHit(rows, cols, energy) == NO_DIGIT <==> forall k :: !Pressed(rows, cols, energy, k)
  {
    var r, c := Peak(rows, 4), Peak(cols, 4);
    forall i, j | 0 <= i < 4 && 0 <= j < 4 && Passes(rows, cols, i, j, energy)
      ensures i == r && j == c && IsHit(rows, cols, r, c, energy)
    {
      OnlyPeak(rows, i);
      OnlyPeak(cols, j);
    }
    if IsHit(rows, cols, r, c, energy) {
      assert Passes(rows, cols, r, c, energy);
      KeyAt(r, c);
      assert Pressed(rows, cols, energy, BlockHit(rows, cols, energy));
      forall k | IsKey(ROWS[r], COLUMNS[c], k) ensures k == BlockHit(rows, cols, energy) { OneCode(r, c, k); }
    }
  }

  lemma OnlyPeak(e: seq<real>, best: int)
    requires |e| == 4 && 0 <= best < 4 && e[best] > 0.0 && forall i :: 0 <= i < 4 && i != best ==> 6.3 * e[i] <= e[best]
    ensures Peak(e, 4) == best
  {
  }

  lemma KeyAt(r: int, c: int)
    requires 0 <= r < 4 && 0 <= c < 4
    ensures POSITIONS[4 * r + c] != NO_DIGIT && IsKey(ROWS[r], COLUMNS[c], POSITIONS[4 * r + c])
  {
    assert KEYS[4 * r + c] == Key(ROWS[r], COLUMNS[c], POSITIONS[4 * r + c]);
  }

  lemma OneCode(r: int, c: int, code: Digit)
    requires 0 <= r < 4 && 0 <= c < 4 && IsKey(ROWS[r], COLUMNS[c], code)
    ensures code == POSITIONS[4 * r + c]
  {
    var k :| 0 <= k < |KEYS| && KEYS[k] == Key(ROWS[r], COLUMNS[c], code);
    assert k == 4 * r + c;
  }

  // ---------------------------------------------------------------------------------------
  // The detector, sample by sample

  const BLOCK: int := 102
  const MAX_DIGITS: int := 128

  /** The two notches against dial tone. */
  datatype Notches = Notches(a0: real, a1: real, b0: real, b1: real)

  function Notched(z: Notches, x: real): (real, Notches) {
    var v := 0.98356 * x + 1.8954426 * z.a0 - 0.9691396 * z.a1;
    var y := v - 1.9251480 * z.a0 + z.a1;
    var w := 0.98456 * y + 1.8529543 * z.b0 - 0.9691396 * z.b1;
    (w - 1.8819938 * z.b0 + z.b1, Notches(v, z.a0, w, z.b0))
  }

  /**
   The notches as a difference equation, from whatever state: the four outputs before it, weighted, make the fifth agree
   with the inputs weighted so that a steady tone at 350 or 440 Hz cancels.
   */
  lemma NotchEquation(z: Notches, x0: real, x1: real, x2: real, x3: real, x4: real)
    ensures var (y0, z0) := Notched(z, x0);
            var (y1, z1) := Notched(z0, x1);
            var (y2, z2) := Notched(z1, x2);
            var (y3, z3) := Notched(z2, x3);
            var (y4, _) := Notched(z3, x4);
            var a, b, p, q := 1.8954426, 1.8529543, 1.9251480, 1.8819938;
            y4 - (a + b) * y3 + (2.0 * 0.9691396 + a * b) * y2 - 0.9691396 * (a + b) * y1 + 0.9691396 * 0.9691396 * y0
            == 0.98356 * 0.98456 * (x4 - (p + q) * x3 + (2.0 + p * q) * x2 - (p + q) * x1 + x0)
  {
  }

  /** The filters and the energy of a block so far. */
  datatype Measure = Measure(rows: seq<Osc>, cols: seq<Osc>, energy: real)

  const NOTHING: Measure := Measure(Rest(4), Rest(4), 0.0)

  /** The digit buffer, the digits it had no room for, and the digits given to the callback. */
  datatype Output = Output(digits: string, lost: int, delivered: string)

  datatype DtmfState = DtmfState(measure: Measure, notches: Notches, count: int, debounce: Debounce, output: Output)

  /** What a receiver is set up with. */
  datatype Setup = Setup(rowFac: seq<real>, colFac: seq<real>, filterDialtone: bool, callback: bool)

  predicate IsSetup(u: Setup) { |u.rowFac| == |u.colFac| == 4 }

  predicate IsMeasure(m: Measure) { |m.rows| == |m.cols| == 4 }

  predicate IsState(s: DtmfState) { IsMeasure(s.measure) && 0 <= s.count < BLOCK }

  function Square(x: real): real { x * x }

  function Measured(u: Setup, m: Measure, x: real): Measure
    requires IsSetup(u) && IsMeasure(m)
  {
    Measure(PushedAll(m.rows, u.rowFac, x), PushedAll(m.cols, u.colFac, x), m.energy + Square(x))
  }

  function HitOf(u: Setup, m: Measure): Digit
    requires IsSetup(u) && IsMeasure(m)
  {
    BlockHit(Energies(m.rows, u.rowFac), Energies(m.cols, u.colFac), m.energy)
  }

  function Collected(u: Setup, o: Output, d: Digit): Output {
    if d == NO_DIGIT then o
    else if |o.digits| >= MAX_DIGITS then o.(lost := o.lost + 1)
    else if u.callback then o.(delivered := o.delivered + (o.digits + [d]), digits := "")
    else o.(digits := o.digits + [d])
  }

  function Through(u: Setup, z: Notches, x: real): (real, Notches) {
    if u.filterDialtone then Notched(z, x) else (x, z)
  }

  /** One more sample: the last one of a block decides its hit, which goes through the logic. */
  function Heard(u: Setup, s: DtmfState, x: real): (r: DtmfState)
    requires IsSetup(u) && IsState(s)
    ensures IsState(r)
  {
    var (y, z) := Through(u, s.notches, x);
    var m := Measured(u, s.measure, y);
    if s.count + 1 < BLOCK then s.(measure := m, notches := z, count := s.count + 1)
    else BlockEnd(u, s.(measure := m, notches := z))
  }

  function BlockEnd(u: Setup, s: DtmfState): (r: DtmfState)
    requires IsSetup(u) && IsMeasure(s.measure)
    ensures IsState(r)
  {
    var hit := HitOf(u, s.measure);
    DtmfState(NOTHING, s.notches, 0, Debounced(s.debounce, hit),
              Collected(u, s.output, Reported(s.debounce, hit)))
  }

  function HeardAll(u: Setup, s: DtmfState, xs: seq<real>): (r: DtmfState)
    requires IsSetup(u) && IsState(s)
    ensures IsState(r)
    decreases |xs|
  {
    if xs == [] then s else Heard(u, HeardAll(u, s, xs[..|xs| - 1]), xs[|xs| - 1])
  }

  /** The output after several reports. */
  function CollectedAll(u: Setup, o: Output, ds: seq<Digit>): Output
    decreases |ds|
  {
    if ds == [] then o else Collected(u, CollectedAll(u, o, ds[..|ds| - 1]), ds[|ds| - 1])
  }

  /** With a callback every digit reported is delivered, in order, and none is kept. */
  lemma {:induction false} AllDelivered(u: Setup, o: Output, ds: seq<Digit>)
    requires u.callback && o.digits == "" && NO_DIGIT !in ds
    ensures CollectedAll(u, o, ds) == o.(delivered := o.delivered + ds)
    decreases |ds|
  {
    if ds != [] {
      AllDelivered(u, o, ds[..|ds| - 1]);
      assert ds == ds[..|ds| - 1] + [ds[|ds| - 1]];
      assert o.delivered + ds[..|ds| - 1] + ("" + [ds[|ds| - 1]]) == o.delivered + ds;
    }
  }

  /** Without one the first 128 are kept in order, and the others are counted as lost. */
  lemma {:induction false} FirstKept(u: Setup, o: Output, ds: seq<Digit>)
    requires !u.callback && |o.digits| <= 128 && NO_DIGIT !in ds
    ensures var r := CollectedAll(u, o, ds); var all := o.digits + ds;
            if |all| <= 128 then r == o.(digits := all)
            else r == o.(digits := all[..128], lost := o.lost + |all| - 128)
    decreases |ds|
  {
    if ds != [] {
      FirstKept(u, o, ds[..|ds| - 1]);
      assert ds == ds[..|ds| - 1] + [ds[|ds| - 1]];
      assert o.digits + ds == o.digits + ds[..|ds| - 1] + [ds[|ds| - 1]];
    }
  }

  /** Two calls are one call with the samples of both. */
  lemma {:induction false} HeardInChunks(u: Setup, s: DtmfState, xs: seq<real>, ys: seq<real>)
    requires IsSetup(u) && IsState(s)
    ensures HeardAll(u, s, xs + ys) == HeardAll(u, HeardAll(u, s, xs), ys)
    decreases |ys|
  {
    if ys == [] {
      assert xs + ys == xs;
    } else {
      HeardInChunks(u, s, xs, ys[..|ys| - 1]);
      assert (xs + ys)[..|xs + ys| - 1] == xs + ys[..|ys| - 1];
    }
  }

  lemma HeardOnwards(u: Setup, s: DtmfState, amp: seq<int>, from: nat, to: nat)
    requires IsSetup(u) && IsState(s) && from <= to <= |amp|
    ensures HeardAll(u, s, Reals(amp[..to])) == HeardAll(u, HeardAll(u, s, Reals(amp[..from])), Reals(amp[from..to]))
  {
    HeardInChunks(u, s, Reals(amp[..from]), Reals(amp[from..to]));
    assert Reals(amp[..from]) + Reals(amp[from..to]) == Reals(amp[..to]);
  }

  /** The samples of a block on their way through the notches and the filters. */
  function Gathered(u: Setup, m: Measure, z: Notches, xs: seq<real>): (r: (Measure, Notches))
    requires IsSetup(u) && IsMeasure(m)
    ensures IsMeasure(r.0)
    decreases |xs|
  {
    if xs == [] then (m, z)
    else
      var (m1, z1) := Gathered(u, m, z, xs[..|xs| - 1]);
      Taken(u, m1, z1, xs[|xs| - 1])
  }

  /** A sample on its way through the notches and the filters. */
  function Taken(u: Setup, m: Measure, z: Notches, x: real): (r: (Measure, Notches))
    requires IsSetup(u) && IsMeasure(m)
    ensures IsMeasure(r.0)
  {
    var (y, z') := Through(u, z, x); (Measured(u, m, y), z')
  }

  lemma OneMoreGathered(u: Setup, m: Measure, z: Notches, xs: seq<real>, k: nat)
    requires IsSetup(u) && IsMeasure(m) && k < |xs|
    ensures var (m1, z1) := Gathered(u, m, z, xs[..k]); Gathered(u, m, z, xs[..k + 1]) == Taken(u, m1, z1, xs[k])
  {
    assert xs[..k + 1][..k] == xs[..k];
  }

  lemma {:induction false} WithinBlock(u: Setup, s: DtmfState, xs: seq<real>)
    requires IsSetup(u) && IsState(s) && s.count + |xs| <= BLOCK
    ensures var (m, z) := Gathered(u, s.measure, s.notches, xs);
            HeardAll(u, s, xs) ==
            if s.count + |xs| < BLOCK then s.(measure := m, notches := z, count := s.count + |xs|)
            else BlockEnd(u, s.(measure := m, notches := z))
    decreases |xs|
  {
    if xs != [] { WithinBlock(u, s, xs[..|xs| - 1]); }
  }

  /** What reaches the filters: the samples, or what the notches leave of them. */
  function Filtered(u: Setup, z: Notches, xs: seq<real>): (r: (seq<real>, Notches))
    ensures |r.0| == |xs|
    decreases |xs|
  {
    if xs == [] then ([], z)
    else
      var (ys, w) := Filtered(u, z, xs[..|xs| - 1]);
      var (y, w') := Through(u, w, xs[|xs| - 1]);
      (ys + [y], w')
  }

  function SumOfSquares(xs: seq<real>): real
    decreases |xs|
  {
    if xs == [] then 0.0 else SumOfSquares(xs[..|xs| - 1]) + xs[|xs| - 1] * xs[|xs| - 1]
  }

  lemma {:induction false} GatheredIsFed(u: Setup, z: Notches, xs: seq<real>)
    requires IsSetup(u)
    ensures var (ys, w) := Filtered(u, z, xs);
            Gathered(u, NOTHING, z, xs) ==
            (Measure(BankFed(Rest(4), u.rowFac, ys), BankFed(Rest(4), u.colFac, ys), SumOfSquares(ys)), w)
    decreases |xs|
  {
    if xs != [] {
      var (ys, w) := Filtered(u, z, xs[..|xs| - 1]);
      var (y, w') := Through(u, w, xs[|xs| - 1]);
      GatheredIsFed(u, z, xs[..|xs| - 1]);
      var all := ys + [y];
      assert all[..|all| - 1] == ys && all[|all| - 1] == y && Filtered(u, z, xs) == (all, w');
      assert BankFed(Rest(4), u.rowFac, all) == PushedAll(BankFed(Rest(4), u.rowFac, ys), u.rowFac, y);
      assert BankFed(Rest(4), u.colFac, all) == PushedAll(BankFed(Rest(4), u.colFac, ys), u.colFac, y);
      assert SumOfSquares(all) == SumOfSquares(ys) + y * y;
    }
  }

  /** Without the notches the samples reach the filters as they are. */
  lemma {:induction false} Unfiltered(u: Setup, z: Notches, xs: seq<real>)
    requires !u.filterDialtone
    ensures Filtered(u, z, xs) == (xs, z)
    decreases |xs|
  {
    if xs != [] {
      Unfiltered(u, z, xs[..|xs| - 1]);
      assert xs[..|xs| - 1] + [xs[|xs| - 1]] == xs;
    }
  }

  /** The powers of samples at frequencies given by their rotations. */
  function Powers(turns: seq<Complex>, xs: seq<real>): seq<real>
    requires |turns| == 4
  {
    seq(4, i requires 0 <= i < 4 => Power(FourierSum(turns[i], xs)))
  }

  /**
   A whole block of 102 samples from rest is taken for the key whose row and column pass the tests on the Fourier powers
   and the energy of what the notches leave of it, and for no digit if none do; and that goes through the logic.
   */
  lemma BlockOfSamples(u: Setup, rowTurns: seq<Complex>, colTurns: seq<Complex>, s: DtmfState, xs: seq<real>,
                       key: Digit)
    requires IsSetup(u) && IsState(s) && s.measure == NOTHING && s.count == 0 && |xs| == 102
    requires |rowTurns| == |colTurns| == 4
    requires forall i :: 0 <= i < 4 ==> IsRotation(rowTurns[i]) && u.rowFac[i] == 2.0 * rowTurns[i].re
    requires forall i :: 0 <= i < 4 ==> IsRotation(colTurns[i]) && u.colFac[i] == 2.0 * colTurns[i].re
    requires var ys := Filtered(u, s.notches, xs).0;
             if key != NO_DIGIT then Pressed(Powers(rowTurns, ys), Powers(colTurns, ys), SumOfSquares(ys), key)
             else forall k :: !Pressed(Powers(rowTurns, ys), Powers(colTurns, ys), SumOfSquares(ys), k)
    ensures HeardAll(u, s, xs).debounce == Debounced(s.debounce, key)
  {
    var ys := Filtered(u, s.notches, xs).0;
    WithinBlock(u, s, xs);
    GatheredIsFed(u, s.notches, xs);
    FilterEnergies(rowTurns, u.rowFac, ys);
    FilterEnergies(colTurns, u.colFac, ys);
    HitExactly(Powers(rowTurns, ys), Powers(colTurns, ys), SumOfSquares(ys), key);
  }

  lemma FilterEnergies(turns: seq<Complex>, fac: seq<real>, ys: seq<real>)
    requires |turns| == |fac| == 4
    requires forall i :: 0 <= i < 4 ==> IsRotation(turns[i]) && fac[i] == 2.0 * turns[i].re
    ensures Energies(BankFed(Rest(4), fac, ys), fac) == Powers(turns, ys)
  {
    forall i | 0 <= i < 4 ensures Energies(BankFed(Rest(4), fac, ys), fac)[i] == Powers(turns, ys)[i] {
      BlockEnergies(turns, fac, ys, i);
    }
  }

  /** The flush at the end of a call. */
  function Flushed(u: Setup, s: DtmfState): DtmfState {
    if s.output.digits != "" && u.callback then
      s.(output := s.output.(delivered := s.output.delivered + s.output.digits, digits := ""))
    else s
  }

  /** A receiver that starts with an empty buffer has nothing to flush, so that calls can be joined. */
  lemma {:induction false} NothingToFlush(u: Setup, s: DtmfState, xs: seq<real>)
    requires IsSetup(u) && IsState(s) && (u.callback ==> s.output.digits == "")
    ensures Flushed(u, HeardAll(u, s, xs)) == HeardAll(u, s, xs)
    ensures u.callback ==> HeardAll(u, s, xs).output.digits == ""
    decreases |xs|
  {
    if xs != [] { NothingToFlush(u, s, xs[..|xs| - 1]); }
  }

  /** Any division of the samples into two calls leaves the receiver as one call does. */
  lemma ReceivedInChunks(u: Setup, s: DtmfState, xs: seq<real>, ys: seq<real>)
    requires IsSetup(u) && IsState(s) && (u.callback ==> s.output.digits == "")
    ensures Flushed(u, HeardAll(u, Flushed(u, HeardAll(u, s, xs)), ys)) == Flushed(u, HeardAll(u, s, xs + ys))
  {
    HeardInChunks(u, s, xs, ys);
    NothingToFlush(u, s, xs);
    NothingToFlush(u, s, xs + ys);
  }

  // ---------------------------------------------------------------------------------------
  // The detector

  class Receiver {
    const setup: Setup
    const rowOut: array<Osc>
    const colOut: array<Osc>
    var energy: real
    var notches: Notches
    var count: int
    var lastHit: Digit
    var inDigit: Digit
    var digits: string
    var lostDigits: int
    /** The digits given to the callback so far. */
    var delivered: string

    ghost predicate Valid()
      reads this
    {
      IsSetup(setup) && rowOut.Length == colOut.Length == 4 && rowOut != colOut && 0 <= count < BLOCK
    }

    ghost function Block(): Measure
      reads this, rowOut, colOut
    {
      Measure(rowOut[..], colOut[..], energy)
    }

    ghost function State(): (s: DtmfState)
      reads this, rowOut, colOut
      requires Valid()
      ensures IsState(s)
    {
      DtmfState(Block(), notches, count, Debounce(inDigit, lastHit), Output(digits, lostDigits, delivered))
    }

    /** openr2_dtmf_rx_init. */
    constructor (setup: Setup)
      requires IsSetup(setup)
      ensures Valid() && fresh(rowOut) && fresh(colOut) && this.setup == setup
      ensures State() == DtmfState(NOTHING, Notches(0.0, 0.0, 0.0, 0.0), 0, SILENT, Output("", 0, ""))
    {
      this.setup := setup;
      rowOut := new Osc[4](_ => RESTING);
      colOut := new Osc[4](_ => RESTING);
      energy, notches, count := 0.0, Notches(0.0, 0.0, 0.0, 0.0), 0;
      lastHit, inDigit := NO_DIGIT, NO_DIGIT;
      digits, lostDigits, delivered := "", 0, "";
      new;
      assert rowOut[..] == Rest(4) && colOut[..] == Rest(4);
    }

    /** One sample through the notches, the energy and the filters. */
    method Take(x: real)
      requires IsSetup(setup) && rowOut.Length == colOut.Length == 4 && rowOut != colOut
      modifies this`energy, this`notches, rowOut, colOut
      ensures (Block(), notches) == Taken(setup, old(Block()), old(notches), x)
    {
      var famp := x;
      if setup.filterDialtone {
        var (y, next) := Notched(notches, famp);
        famp := y;
        notches := next;
      }
      energy := energy + Square(famp);
      PushAll(rowOut, setup.rowFac, famp);
      PushAll(colOut, setup.colFac, famp);
    }

    /** The loop over the samples up to the end of the block or of the buffer. */
    method Filter(amp: array<int>, from: nat, to: nat)
      requires IsSetup(setup) && rowOut.Length == colOut.Length == 4 && rowOut != colOut && from <= to <= amp.Length
      modifies this`energy, this`notches, rowOut, colOut
      ensures (Block(), notches) == Gathered(setup, old(Block()), old(notches), Reals(amp[..][from..to]))
    {
      ghost var m, z, heard, xs := Block(), notches, amp[..], Reals(amp[..][from..to]);
      for j := from to to
        invariant amp[..] == heard
        invariant (Block(), notches) == Gathered(setup, m, z, xs[..j - from])
      {
        OneMoreGathered(setup, m, z, xs, j - from);
        RealAt(amp[..], from, to, j);
        Take(amp[j] as real);
      }
      assert xs[..to - from] == xs;
    }

    /** The peak of four energies. */
    method FindPeak(e: seq<real>) returns (best: int)
      requires |e| == 4
      ensures best == Peak(e, 4)
    {
      best := 0;
      for i := 1 to 4
        invariant best == Peak(e, i)
      {
        if e[i] > e[best] {
          best := i;
        }
      }
    }

    /** The tests at the end of a block. */
    method Decide() returns (hit: Digit)
      requires Valid()
      ensures hit == HitOf(setup, Block())
    {
      var rows, cols := Energies(rowOut[..], setup.rowFac), Energies(colOut[..], setup.colFac);
      var bestRow := FindPeak(rows);
      var bestCol := FindPeak(cols);
      hit := NO_DIGIT;
      if rows[bestRow] >= THRESHOLD && cols[bestCol] >= THRESHOLD &&
         cols[bestCol] < rows[bestRow] * REVERSE_TWIST && cols[bestCol] * NORMAL_TWIST > rows[bestRow] {
        var i := 0;
        while i < 4
          invariant i <= 4
          invariant forall k :: 0 <= k < i && k != bestCol ==> cols[k] * RELATIVE_PEAK <= cols[bestCol]
          invariant forall k :: 0 <= k < i && k != bestRow ==> rows[k] * RELATIVE_PEAK <= rows[bestRow]
        {
          if (i != bestCol && cols[i] * RELATIVE_PEAK > cols[bestCol]) ||
             (i != bestRow && rows[i] * RELATIVE_PEAK > rows[bestRow]) {
            break;
          }
          i := i + 1;
        }
        if i >= 4 && rows[bestRow] + cols[bestCol] > TO_TOTAL_ENERGY * energy {
          hit := POSITIONS[4 * bestRow + bestCol];
        }
      }
    }

    /** The logic over successive hits, with the overridden hit stored as the last one. */
    method TakeHit(hitOfBlock: Digit)
      modifies this`inDigit, this`lastHit, this`digits, this`lostDigits, this`delivered
      ensures Debounce(inDigit, lastHit) == Debounced(old(Debounce(inDigit, lastHit)), hitOfBlock)
      ensures Output(digits, lostDigits, delivered) ==
              Collected(setup, old(Output(digits, lostDigits, delivered)),
                        Reported(old(Debounce(inDigit, lastHit)), hitOfBlock))
    {
      var hit := hitOfBlock;
      if hit != inDigit {
        if lastHit != inDigit {
          hit := if hit != NO_DIGIT && hit == lastHit then hit else NO_DIGIT;
          if hit != NO_DIGIT {
            if |digits| < MAX_DIGITS {
              digits := digits + [hit];
              if setup.callback {
                delivered := delivered + digits;
                digits := "";
              }
            } else {
              lostDigits := lostDigits + 1;
            }
          }
          inDigit := hit;
        }
      }
      lastHit := hit;
    }

    /** One round of the outer loop. */
    method Chunk(amp: array<int>, from: nat, to: nat)
      requires Valid() && from <= to <= amp.Length && count + (to - from) <= BLOCK
      modifies this, rowOut, colOut
      ensures Valid() && State() == HeardAll(setup, old(State()), Reals(amp[..][from..to]))
    {
      WithinBlock(setup, State(), Reals(amp[..][from..to]));
      Filter(amp, from, to);
      count := count + (to - from);
      if count >= BLOCK {
        EndBlock();
      }
    }

    method EndBlock()
      requires IsSetup(setup) && rowOut.Length == colOut.Length == 4 && rowOut != colOut && count == BLOCK
      modifies this, rowOut, colOut
      ensures Valid()
      ensures State() == BlockEnd(setup, old(DtmfState(
                Block(), notches, count, Debounce(inDigit, lastHit), Output(digits, lostDigits, delivered))))
    {
      count := 0;
      var hit := Decide();
      TakeHit(hit);
      ResetAll(rowOut);
      ResetAll(colOut);
      energy := 0.0;
    }

    /** openr2_dtmf_rx. */
    method Rx(amp: array<int>, samples: nat)
      requires Valid() && samples <= amp.Length
      modifies this, rowOut, colOut
      ensures Valid() && State() == Flushed(setup, HeardAll(setup, old(State()), Reals(amp[..][..samples])))
    {
      ghost var before := State();
      var sample := 0;
      while sample < samples
        invariant sample <= samples && Valid()
        invariant State() == HeardAll(setup, before, Reals(amp[..][..sample]))
      {
        var limit := if samples - sample >= BLOCK - count then sample + (BLOCK - count) else samples;
        HeardOnwards(setup, before, amp[..], sample, limit);
        Chunk(amp, sample, limit);
        sample := limit;
      }
      if digits != "" && setup.callback {
        delivered := delivered + digits;
        digits := "";
      }
    }

    /** openr2_dtmf_rx_status. */
    method Status() returns (status: Digit)
      ensures status == StatusOf(Debounce(inDigit, lastHit))
      ensures inDigit == NO_DIGIT ==>
                (status == 'x' <==> exists hit :: Reported(Debounce(inDigit, lastHit), hit) != NO_DIGIT)
    {
      if inDigit == NO_DIGIT { MayBeStarting(Debounce(inDigit, lastHit)); }
      if inDigit != NO_DIGIT {
        return inDigit;
      }
      if lastHit != NO_DIGIT {
        return 'x';
      }
      return NO_DIGIT;
    }
  }
}
