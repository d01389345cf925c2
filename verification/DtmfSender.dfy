/**
 The DTMF transmitter: digits wait in a ring queue and are sent one after the other by the tone generator.
 */
module DtmfSender {
  import opened ToneGen
  import opened Keypad
  import Queue

  const ROW_FREQUENCIES: seq<int> := [697, 770, 852, 941]
  const COL_FREQUENCIES: seq<int> := [1209, 1336, 1477, 1633]
  const POSITIONS: string := "123A456B789C*0#D"

  /** The gains of the two tones and the lengths of tone and pause in samples. */
  datatype Setup = Setup(low: real, high: real, onTime: nat, offTime: nat)

  function TonesOf(u: Setup, index: int): seq<Tone>
    requires 0 <= index < 16
  {
    [Tone(PhaseRate(ROW_FREQUENCIES[index / 4]), u.low), Tone(PhaseRate(COL_FREQUENCIES[index % 4]), u.high),
     NO_TONE, NO_TONE]
  }

  /** The generator at the start of a digit. */
  function DigitGen(u: Setup, index: int): (g: Gen)
    requires 0 <= index < 16
    ensures IsShape(g) && g.section == 0
  {
    Gen(Voice(TonesOf(u, index), [0, 0, 0, 0]), [u.onTime, u.offTime, 0, 0], false, 0, 0)
  }

  /** The place of a digit among the first n positions, or -1; a NUL is not a digit. */
  function PositionOf(d: Queue.Byte, n: nat): (i: int)
    requires n <= 16
    ensures -1 <= i < n
    ensures i >= 0 ==> POSITIONS[i] as int == d
  {
    if n == 0 then -1
    else
      var i := PositionOf(d, n - 1);
      if i >= 0 then i else if POSITIONS[n - 1] as int == d then n - 1 else -1
  }

  // ---------------------------------------------------------------------------------------
  // The keys

  /** Each key is sent with the frequencies of its row and its column, the row with the low gain. */
  lemma KeyIsSent(u: Setup, k: Key)
    requires k in KEYS
    ensures var i := PositionOf(k.code as int, 16);
            && 0 <= i < 16
            && DigitGen(u, i).voice.tones ==
               [Tone(StepsOf(k.low), u.low), Tone(StepsOf(k.high), u.high), Tone(0, 0.0), Tone(0, 0.0)]
  {
    var i :| 0 <= i < 16 && KEYS[i] == k;
    PlaceOfKey(i);
    TonesOfKey(u, i);
  }

  lemma PlaceOfKey(i: int)
    requires 0 <= i < 16
    ensures PositionOf(KEYS[i].code as int, 16) == i
  {
    assert forall j :: 0 <= j < 16 ==> POSITIONS[j] == KEYS[j].code;
    assert forall j :: 0 <= j < 16 && j != i ==> KEYS[j].code != KEYS[i].code;
    FirstPlace(KEYS[i].code as int, i, 16);
  }

  lemma {:induction false} FirstPlace(d: Queue.Byte, i: int, n: nat)
    requires 0 <= i < n <= 16 && POSITIONS[i] as int == d
    requires forall j :: 0 <= j < 16 && j != i ==> POSITIONS[j] as int != d
    ensures PositionOf(d, n) == i
  {
    if n - 1 > i { FirstPlace(d, i, n - 1); }
  }

  lemma TonesOfKey(u: Setup, i: int)
    requires 0 <= i < 16
    ensures TonesOf(u, i) ==
            [Tone(StepsOf(KEYS[i].low), u.low), Tone(StepsOf(KEYS[i].high), u.high), Tone(0, 0.0), Tone(0, 0.0)]
  {
    assert ROW_FREQUENCIES[i / 4] == KEYS[i].low && COL_FREQUENCIES[i % 4] == KEYS[i].high;
  }

  // ---------------------------------------------------------------------------------------
  // The stream of a digit string

  /** The generator and the digits waiting. */
  datatype Line = Line(gen: Gen, digits: seq<Queue.Byte>)

  /** The next digit is taken off the queue; what is not a digit is dropped. */
  function Loaded(u: Setup, s: Line): (r: Line)
    requires IsShape(s.gen) && s.digits != []
    ensures IsShape(r.gen) && r.digits == s.digits[1..]
  {
    var i := PositionOf(s.digits[0], 16);
    Line(if i >= 0 then DigitGen(u, i) else s.gen, s.digits[1..])
  }

  /** At most n samples of what is being sent and of the digits waiting. */
  function Sent(u: Setup, y: Synth, s: Line, n: nat): (r: (seq<int>, Line))
    requires IsShape(s.gen)
    ensures IsShape(r.1.gen) && |r.0| <= n
    decreases |s.digits|, if s.gen.section >= 0 then 1 else 0
  {
    if n == 0 then ([], s)
    else if s.gen.section >= 0 then
      var (out, g) := Stream(y, s.gen, n);
      if |out| == n then (out, Line(g, s.digits))
      else
        var (rest, last) := Sent(u, y, Line(g, s.digits), n - |out|);
        (out + rest, last)
    else if s.digits == [] then ([], s)
    else Sent(u, y, Loaded(u, s), n)
  }

  /** The k-th sample of a key: the rounded sum of two tones from phase zero for the on time, then zero. */
  function KeySampleAt(u: Setup, y: Synth, key: Key, k: int): int {
    if k < u.onTime then y.round(ToneAt(y, StepsOf(key.low), u.low, k) + ToneAt(y, StepsOf(key.high), u.high, k))
    else 0
  }

  /** The samples of a key, for the on time and the off time. */
  ghost predicate IsSoundOf(u: Setup, y: Synth, key: Key, out: seq<int>) {
    |out| == u.onTime + u.offTime && forall k :: 0 <= k < |out| ==> out[k] == KeySampleAt(u, y, key, k)
  }

  /** A key put on an idle line sounds for its on time at its row and column frequencies, pauses, and that is all. */
  lemma KeySounds(u: Setup, y: Synth, g: Gen, key: Key, more: nat)
    requires key in KEYS && IsShape(g) && g.section < 0 && 0 < u.onTime + u.offTime
    ensures var (out, last) := Sent(u, y, Line(g, [key.code as int]), u.onTime + u.offTime + more);
            IsSoundOf(u, y, key, out) && last.digits == [] && last.gen.section < 0
  {
    var i, n := PositionOf(key.code as int, 16), u.onTime + u.offTime;
    KeyIsSent(u, key);
    KeySamples(u, y, i, key);
    KeyLoaded(u, y, g, key.code as int, i, n + more);
    SentAlone(u, y, DigitGen(u, i), n, more);
  }

  lemma KeySamples(u: Setup, y: Synth, i: int, key: Key)
    requires key in KEYS && 0 <= i < 16 && 0 < u.onTime + u.offTime
    requires DigitGen(u, i).voice.tones ==
             [Tone(StepsOf(key.low), u.low), Tone(StepsOf(key.high), u.high), Tone(0, 0.0), Tone(0, 0.0)]
    ensures var (out, last) := Stream(y, DigitGen(u, i), u.onTime + u.offTime);
            IsSoundOf(u, y, key, out) && last.section < 0
  {
    var g := DigitGen(u, i);
    SoundThenSilence(y, g, u.onTime, u.offTime, 0);
    KeyRates(key);
    forall k: nat | k < u.onTime + u.offTime
      ensures Stream(y, g, u.onTime + u.offTime).0[k] == KeySampleAt(u, y, key, k)
    {
      SoundThenSilence(y, g, u.onTime, u.offTime, k);
      if k < u.onTime { TwoTones(y, g.voice, StepsOf(key.low), u.low, StepsOf(key.high), u.high, k); }
    }
  }

  lemma KeyRates(key: Key)
    requires key in KEYS
    ensures StepsOf(key.low) > 0 && StepsOf(key.high) > 0
  {
    var i :| 0 <= i < 16 && KEYS[i] == key;
    assert key.low > 0 && key.high > 0;
  }

  lemma KeyLoaded(u: Setup, y: Synth, g: Gen, code: Queue.Byte, i: int, n: nat)
    requires IsShape(g) && g.section < 0 && n > 0 && 0 <= i < 16 && PositionOf(code, 16) == i
    ensures Sent(u, y, Line(g, [code]), n) == Sent(u, y, Line(DigitGen(u, i), []), n)
  {
    assert Loaded(u, Line(g, [code])) == Line(DigitGen(u, i), []);
  }

  lemma SentAlone(u: Setup, y: Synth, g: Gen, n: nat, more: nat)
    requires IsShape(g) && g.section >= 0 && n > 0 && |Stream(y, g, n).0| == n && Stream(y, g, n).1.section < 0
    ensures var (out, last) := Stream(y, g, n); Sent(u, y, Line(g, []), n + more) == (out, Line(last, []))
  {
    var (out, last) := Stream(y, g, n);
    StreamInChunks(y, g, n, more);
    assert Stream(y, last, more) == ([], last);
    assert out + [] == out && Stream(y, g, n + more) == (out, last);
  }

  predicate SentJoins(u: Setup, y: Synth, s: Line, m: nat, n: nat)
    requires IsShape(s.gen)
  {
    var (first, t) := Sent(u, y, s, m);
    var (second, last) := Sent(u, y, t, n);
    Sent(u, y, s, m + n) == (first + second, last)
  }

  /** Any division of a request over a queued digit string yields the same samples. */
  lemma {:induction false} SentInChunks(u: Setup, y: Synth, s: Line, m: nat, n: nat)
    requires IsShape(s.gen)
    ensures SentJoins(u, y, s, m, n)
    decreases |s.digits|, if s.gen.section >= 0 then 1 else 0
  {
    if m == 0 {
      assert [] + Sent(u, y, s, n).0 == Sent(u, y, s, n).0;
    } else if n == 0 {
      assert Sent(u, y, s, m).0 + [] == Sent(u, y, s, m).0;
    } else if s.gen.section < 0 {
      if s.digits != [] { SentInChunks(u, y, Loaded(u, s), m, n); }
    } else {
      var (out, g) := Stream(y, s.gen, m);
      StreamInChunks(y, s.gen, m, n);
      if |out| == m {
        FragmentGoesOn(u, y, s, m, n);
      } else {
        assert Stream(y, g, n) == ([], g);
        assert out + [] == out;
        SentInChunks(u, y, Line(g, s.digits), m - |out|, n);
        var (mid, t) := Sent(u, y, Line(g, s.digits), m - |out|);
        assert out + (mid + Sent(u, y, t, n).0) == (out + mid) + Sent(u, y, t, n).0;
      }
    }
  }

  /** Samples put before what is sent. */
  function After(out: seq<int>, s: (seq<int>, Line)): (seq<int>, Line) { (out + s.0, s.1) }

  /** What one call of the generator contributes, if a digit is being sent. */
  function Fragment(y: Synth, s: Line, n: nat): (r: (seq<int>, Line))
    requires IsShape(s.gen)
    ensures IsShape(r.1.gen) && |r.0| <= n && (|r.0| < n ==> r.1.gen.section < 0)
  {
    if s.gen.section >= 0 then
      var (out, g) := Stream(y, s.gen, n); (out, Line(g, s.digits))
    else ([], s)
  }

  lemma FragmentFirst(u: Setup, y: Synth, s: Line, n: nat)
    requires IsShape(s.gen)
    ensures var (out, t) := Fragment(y, s, n); Sent(u, y, s, n) == After(out, Sent(u, y, t, n - |out|))
  {
    var (out, t) := Fragment(y, s, n);
    assert out + [] == out;
    assert [] + Sent(u, y, s, n).0 == Sent(u, y, s, n).0;
  }

  /** The first request ends within a digit, or with it. */
  lemma FragmentGoesOn(u: Setup, y: Synth, s: Line, m: nat, n: nat)
    requires IsShape(s.gen) && s.gen.section >= 0 && m > 0 && n > 0 && |Stream(y, s.gen, m).0| == m
    requires Joins(y, s.gen, m, n)
    ensures SentJoins(u, y, s, m, n)
  {
    var (first, t) := Fragment(y, s, m);
    var (second, last) := Fragment(y, t, n);
    FragmentJoins(y, s, m, n);
    FragmentFirst(u, y, s, m);
    FragmentFirst(u, y, t, n);
    FragmentFirst(u, y, s, m + n);
    AfterJoins(first, second, Sent(u, y, last, n - |second|));
    assert first + [] == first;
  }

  lemma FragmentJoins(y: Synth, s: Line, m: nat, n: nat)
    requires IsShape(s.gen) && s.gen.section >= 0 && n > 0 && Joins(y, s.gen, m, n)
    ensures var (first, t) := Fragment(y, s, m);
            var (second, last) := Fragment(y, t, n);
            Fragment(y, s, m + n) == (first + second, last)
  {
  }

  lemma AfterJoins(first: seq<int>, second: seq<int>, r: (seq<int>, Line))
    ensures After(first + second, r) == (first + After(second, r).0, After(second, r).1)
  {
    assert first + second + r.0 == first + (second + r.0);
  }

  // ---------------------------------------------------------------------------------------
  // Digits that become known one by one

  lemma {:induction false} ShortWhenDone(u: Setup, y: Synth, s: Line, n: nat)
    requires IsShape(s.gen)
    ensures var (out, last) := Sent(u, y, s, n); |out| < n ==> last.gen.section < 0 && last.digits == []
    decreases |s.digits|, if s.gen.section >= 0 then 1 else 0
  {
    if n > 0 && s.gen.section >= 0 {
      var (out, g) := Stream(y, s.gen, n);
      if |out| < n { ShortWhenDone(u, y, Line(g, s.digits), n - |out|); }
    } else if n > 0 && s.digits != [] {
      ShortWhenDone(u, y, Loaded(u, s), n);
    }
  }

  lemma FragmentIsAll(u: Setup, y: Synth, g: Gen, n: nat)
    requires IsShape(g)
    ensures Sent(u, y, Line(g, []), n) == Fragment(y, Line(g, []), n)
  {
    var (out, t) := Fragment(y, Line(g, []), n);
    assert out + [] == out;
  }

  predicate MoreBehind(u: Setup, y: Synth, s: Line, more: seq<Queue.Byte>, n: nat)
    requires IsShape(s.gen)
  {
    var (out, last) := Sent(u, y, s, n);
    Sent(u, y, Line(s.gen, s.digits + more), n) == After(out, Sent(u, y, Line(last.gen, more), n - |out|))
  }

  /** Once all of some digits have been taken, the samples of more digits come behind theirs. */
  lemma {:induction false} MoreDigits(u: Setup, y: Synth, s: Line, more: seq<Queue.Byte>, n: nat)
    requires IsShape(s.gen) && Sent(u, y, s, n).1.digits == []
    ensures MoreBehind(u, y, s, more, n)
    decreases |s.digits|, if s.gen.section >= 0 then 1 else 0
  {
    if n == 0 {
      NoDigitsBefore(u, y, s, more, n);
    } else if s.gen.section >= 0 {
      var (first, g) := Stream(y, s.gen, n);
      if |first| < n { MoreDigits(u, y, Line(g, s.digits), more, n - |first|); }
      MoreBehindFragment(u, y, s, more, n);
    } else if s.digits == [] {
      NoDigitsBefore(u, y, s, more, n);
    } else {
      assert MoreBehind(u, y, Loaded(u, s), more, n) by { MoreDigits(u, y, Loaded(u, s), more, n); }
      MoreBehindLoaded(u, y, s, more, n);
    }
  }

  // ---------------------------------------------------------------------------------------
  // Strings of keys

  predicate AreKeys(keys: seq<Key>)
    decreases |keys|
  {
    keys != [] ==> keys[0] in KEYS && AreKeys(keys[1..])
  }

  function Codes(keys: seq<Key>): seq<Queue.Byte>
    requires AreKeys(keys)
    decreases |keys|
  {
    if keys == [] then [] else [CodeOf(keys[0])] + Codes(keys[1..])
  }

  function CodeOf(key: Key): Queue.Byte
    requires key in KEYS
  {
    key.code as int
  }

  /** The sounds of the keys, one behind the other. */
  ghost predicate SoundInTurn(u: Setup, y: Synth, keys: seq<Key>, out: seq<int>)
    decreases |keys|
  {
    var n := u.onTime + u.offTime;
    if keys == [] then out == []
    else n <= |out| && IsSoundOf(u, y, keys[0], out[..n]) && SoundInTurn(u, y, keys[1..], out[n..])
  }

  /** The samples some keys take. */
  function LengthOf(u: Setup, keys: seq<Key>): nat
    decreases |keys|
  {
    if keys == [] then 0 else u.onTime + u.offTime + LengthOf(u, keys[1..])
  }

  /** All keys of a string have been sent, each as it would sound alone, and the line is idle. */
  ghost predicate SentInTurn(u: Setup, y: Synth, keys: seq<Key>, r: (seq<int>, Line)) {
    SoundInTurn(u, y, keys, r.0) && r.1.digits == [] && r.1.gen.section < 0
  }

  /** Keys put on an idle line sound one after the other, each as it would alone. */
  lemma {:induction false} KeysSoundInTurn(u: Setup, y: Synth, g: Gen, keys: seq<Key>, more: nat)
    requires IsShape(g) && g.section < 0 && 0 < u.onTime + u.offTime
    requires AreKeys(keys)
    ensures SentInTurn(u, y, keys, Sent(u, y, Line(g, Codes(keys)), LengthOf(u, keys) + more))
    decreases |keys|
  {
    if keys == [] {
      NothingSounds(u, y, g, more);
    } else {
      var left := LengthOf(u, keys[1..]) + more;
      var next := KeyBeforeOthers(u, y, g, keys, left);
      KeysSoundInTurn(u, y, next, keys[1..], more);
    }
  }

  lemma KeyBeforeOthers(u: Setup, y: Synth, g: Gen, keys: seq<Key>, left: nat) returns (next: Gen)
    requires IsShape(g) && g.section < 0 && 0 < u.onTime + u.offTime && AreKeys(keys) && keys != []
    ensures IsShape(next) && next.section < 0
    ensures SentInTurn(u, y, keys[1..], Sent(u, y, Line(next, Codes(keys[1..])), left)) ==>
              SentInTurn(u, y, keys, Sent(u, y, Line(g, Codes(keys)), u.onTime + u.offTime + left))
  {
    var out;
    out, next := FirstKeySounds(u, y, g, keys[0], Codes(keys[1..]), left);
    if SentInTurn(u, y, keys[1..], Sent(u, y, Line(next, Codes(keys[1..])), left)) {
      KeyThenOthers(u, y, g, keys, Codes(keys[1..]), left, out, next);
    }
  }

  lemma KeyThenOthers(u: Setup, y: Synth, g: Gen, keys: seq<Key>, rest: seq<Queue.Byte>, left: nat, out: seq<int>,
                      next: Gen)
    requires IsShape(g) && IsShape(next) && AreKeys(keys) && keys != [] && rest == Codes(keys[1..])
    requires IsSoundOf(u, y, keys[0], out) && SentInTurn(u, y, keys[1..], Sent(u, y, Line(next, rest), left))
    requires Sent(u, y, Line(g, [CodeOf(keys[0])] + rest), u.onTime + u.offTime + left) ==
             After(out, Sent(u, y, Line(next, rest), left))
    ensures SentInTurn(u, y, keys, Sent(u, y, Line(g, Codes(keys)), u.onTime + u.offTime + left))
  {
    CodesFirst(keys);
    KeyBefore(u, y, keys, Sent(u, y, Line(g, Codes(keys)), u.onTime + u.offTime + left), out,
              Sent(u, y, Line(next, rest), left));
  }

  lemma NothingSounds(u: Setup, y: Synth, g: Gen, more: nat)
    requires IsShape(g) && g.section < 0
    ensures SentInTurn(u, y, [], Sent(u, y, Line(g, []), more))
  {
  }

  lemma CodesFirst(keys: seq<Key>)
    requires keys != [] && AreKeys(keys)
    ensures AreKeys(keys[1..]) && Codes(keys) == [CodeOf(keys[0])] + Codes(keys[1..])
  {
  }

  lemma KeyBefore(u: Setup, y: Synth, keys: seq<Key>, all: (seq<int>, Line), out: seq<int>, tail: (seq<int>, Line))
    requires keys != [] && IsSoundOf(u, y, keys[0], out) && SentInTurn(u, y, keys[1..], tail)
    requires all == After(out, tail)
    ensures SentInTurn(u, y, keys, all)
  {
    FirstInTurn(u, y, keys, out, tail.0);
  }

  lemma FirstKeySounds(u: Setup, y: Synth, g: Gen, key: Key, rest: seq<Queue.Byte>, left: nat)
    returns (out: seq<int>, next: Gen)
    requires key in KEYS && IsShape(g) && g.section < 0 && 0 < u.onTime + u.offTime
    ensures IsSoundOf(u, y, key, out) && IsShape(next) && next.section < 0
    ensures Sent(u, y, Line(g, [CodeOf(key)] + rest), u.onTime + u.offTime + left) ==
            After(out, Sent(u, y, Line(next, rest), left))
  {
    var n := u.onTime + u.offTime;
    KeySounds(u, y, g, key, left);
    var (sound, last) := Sent(u, y, Line(g, [CodeOf(key)]), n + left);
    out, next := sound, last.gen;
    MoreDigits(u, y, Line(g, [CodeOf(key)]), rest, n + left);
  }

  lemma FirstInTurn(u: Setup, y: Synth, keys: seq<Key>, out: seq<int>, others: seq<int>)
    requires keys != [] && IsSoundOf(u, y, keys[0], out) && SoundInTurn(u, y, keys[1..], others)
    ensures SoundInTurn(u, y, keys, out + others)
  {
    assert (out + others)[..u.onTime + u.offTime] == out && (out + others)[u.onTime + u.offTime..] == others;
  }

  lemma MoreBehindLoaded(u: Setup, y: Synth, s: Line, more: seq<Queue.Byte>, n: nat)
    requires IsShape(s.gen) && n > 0 && s.gen.section < 0 && s.digits != [] && MoreBehind(u, y, Loaded(u, s), more, n)
    ensures MoreBehind(u, y, s, more, n)
  {
    assert (s.digits + more)[0] == s.digits[0] && (s.digits + more)[1..] == s.digits[1..] + more;
  }

  lemma NoDigitsBefore(u: Setup, y: Synth, s: Line, more: seq<Queue.Byte>, n: nat)
    requires IsShape(s.gen) && s.digits == [] && (n == 0 || s.gen.section < 0)
    ensures MoreBehind(u, y, s, more, n)
  {
    assert s.digits + more == more;
    NothingBefore(Sent(u, y, Line(s.gen, more), n));
  }

  lemma MoreBehindFragment(u: Setup, y: Synth, s: Line, more: seq<Queue.Byte>, n: nat)
    requires IsShape(s.gen) && n > 0 && s.gen.section >= 0 && Sent(u, y, s, n).1.digits == []
    requires var (first, g) := Stream(y, s.gen, n); |first| < n ==>
        MoreBehind(u, y, Line(g, s.digits), more, n - |first|)
    ensures MoreBehind(u, y, s, more, n)
  {
    var (first, g) := Stream(y, s.gen, n);
    if |first| == n {
      assert s.digits + more == more;
      assert first + [] == first;
    } else {
      var (second, end) := Sent(u, y, Line(g, s.digits), n - |first|);
      assert Sent(u, y, s, n) == (first + second, end);
      AfterBoth(first, second, Sent(u, y, Line(end.gen, more), n - |first| - |second|));
      FragmentFirst(u, y, Line(s.gen, s.digits + more), n);
    }
  }

  /** The digits taken so far have been sent: samples of them fill the first len places of the buffer. */
  ghost predicate SentSoFar(u: Setup, y: Synth, start: seq<int>, g: Gen, read: seq<Queue.Byte>, max: nat,
                            buffer: seq<int>, len: nat, now: Gen)
    requires IsShape(g)
  {
    var (out, last) := Sent(u, y, Line(g, read), max);
    last == Line(now, []) && len == |out| && buffer == Written(start, 0, out)
  }

  lemma FirstFragment(u: Setup, y: Synth, start: seq<int>, g: Gen, max: nat)
    requires IsShape(g) && max <= |start|
    ensures var (out, t) := Fragment(y, Line(g, []), max);
            SentSoFar(u, y, start, g, [], max, Written(start, 0, out), |out|, t.gen)
  {
    FragmentIsAll(u, y, g, max);
  }

  /** One more digit: what it makes the generator do is written behind the samples so far. */
  lemma NextDigit(u: Setup, y: Synth, start: seq<int>, g: Gen, read: seq<Queue.Byte>, max: nat, buffer: seq<int>,
                  len: nat,
                  now: Gen, d: Queue.Byte)
    requires IsShape(g) && SentSoFar(u, y, start, g, read, max, buffer, len, now) && len < max <= |start|
    ensures IsShape(now) && now.section < 0
    ensures var next := Loaded(u, Line(now, [d])).gen;
            var (more, t) := Fragment(y, Line(next, []), max - len);
            SentSoFar(u, y, start, g, read + [d], max, Written(buffer, len, more), len + |more|, t.gen)
  {
    var (out, last) := Sent(u, y, Line(g, read), max);
    ShortWhenDone(u, y, Line(g, read), max);
    MoreDigits(u, y, Line(g, read), [d], max);
    var next := Loaded(u, Line(now, [d])).gen;
    assert Loaded(u, Line(now, [d])) == Line(next, []);
    FragmentIsAll(u, y, next, max - len);
    MoreWritten(start, 0, out, Fragment(y, Line(next, []), max - len).0);
  }

  lemma NextSounds(u: Setup, y: Synth, now: Gen, d: Queue.Byte, room: nat)
    requires IsShape(now) && room > 0
    ensures IsCode(d) && u.onTime + u.offTime > 0 ==>
              |Fragment(y, Line(Loaded(u, Line(now, [d])).gen, []), room).0| > 0
  {
    if IsCode(d) && u.onTime + u.offTime > 0 { DigitSounds(u, y, PositionOf(d, 16), room); }
  }

  // ---------------------------------------------------------------------------------------
  // A buffer sent round and round

  /** The bytes n reads of single bytes take from a writer that rests past the end. */
  function Around(data: seq<Queue.Byte>, p: int, n: nat): (bytes: seq<Queue.Byte>)
    requires 0 <= p < |data|
    ensures |bytes| == n
  {
    if n == 0 then [] else Around(data, p, n - 1) + [data[PointerAfter(p, n - 1, |data|)]]
  }

  function PointerAfter(p: int, n: nat, size: int): (q: int)
    requires 0 <= p < size
    ensures 0 <= q < size && q == Queue.SteppedBy(p, n, size)
  {
    if n == 0 then p else Queue.Stepped(PointerAfter(p, n - 1, size), size)
  }

  predicate IsCode(d: Queue.Byte) { PositionOf(d, 16) >= 0 }

  /** Sending the buffer round and round makes samples: some byte in it is a digit, and digits are not of no length. */
  predicate Resends(u: Setup, data: seq<Queue.Byte>) {
    u.onTime + u.offTime > 0 && exists i :: 0 <= i < |data| && IsCode(data[i])
  }

  /** The number of reads, up to a limit, before the next digit. */
  function ToDigit(data: seq<Queue.Byte>, p: int, limit: nat): (n: nat)
    requires 0 <= p < |data|
    ensures n <= limit
    decreases limit
  {
    if limit == 0 || IsCode(data[p]) then 0 else 1 + ToDigit(data, Queue.Stepped(p, |data|), limit - 1)
  }

  lemma {:induction false} WithinLimit(data: seq<Queue.Byte>, p: int, limit: nat)
    requires 0 <= p < |data| && ToDigit(data, p, limit) < limit
    ensures ToDigit(data, p, limit + 1) == ToDigit(data, p, limit)
    decreases limit
  {
    if !IsCode(data[p]) { WithinLimit(data, Queue.Stepped(p, |data|), limit - 1); }
  }

  /** A digit that is some reads away is found within as many. */
  lemma {:induction false} DigitFound(data: seq<Queue.Byte>, p: int, away: nat, limit: nat)
    requires 0 <= p < |data| && away < limit && IsCode(data[PointerAfter(p, away, |data|)])
    ensures ToDigit(data, p, limit) <= away
    decreases away
  {
    if !IsCode(data[p]) {
      SteppedFirst(p, away, |data|);
      DigitFound(data, Queue.Stepped(p, |data|), away - 1, limit - 1);
    }
  }

  lemma {:induction false} SteppedFirst(p: int, n: nat, size: int)
    requires 0 <= p < size && n > 0
    ensures PointerAfter(Queue.Stepped(p, size), n - 1, size) == PointerAfter(p, n, size)
  {
    if n > 1 { SteppedFirst(p, n - 1, size); }
  }

  lemma {:induction false} PointerMoves(p: int, n: nat, size: int)
    requires 0 <= p < size && n <= size
    ensures PointerAfter(p, n, size) == if p + n < size then p + n else p + n - size
  {
    if n > 0 { PointerMoves(p, n - 1, size); }
  }

  /** Reading a byte that is no digit brings the next digit closer. */
  lemma DigitComesCloser(data: seq<Queue.Byte>, p: int)
    requires 0 <= p < |data| && !IsCode(data[p]) && exists i :: 0 <= i < |data| && IsCode(data[i])
    ensures ToDigit(data, Queue.Stepped(p, |data|), |data|) < ToDigit(data, p, |data|)
  {
    var size, q := |data|, Queue.Stepped(p, |data|);
    var i :| 0 <= i < size && IsCode(data[i]);
    assert i != p;
    var away := if i >= q then i - q else i - q + size;
    PointerMoves(q, away, size);
    DigitFound(data, q, away, size - 1);
    WithinLimit(data, q, size - 1);
  }

  /** A digit makes at least one sample. */
  lemma DigitSounds(u: Setup, y: Synth, index: int, n: nat)
    requires 0 <= index < 16 && u.onTime + u.offTime > 0 && n > 0
    ensures |Fragment(y, Line(DigitGen(u, index), []), n).0| > 0
  {
    var g := DigitGen(u, index);
    assert Settled(g).section >= 0;
    StreamStep(y, g, n);
  }

  /** A buffer that does not make samples never does, however often it is sent: openr2_dtmf_tx does not return. */
  lemma {:induction false} NothingToResend(u: Setup, y: Synth, g: Gen, data: seq<Queue.Byte>, p: int, n: nat, max: nat)
    requires IsShape(g) && g.section < 0 && 0 <= p < |data| && !Resends(u, data)
    ensures Sent(u, y, Line(g, Around(data, p, n)), max).0 == []
    decreases n
  {
    NoSamples(u, y, g, Around(data, p, n), data, p, max);
  }

  lemma {:induction false} NoSamples(u: Setup, y: Synth, g: Gen, bytes: seq<Queue.Byte>, data: seq<Queue.Byte>, p: int,
                                     max: nat)
    requires IsShape(g) && g.section < 0 && 0 <= p < |data| && !Resends(u, data) && bytes == Around(data, p, |bytes|)
    ensures Sent(u, y, Line(g, bytes), max).0 == []
    decreases |bytes|
  {
    if bytes != [] && max > 0 {
      var next := Loaded(u, Line(g, bytes)).gen;
      AroundFirst(data, p, |bytes|);
      if IsCode(bytes[0]) { SilentDigit(u, y, PositionOf(bytes[0], 16), max); }
      var (out, h) := if next.section >= 0 then Stream(y, next, max) else ([], next);
      assert out == [] && h.section < 0 && IsShape(h);
      NoSamples(u, y, h, bytes[1..], data, Queue.Stepped(p, |data|), max);
      assert [] + Sent(u, y, Line(h, bytes[1..]), max).0 == [];
    }
  }

  lemma SilentDigit(u: Setup, y: Synth, index: int, n: nat)
    requires 0 <= index < 16 && u.onTime + u.offTime == 0 && n > 0
    ensures var (out, h) := Stream(y, DigitGen(u, index), n); out == [] && h.section < 0
  {
    assert Settled(DigitGen(u, index)).section < 0;
  }

  lemma {:induction false} AroundFirst(data: seq<Queue.Byte>, p: int, n: nat)
    requires 0 <= p < |data| && n > 0
    ensures Around(data, p, n)[0] == data[p]
    ensures Around(data, p, n)[1..] == Around(data, Queue.Stepped(p, |data|), n - 1)
  {
    if n > 1 {
      AroundFirst(data, p, n - 1);
      SteppedFirst(p, n - 1, |data|);
    }
  }

  // ---------------------------------------------------------------------------------------
  // The transmitter

  class Sender {
    const queue: Queue.RingQueue
    const tones: Generator
    var setup: Setup

    ghost predicate Valid()
      reads this, queue, queue.data, tones
    {
      queue.Usable() && queue.optr < queue.data.Length && queue.writeAtomic && tones.Valid() && !tones.repeated
    }

    /** The writer of the queue does not rest past the end, where single bytes cannot be told from none. */
    ghost predicate Readable()
      reads this, queue
    {
      queue.iptr < queue.data.Length
    }

    ghost function State(): Line
      reads this, queue, queue.data, tones
      requires Valid() && Readable()
    {
      Line(tones.State(), queue.Contents())
    }

    /** openr2_dtmf_tx_init, with the levels and times of set_level and set_timing. */
    constructor (synth: Synth, setup: Setup)
      ensures Valid() && Readable() && fresh(queue) && fresh(queue.data) && fresh(tones)
      ensures this.setup == setup && tones.synth == synth && State().gen.section < 0 && State().digits == []
      ensures queue.data.Length == 129 && queue.iptr == 0 && queue.optr == 0
    {
      queue := new Queue.RingQueue(128, true, true, false);
      tones := new Generator(synth);
      this.setup := setup;
    }

    /**
     openr2_dtmf_tx_put: the number of digits for which there is no room, or zero and all are queued. The writer comes
     to rest past the end of the buffer when the digits end exactly there. Behind a reader that has come round on it
     the free space is -1, which counts as plenty until the queue refuses.
     */
    method Put(digits: array<Queue.Byte>, len: nat) returns (left: int)
      requires Valid() && digits != queue.data && len <= digits.Length
      modifies queue`iptr, queue.data
      ensures Valid() && queue.Valid() == old(queue.Valid())
      ensures queue.Valid() ==>
                var room := queue.data.Length - 1 - |old(queue.Contents())|;
                && left == (if room < len then len - room else 0)
                && queue.Contents() == if left == 0 then old(queue.Contents()) + digits[..][..len]
                    else old(queue.Contents())
      ensures !queue.Valid() ==> left == -1
      ensures Readable() <==> if left == 0 && len > 0 then old(queue.iptr) + len != queue.data.Length
          else old(Readable())
    {
      var space := queue.FreeSpace();
      if 0 <= space < len {
        return len - space;
      }
      var put := queue.Write(digits, len);
      return if put >= 0 then 0 else -1;
    }

    /** strchr over the positions. */
    method Find(d: Queue.Byte) returns (index: int)
      ensures index == PositionOf(d, 16)
    {
      index := -1;
      for i := 0 to 16
        invariant index == PositionOf(d, i)
      {
        if index < 0 && POSITIONS[i] as int == d {
          index := i;
        }
      }
    }

    /** Starts the next digit, if the byte is one. */
    method Start(d: Queue.Byte)
      requires tones.Valid() && !tones.repeated
      modifies tones
      ensures tones.Valid() && !tones.repeated
      ensures tones.State() == Loaded(setup, Line(old(tones.State()), [d])).gen
    {
      var index := Find(d);
      if index >= 0 {
        tones.Load(TonesOf(setup, index), [setup.onTime, setup.offTime, 0, 0], false);
      }
    }

    /** As much of the digit being sent as there is room for. */
    method SendFragment(amp: array<int>, len: nat, room: nat) returns (made: nat)
      requires tones.Valid() && !tones.repeated && len + room <= amp.Length
      modifies tones, amp
      ensures tones.Valid() && !tones.repeated
      ensures var (out, t) := Fragment(tones.synth, Line(old(tones.State()), []), room);
              tones.State() == t.gen && made == |out| && amp[..] == Written(old(amp[..]), len, out)
    {
      made := 0;
      if tones.section >= 0 {
        made := tones.Generate(amp, len, room);
      } else {
        NothingWritten(amp[..], len);
      }
    }

    /** Starts a digit taken off the queue and sends as much of it as there is room for. */
    method SendDigit(d: Queue.Byte, amp: array<int>, len: nat, max: nat, ghost start: seq<int>, ghost g: Gen,
                     ghost read: seq<Queue.Byte>) returns (len': nat)
      requires tones.Valid() && !tones.repeated && len < max <= amp.Length == |start| && IsShape(g)
      requires SentSoFar(setup, tones.synth, start, g, read, max, amp[..], len, tones.State())
      modifies tones, amp
      ensures tones.Valid() && !tones.repeated && len <= len' <= max
      ensures SentSoFar(setup, tones.synth, start, g, read + [d], max, amp[..], len', tones.State())
      ensures IsCode(d) && setup.onTime + setup.offTime > 0 ==> len' > len
    {
      ghost var was, now := amp[..], tones.State();
      NextDigit(setup, tones.synth, start, g, read, max, was, len, now, d);
      NextSounds(setup, tones.synth, now, d, max - len);
      Start(d);
      var made := SendFragment(amp, len, max - len);
      len' := len + made;
    }

    /** How far the reader has to go: to the end of the queue, or to the next digit on its way round. */
    ghost function Ahead(): nat
      reads this, queue, queue.data
      requires queue.Usable() && queue.optr < queue.data.Length
    {
      if Readable() then |queue.Contents()| else ToDigit(queue.data[..], queue.optr, queue.data.Length)
    }

    /** What a queue that held the digits, or was read from place p in the buffer, is when bytes have been read. */
    ghost predicate HasRead(readable: bool, digits: seq<Queue.Byte>, p: int, read: seq<Queue.Byte>)
      reads this, queue, queue.data
    {
      && queue.Usable() && queue.optr < queue.data.Length && Readable() == readable
      && if readable then digits == read + queue.Contents()
         else 0 <= p < queue.data.Length && queue.optr == PointerAfter(p, |read|, queue.data.Length) &&
              read == Around(queue.data[..], p, |read|)
    }

    /** The next byte, as long as there is one. */
    method NextByte(ghost readable: bool, ghost digits: seq<Queue.Byte>, ghost p: int, ghost read: seq<Queue.Byte>)
      returns (d: int)
      requires HasRead(readable, digits, p, read)
      requires !readable ==> exists i :: 0 <= i < queue.data.Length && IsCode(queue.data[i])
      modifies queue`optr
      ensures d < 0 ==> readable && read == digits && HasRead(readable, digits, p, read)
      ensures d >= 0 ==> d < 256 && HasRead(readable, digits, p, read + [d])
      ensures d >= 0 && (readable || !IsCode(d)) ==> Ahead() < old(Ahead())
    {
      ghost var data, at := queue.data[..], queue.optr;
      d := queue.ReadByte();
      if !readable {
        assert Around(data, p, |read| + 1) == read + [d];
        if !IsCode(data[at]) { DigitComesCloser(data, at); }
      } else if d >= 0 {
        assert read + ([d] + queue.Contents()) == read + [d] + queue.Contents();
      }
    }

    /**
     openr2_dtmf_tx: at most max samples. From a queue that can be read these are the next samples of the digits, fewer
     only when all have been sent. From a writer that rests past the end the buffer is sent round and round, and the
     digits never run out; with nothing in it that makes a sample the call does not return.
     */
    method Tx(amp: array<int>, max: nat) returns (len: nat, ghost read: seq<Queue.Byte>)
      requires Valid() && max <= amp.Length
      requires
        Readable() || Resends(setup, queue.data[..]) ||
        |Fragment(tones.synth, Line(tones.State(), []), max).0| == max
      modifies tones, queue`optr, amp
      ensures Valid() && Readable() == old(Readable())
      ensures old(Readable()) ==>
                var (out, last) := Sent(setup, tones.synth, old(State()), max);
                len == |out| && State() == last && amp[..] == Written(old(amp[..]), 0, out)
      ensures !old(Readable()) ==>
                && len == max
                && read == Around(queue.data[..], old(queue.optr), |read|)
                && queue.optr == PointerAfter(old(queue.optr), |read|, queue.data.Length)
                && SentSoFar(setup, tones.synth, old(amp[..]), old(tones.State()), read, max, amp[..], len,
                    tones.State())
    {
      ghost var start, g, readable, p := amp[..], tones.State(), Readable(), queue.optr;
      ghost var digits := if readable then queue.Contents() else [];
      FirstFragment(setup, tones.synth, start, g, max);
      len := SendFragment(amp, 0, max);
      len, read := SendDigits(amp, len, max, start, g, readable, digits, p);
      if readable {
        AllSent(setup, tones.synth, start, g, read, queue.Contents(), max, amp[..], len, tones.State());
      }
    }

    /** The loop over the digits, until there is no more room or no more digits. */
    method SendDigits(amp: array<int>, made: nat, max: nat, ghost start: seq<int>, ghost g: Gen,
                      ghost readable: bool, ghost digits: seq<Queue.Byte>, ghost p: int)
      returns (len: nat, ghost read: seq<Queue.Byte>)
      requires Valid() && made <= max <= amp.Length == |start| && IsShape(g) && HasRead(readable, digits, p, [])
      requires SentSoFar(setup, tones.synth, start, g, [], max, amp[..], made, tones.State())
      requires made == max || readable || Resends(setup, queue.data[..])
      modifies tones, queue`optr, amp
      ensures Valid() && len <= max && HasRead(readable, digits, p, read)
      ensures SentSoFar(setup, tones.synth, start, g, read, max, amp[..], len, tones.State())
      ensures len == max || (readable && read == digits)
    {
      len, read := made, [];
      var more := true;
      while len < max && more
        invariant Valid() && len <= max && HasRead(readable, digits, p, read)
        invariant SentSoFar(setup, tones.synth, start, g, read, max, amp[..], len, tones.State())
        invariant more || (readable && read == digits)
        decreases max - len, Ahead(), more
      {
        var d := NextByte(readable, digits, p, read);
        more := d >= 0;
        if more {
          len := SendDigit(d, amp, len, max, start, g, read);
          read := read + [d];
        }
      }
    }
  }

  /** The loop ends when there is no more room, or no more digits. */
  lemma AllSent(u: Setup, y: Synth, start: seq<int>, g: Gen, read: seq<Queue.Byte>, rest: seq<Queue.Byte>, max: nat,
                buffer: seq<int>, len: nat, now: Gen)
    requires IsShape(g) && SentSoFar(u, y, start, g, read, max, buffer, len, now) && (len == max || rest == [])
    ensures var (out, last) := Sent(u, y, Line(g, read + rest), max);
            len == |out| && last == Line(now, rest) && buffer == Written(start, 0, out)
  {
    MoreDigits(u, y, Line(g, read), rest, max);
    var (out, last) := Sent(u, y, Line(g, read), max);
    ShortWhenDone(u, y, Line(g, read), max);
    assert out + [] == out;
  }

  lemma NothingBefore(s: (seq<int>, Line))
    ensures After([], s) == s
  {
    assert [] + s.0 == s.0;
  }

  lemma AfterBoth(before: seq<int>, out: seq<int>, r: (seq<int>, Line))
    ensures After(before, After(out, r)) == After(before + out, r)
  {
    assert before + (out + r.0) == before + out + r.0;
  }
}
