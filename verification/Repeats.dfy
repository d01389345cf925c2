/**
 A far end that asks for digits again. In group A it may ask for the next digit, for one of the three before, or for
 all of them from the first; the caller always has the digit asked for on the line.
 */
module Repeats {
  import opened Signals
  import opened Protocol
  import opened LineTable
  import opened RegisterTable

  datatype Wish = Onward | Again(digits: int) | FromStart

  predicate Known(w: Wish) { w.Again? ==> w.digits == 1 || w.digits == 2 || w.digits == 3 }

  function ToneFor(cfg: Config, w: Wish): Tone {
    match w
    case Onward => cfg.ga.nextDnis
    case Again(n) => if n == 1 then cfg.ga.dnisMinus1 else if n == 2 then cfg.ga.dnisMinus2 else cfg.ga.dnisMinus3
    case FromStart => cfg.ga.allDnisAgain
  }

  /** The index of the digit asked for, from the one on the line. */
  function IndexFor(i: int, w: Wish): int {
    match w
    case Onward => i + 1
    case Again(n) => if i - n > 0 then i - n else 0
    case FromStart => 0
  }

  /** The tone is one, and stands for this wish alone. */
  predicate Distinct(cfg: Config, w: Wish) {
    var t := ToneFor(cfg, w);
    && t != '\0'
    && (!w.Onward? ==> t != cfg.ga.nextDnis)
    && (w != Again(1) ==> t != cfg.ga.dnisMinus1)
    && (w != Again(2) ==> t != cfg.ga.dnisMinus2)
    && (w != Again(3) ==> t != cfg.ga.dnisMinus3)
    && (!w.FromStart? ==> t != cfg.ga.allDnisAgain)
  }

  /** A caller with the digit of an index on the line, the far end silent. */
  predicate Sending(c: Chan, i: int) {
    && c.direction == Forward && c.callState != CallIdle && c.mfGroup == GI && c.mfState == DnisTxd
    && c.readTone == '\0' && 0 <= i < |c.num.dnis| && c.num.dnisIndex == i && c.writeTone == c.num.dnis[i]
    && AllDigits(c.num.dnis)
  }

  /** The far end sends the tone until the caller is silent, and is then silent itself. */
  function Request(cfg: Config, w: Wish, u: Reply): seq<Step> {
    [MfSample(ToneFor(cfg, w), u), MfSample('\0', u)]
  }

  /** The caller falls silent, and then sends the digit asked for. */
  lemma WishIsServed(cfg: Config, c: Chan, i: int, w: Wish, u: Reply)
    requires Sending(c, i) && Known(w) && Distinct(cfg, w) && IndexFor(i, w) < |c.num.dnis|
    ensures Next(cfg, c, MfSample(ToneFor(cfg, w), u)).writeTone == '\0'
    ensures var d := Run(cfg, c, Request(cfg, w, u));
            && Sending(d, IndexFor(i, w)) && d.num.dnis == c.num.dnis && d.log == c.log
            && d.r2State == c.r2State && d.callState == c.callState && d.casTx == c.casTx
  {
    var t := ToneFor(cfg, w);
    TwoSteps(cfg, c, MfSample(t, u), MfSample('\0', u));
    CallerMutes(cfg, c, t, u);
    SilenceAnswers(cfg, c.(readTone := t, writeTone := '\0', timers := CancelTimer(c.timers, FwdSafety)), w, u);
  }

  /** The caller is muted and the far end falls silent. */
  lemma SilenceAnswers(cfg: Config, c: Chan, w: Wish, u: Reply)
    requires c.direction == Forward && c.callState != CallIdle && c.mfGroup == GI && c.mfState == DnisTxd
    requires Known(w) && Distinct(cfg, w) && c.readTone == ToneFor(cfg, w) && AllDigits(c.num.dnis)
    requires 0 <= c.num.dnisIndex && IndexFor(c.num.dnisIndex, w) < |c.num.dnis|
    ensures var j := IndexFor(c.num.dnisIndex, w);
            HandleMedia(cfg, c, '\0', u) ==
            c.(readTone := '\0', writeTone := c.num.dnis[j], num := c.num.(dnisIndex := j))
  {
    var j := IndexFor(c.num.dnisIndex, w);
    WishIsLookedUp(cfg, c.num, w);
    CallerFollowsTable(cfg, c, u);
    assert IsDigit(c.num.dnis[j]);
    assert SendsDigit(cfg, c, j, GI) == c.(writeTone := c.num.dnis[j], num := c.num.(dnisIndex := j));
  }

  lemma WishIsLookedUp(cfg: Config, n: Numbers, w: Wish)
    requires Known(w) && Distinct(cfg, w)
    ensures Lookup(GroupA(cfg, n), ToneFor(cfg, w)) ==
            match w
            case Onward => Digit(n.dnisIndex + 1, GI)
            case Again(m) => Digit(if n.dnisIndex < m then 0 else n.dnisIndex - m, GI)
            case FromStart => Digit(0, GI)
  {
    var r := GroupA(cfg, n);
    assert r[0].tone == cfg.ga.nextDnis && r[1].tone == cfg.ga.dnisMinus1 && r[2].tone == cfg.ga.dnisMinus2;
    assert r[3].tone == cfg.ga.dnisMinus3 && r[4].tone == cfg.ga.allDnisAgain;
    LookupAt(r, ToneFor(cfg, w), match w case Onward => 0 case Again(m) => m case FromStart => 4);
  }

  // ---------------------------------------------------------------------------------------
  // Runs

  function Requests(cfg: Config, ws: seq<Wish>, u: Reply): seq<Step>
    decreases |ws|
  {
    if ws == [] then [] else Requests(cfg, ws[..|ws| - 1], u) + Request(cfg, ws[|ws| - 1], u)
  }

  /** The index of the digit on the line after the wishes. */
  function IndexAfter(i: int, ws: seq<Wish>): int
    decreases |ws|
  {
    if ws == [] then i else IndexFor(IndexAfter(i, ws[..|ws| - 1]), ws[|ws| - 1])
  }

  /** Wishes with tones of their own, none of which is for a digit past the last. */
  ghost predicate WithinNumber(cfg: Config, ws: seq<Wish>, i: int, digits: int) {
    && (forall k :: 0 <= k < |ws| ==> Known(ws[k]) && Distinct(cfg, ws[k]))
    && (forall k :: 0 <= k <= |ws| ==> IndexAfter(i, ws[..k]) < digits)
  }

  /** Over every run of such wishes the caller has the digit asked for on the line, and the user is told nothing. */
  lemma {:induction false} WishesAreServed(cfg: Config, c: Chan, i: int, ws: seq<Wish>, u: Reply)
    requires Sending(c, i) && WithinNumber(cfg, ws, i, |c.num.dnis|)
    ensures var d := Run(cfg, c, Requests(cfg, ws, u));
            && Sending(d, IndexAfter(i, ws)) && d.num.dnis == c.num.dnis && d.log == c.log
            && d.r2State == c.r2State && d.callState == c.callState && d.casTx == c.casTx
    decreases |ws|
  {
    if ws != [] {
      var most := ws[..|ws| - 1];
      assert forall k :: 0 <= k <= |most| ==> most[..k] == ws[..k];
      assert ws[..|ws|] == ws;
      WishesAreServed(cfg, c, i, most, u);
      RunConcat(cfg, c, Requests(cfg, most, u), Request(cfg, ws[|ws| - 1], u));
      WishIsServed(cfg, Run(cfg, c, Requests(cfg, most, u)), IndexAfter(i, most), ws[|ws| - 1], u);
    }
  }

  /** What a far end hears that asks for the next digit so many times: the tone on the line, and those that follow. */
  function HeardOnward(cfg: Config, c: Chan, times: nat, u: Reply): string
    decreases times
  {
    if times == 0 then [c.writeTone]
    else [c.writeTone] + HeardOnward(cfg, Run(cfg, c, Request(cfg, Onward, u)), times - 1, u)
  }

  lemma {:induction false} NumberHeard(cfg: Config, c: Chan, i: int, end: int, times: nat, u: Reply)
    requires Sending(c, i) && Distinct(cfg, Onward) && end == i + times + 1 && end <= |c.num.dnis|
    ensures HeardOnward(cfg, c, times, u) == c.num.dnis[i..end]
    decreases times
  {
    if times > 0 {
      var d := Run(cfg, c, Request(cfg, Onward, u));
      assert Sending(d, i + 1) && d.num.dnis == c.num.dnis by { WishIsServed(cfg, c, i, Onward, u); }
      NumberHeard(cfg, d, i + 1, end, times - 1, u);
      SplitFirst(c.num.dnis, i, end);
    } else {
      assert c.num.dnis[i..end] == [c.num.dnis[i]];
    }
  }

  lemma SplitFirst(s: string, i: int, end: int)
    requires 0 <= i < end <= |s|
    ensures s[i..end] == [s[i]] + s[i + 1..end]
  {
  }

  /**
   A far end that asks for digits again, or for all of them, and then asks on hears the number from the digit it asked
   for, as far as it asks.
   */
  lemma NumberHeardAgain(cfg: Config, c: Chan, i: int, w: Wish, times: nat, u: Reply)
    requires Sending(c, i) && Known(w) && Distinct(cfg, w) && Distinct(cfg, Onward)
    requires IndexFor(i, w) + times < |c.num.dnis|
    ensures HeardOnward(cfg, Run(cfg, c, Request(cfg, w, u)), times, u) ==
            c.num.dnis[IndexFor(i, w)..IndexFor(i, w) + times + 1]
  {
    WishIsServed(cfg, c, i, w, u);
    NumberHeard(cfg, Run(cfg, c, Request(cfg, w, u)), IndexFor(i, w), IndexFor(i, w) + times + 1, times, u);
  }

  /**
   Past the last digit the caller sends the tone for the end; without such a tone it stays silent, the safety timer
   running.
   */
  lemma PastTheEnd(cfg: Config, c: Chan, i: int, u: Reply)
    requires Sending(c, i) && Distinct(cfg, Onward) && i + 1 == |c.num.dnis|
    ensures var d := Run(cfg, c, Request(cfg, Onward, u));
            && d.num == c.num.(dnisIndex := i + 1) && d.readTone == '\0' && d.writeTone == cfg.g1.noMoreDnis
            && d.mfState == (if cfg.g1.noMoreDnis != '\0' then DnisEndTxd else WaitingTimeout)
            && (cfg.g1.noMoreDnis == '\0' ==>
                  d.timers == AddTimer(CancelTimer(c.timers, FwdSafety), FwdSafety))
  {
    var t := cfg.ga.nextDnis;
    var d := c.(readTone := t, writeTone := '\0', timers := CancelTimer(c.timers, FwdSafety));
    TwoSteps(cfg, c, MfSample(t, u), MfSample('\0', u));
    CallerMutes(cfg, c, t, u);
    OnwardIsServed(cfg, d, u);
    SentPastTheEnd(cfg, d, i + 1);
  }

  lemma OnwardIsServed(cfg: Config, c: Chan, u: Reply)
    requires c.direction == Forward && c.callState != CallIdle && c.mfGroup == GI && c.mfState == DnisTxd
    requires Distinct(cfg, Onward) && c.readTone == cfg.ga.nextDnis
    ensures HandleMedia(cfg, c, '\0', u) == SendsDigit(cfg, c, c.num.dnisIndex + 1, GI).(readTone := '\0')
  {
    WishIsLookedUp(cfg, c.num, Onward);
    CallerFollowsTable(cfg, c, u);
  }

  lemma SentPastTheEnd(cfg: Config, c: Chan, i: int)
    requires i == |c.num.dnis| && c.mfState == DnisTxd && c.writeTone == '\0'
    ensures var d := SendsDigit(cfg, c, i, GI);
            && d.num == c.num.(dnisIndex := i) && d.writeTone == cfg.g1.noMoreDnis
            && d.mfState == (if cfg.g1.noMoreDnis != '\0' then DnisEndTxd else WaitingTimeout)
            && (cfg.g1.noMoreDnis == '\0' ==> d.timers == AddTimer(c.timers, FwdSafety))
  {
  }

  /** Group C has one request for a digit, the next; it leads back to group A. */
  lemma DigitAskedInGroupC(cfg: Config, c: Chan, u: Reply)
    requires c.direction == Forward && c.callState != CallIdle && c.mfGroup == GIII && c.readTone != '\0'
    requires c.readTone == cfg.gc.nextDnisAndGa && c.readTone != cfg.gc.nextAni && c.readTone != cfg.gc.changeToG2
    requires AllDigits(c.num.dnis) && 0 <= c.num.dnisIndex + 1 < |c.num.dnis|
    ensures var i := c.num.dnisIndex + 1;
            HandleMfTone(cfg, c, '\0', u) ==
            c.(readTone := '\0', mfGroup := GI, mfState := DnisTxd, writeTone := c.num.dnis[i],
               num := c.num.(dnisIndex := i))
  {
    var r := GroupC(cfg, c.num);
    assert r[0].tone == cfg.gc.nextAni && r[1].tone == cfg.gc.changeToG2 && r[2].tone == cfg.gc.nextDnisAndGa;
    LookupAt(r, c.readTone, 2);
    CallerFollowsTable(cfg, c, u);
    assert IsDigit(c.num.dnis[c.num.dnisIndex + 1]);
  }

  /** In every variant the tones are distinct; only Brazil has one for the number from the start. */
  lemma VariantsAskAgain(v: Variant, maxAni: int, maxDnis: int, w: Wish)
    requires Known(w)
    ensures Distinct(Configure(v, maxAni, maxDnis), w) <==> w != FromStart || v == Brazil
  {
  }

  /** The fourth digit of five is on the line; the far end asks for the one before it, and hears the third. */
  lemma ThirdDigitAgain(c: Chan, maxAni: int, maxDnis: int, u: Reply)
    requires Sending(c, 3) && c.num.dnis == "12345"
    ensures Run(Configure(Itu, maxAni, maxDnis), c, [MfSample('2', u), MfSample('\0', u)]).writeTone == '3'
    ensures Run(Configure(Itu, maxAni, maxDnis), c, [MfSample('7', u), MfSample('\0', u)]).writeTone == '2'
    ensures Run(Configure(Itu, maxAni, maxDnis), c, [MfSample('8', u), MfSample('\0', u)]).writeTone == '1'
    ensures Run(Configure(Brazil, maxAni, maxDnis), c, [MfSample('9', u), MfSample('\0', u)]).writeTone == '3'
    ensures Run(Configure(Brazil, maxAni, maxDnis), c, [MfSample('2', u), MfSample('\0', u)]).writeTone == '1'
  {
    var itu, brazil := Configure(Itu, maxAni, maxDnis), Configure(Brazil, maxAni, maxDnis);
    WishIsServed(itu, c, 3, Again(1), u);
    WishIsServed(itu, c, 3, Again(2), u);
    WishIsServed(itu, c, 3, Again(3), u);
    WishIsServed(brazil, c, 3, Again(1), u);
    WishIsServed(brazil, c, 3, FromStart, u);
  }
}
