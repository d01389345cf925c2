/**
 A pass of the scheduler with any number of timers due. All of them are taken off before the first is called back, so
 a callback that ends the call does not stop the others: which passes keep the invariant of the runs, exactly.
 */
module Passes {
  import opened Signals
  import opened Protocol
  import opened RunInvariants

  /** The callbacks of the timers that were due, in order. */
  function CallBack(cfg: Config, d: Chan, due: seq<Timer>): Chan
    decreases |due|
  {
    if due == [] then d else Dispatch(cfg, CallBack(cfg, d, due[..|due| - 1]), due[|due| - 1])
  }

  lemma OneMoreCalledBack(cfg: Config, d: Chan, due: seq<Timer>, n: nat)
    requires n < |due|
    ensures CallBack(cfg, d, due[..n + 1]) == Dispatch(cfg, CallBack(cfg, d, due[..n]), due[n])
  {
    assert due[..n + 1][..n] == due[..n];
  }

  /** d is c with some timers taken off for callbacks in the order of due. */
  ghost predicate Takes(c: Chan, d: Chan, due: seq<Timer>) {
    && d == c.(timers := c.timers.(live := d.timers.live))
    && (forall id :: id in d.timers.live ==> id in c.timers.live && d.timers.live[id] == c.timers.live[id])
    && (forall id :: id in c.timers.live && id !in d.timers.live ==> c.timers.live[id] in due)
    && (forall t :: t in due ==> Taken(c, d, t))
  }

  ghost predicate Taken(c: Chan, d: Chan, t: Timer) {
    exists id :: id in c.timers.live && id !in d.timers.live && c.timers.live[id] == t
  }

  // ---------------------------------------------------------------------------------------
  // The condition, on the due timers and the channel before the pass

  /** Timers whose callback takes for granted that there is a call. */
  predicate NeedsCall(t: Timer) {
    t.Answer? || t.MeteringPulse? || t.SeizePersist? || t.SetCallDown? || t.AnswerDelay?
  }

  /** Timers whose callback is a protocol error in any state. */
  predicate IsError(t: Timer) { t.FwdSafety? || t.Seize? }

  /** A timeout of the backward cycle is taken for the end of the digits, not for an error. */
  predicate Resumes(cfg: Config, c: Chan) {
    && cfg.g1.noMoreDnis == NO_TONE && c.mfGroup == GA && (c.mfState == DnisRqTxd || c.mfState == AniRqTxd)
    && (cfg.immediateAccept && (cfg.aniCanComeFirst || cfg.getAniFirst || cfg.skipCategory) ==>
        c.callState == Collecting)
  }

  /** The i-th callback ends the call, if none before it has. */
  predicate EndsCall(cfg: Config, c: Chan, due: seq<Timer>, i: nat)
    requires i < |due|
  {
    IsError(due[i]) || due[i] == SetCallDown || (due[i] == BackCycle && (!Resumes(cfg, c) || BackCycle in due[..i]))
  }

  /** No callback that needs the call comes after one that ends it. */
  predicate Orderly(cfg: Config, c: Chan, due: seq<Timer>) {
    forall i, j :: 0 <= i < j < |due| && EndsCall(cfg, c, due, i) ==> !NeedsCall(due[j])
  }

  /** One does, and it is not the clearing of a collision that a later error resets. */
  predicate Harmful(cfg: Config, c: Chan, due: seq<Timer>) {
    exists i, j :: 0 <= i < j < |due| && EndsCall(cfg, c, due, i) && Harms(due, j, |due|)
  }

  predicate Harms(due: seq<Timer>, j: nat, n: nat)
    requires j < n <= |due|
  {
    NeedsCall(due[j]) && (due[j] == SeizePersist ==> forall k :: j < k < n ==> !IsError(due[k]))
  }

  // ---------------------------------------------------------------------------------------
  // Where the call stands after each callback

  /** In progress, over, cleared again although it is over, or reported on although it is over. */
  datatype Standing = InProgress | Over | Adrift | Wrong

  function StandingAfter(cfg: Config, c: Chan, due: seq<Timer>, n: nat): Standing
    requires n <= |due|
  {
    if n == 0 then InProgress
    else
      var t := due[n - 1];
      match StandingAfter(cfg, c, due, n - 1)
      case InProgress => if EndsCall(cfg, c, due, n - 1) then Over else InProgress
      case Over => if t == SeizePersist then Adrift else if NeedsCall(t) then Wrong else Over
      case Adrift => if IsError(t) then Over else if NeedsCall(t) && t != SeizePersist then Wrong else Adrift
      case Wrong => Wrong
  }

  predicate EndsBefore(cfg: Config, c: Chan, due: seq<Timer>, n: nat)
    requires n <= |due|
  {
    exists i :: 0 <= i < n && EndsCall(cfg, c, due, i)
  }

  predicate WrongBefore(cfg: Config, c: Chan, due: seq<Timer>, n: nat)
    requires n <= |due|
  {
    exists j :: 0 <= j < n && EndsBefore(cfg, c, due, j) && NeedsCall(due[j]) && due[j] != SeizePersist
  }

  predicate AdriftBefore(cfg: Config, c: Chan, due: seq<Timer>, n: nat)
    requires n <= |due|
  {
    exists j :: 0 <= j < n && EndsBefore(cfg, c, due, j) && due[j] == SeizePersist && Harms(due, j, n)
  }

  lemma {:induction false} StandingMeaning(cfg: Config, c: Chan, due: seq<Timer>, n: nat)
    requires n <= |due|
    ensures StandingAfter(cfg, c, due, n) == InProgress <==> !EndsBefore(cfg, c, due, n)
    ensures StandingAfter(cfg, c, due, n) == Wrong <==> WrongBefore(cfg, c, due, n)
    ensures StandingAfter(cfg, c, due, n) == Adrift <==> !WrongBefore(cfg, c, due, n) && AdriftBefore(cfg, c, due, n)
  {
    if n > 0 {
      StandingMeaning(cfg, c, due, n - 1);
      EndsOneMore(cfg, c, due, n - 1);
      WrongOneMore(cfg, c, due, n - 1);
      AdriftOneMore(cfg, c, due, n - 1);
    }
  }

  lemma EndsOneMore(cfg: Config, c: Chan, due: seq<Timer>, n: nat)
    requires n < |due|
    ensures EndsBefore(cfg, c, due, n + 1) <==> EndsBefore(cfg, c, due, n) || EndsCall(cfg, c, due, n)
  {
  }

  lemma WrongOneMore(cfg: Config, c: Chan, due: seq<Timer>, n: nat)
    requires n < |due|
    ensures WrongBefore(cfg, c, due, n + 1) <==>
              WrongBefore(cfg, c, due, n) || (EndsBefore(cfg, c, due, n) && NeedsCall(due[n]) && due[n] != SeizePersist)
  {
  }

  lemma AdriftOneMore(cfg: Config, c: Chan, due: seq<Timer>, n: nat)
    requires n < |due|
    ensures AdriftBefore(cfg, c, due, n + 1) <==>
              (EndsBefore(cfg, c, due, n) && due[n] == SeizePersist) ||
                  (AdriftBefore(cfg, c, due, n) && !IsError(due[n]))
  {
    if AdriftBefore(cfg, c, due, n) && !IsError(due[n]) {
      var j :| 0 <= j < n && EndsBefore(cfg, c, due, j) && due[j] == SeizePersist && Harms(due, j, n);
      assert Harms(due, j, n + 1);
    }
    if EndsBefore(cfg, c, due, n) && due[n] == SeizePersist { assert Harms(due, n, n + 1); }
    if AdriftBefore(cfg, c, due, n + 1) {
      var j :| 0 <= j < n + 1 && EndsBefore(cfg, c, due, j) && due[j] == SeizePersist && Harms(due, j, n + 1);
      if j < n { assert Harms(due, j, n); }
    }
  }

  lemma HarmfulMeaning(cfg: Config, c: Chan, due: seq<Timer>)
    ensures Harmful(cfg, c, due) <==> WrongBefore(cfg, c, due, |due|) || AdriftBefore(cfg, c, due, |due|)
  {
    if Harmful(cfg, c, due) {
      var i, j :| 0 <= i < j < |due| && EndsCall(cfg, c, due, i) && Harms(due, j, |due|);
      assert EndsBefore(cfg, c, due, j);
    }
    if WrongBefore(cfg, c, due, |due|) {
      var j :| 0 <= j < |due| && EndsBefore(cfg, c, due, j) && NeedsCall(due[j]) && due[j] != SeizePersist;
      assert Harms(due, j, |due|);
    }
  }

  lemma {:induction false} OrderlyStanding(cfg: Config, c: Chan, due: seq<Timer>, n: nat)
    requires n <= |due| && Orderly(cfg, c, due)
    ensures StandingAfter(cfg, c, due, n) == InProgress || StandingAfter(cfg, c, due, n) == Over
  {
    if n > 0 {
      OrderlyStanding(cfg, c, due, n - 1);
      StandingMeaning(cfg, c, due, n - 1);
    }
  }

  lemma DisorderlyStanding(cfg: Config, c: Chan, due: seq<Timer>, i: nat, j: nat)
    requires i < j < |due| && EndsCall(cfg, c, due, i) && NeedsCall(due[j])
    ensures var s, r := StandingAfter(cfg, c, due, j), StandingAfter(cfg, c, due, j + 1);
            s == Adrift || s == Wrong || r == Adrift || r == Wrong
  {
    StandingMeaning(cfg, c, due, j);
    assert EndsBefore(cfg, c, due, j);
  }

  // ---------------------------------------------------------------------------------------
  // What the standing says about the channel

  /** A callback of this kind is still to come. */
  predicate Pending(due: seq<Timer>, n: nat, t: Timer)
    requires n <= |due|
  {
    t in due[n..]
  }

  /** Every wait is guarded by a timer that is running or about to be called back. */
  ghost predicate Owed(d: Chan, due: seq<Timer>, n: nat)
    requires n <= |due|
  {
    !SlotMissed(d.log) ==>
      && (d.r2State.SeizeTxd? || d.r2State.SeizeTxdClearFwdPending? ==>
            Armed(d.timers, Seize) || Pending(due, n, Seize))
      && (d.r2State.ClearFwdTxd? || d.r2State.ClearBackAfterClearFwdRxd? ==>
            CallDownArmed(d.timers) || Pending(due, n, SetCallDown))
      && (d.r2State == DoubleSeizureClearFwdPending ==> Armed(d.timers, SeizePersist) || Pending(due, n, SeizePersist))
      && (d.r2State == ExecutingDoubleAnswer ==> Armed(d.timers, DoubleAnswer) || Pending(due, n, DoubleAnswer))
      && (d.r2State == AcceptRxd && d.callState == Dialing ==> Armed(d.timers, Answer) || Pending(due, n, Answer))
      && (d.readTone == NO_TONE && d.r2State == SeizeAckRxd && d.mfState == WaitingTimeout ==>
            Armed(d.timers, FwdSafety) || Pending(due, n, FwdSafety))
  }

  /** All timers of a pass belong to the direction of the call. */
  predicate OneWay(c: Chan, due: seq<Timer>) {
    forall t :: t in due ==> c.direction == if ForwardTimer(t) then Forward else Backward
  }

  /** What the timeouts of the backward cycle that were called back have left of Resumes. */
  predicate CycleStands(cfg: Config, c: Chan, d: Chan, due: seq<Timer>, n: nat)
    requires n <= |due|
  {
    c.direction == Backward ==> (Resumes(cfg, d) <==> Resumes(cfg, c) && BackCycle !in due[..n])
  }

  ghost predicate StillCalling(cfg: Config, c: Chan, d: Chan, due: seq<Timer>, n: nat)
    requires n <= |due|
  {
    && Core(d) && d.direction == c.direction && Owed(d, due, n)
    && (Pending(due, n, AnswerDelay) ==> TrackOf(d.log).offered)
    && CycleStands(cfg, c, d, due, n)
  }

  ghost predicate AtRest(d: Chan) { Core(d) && d.direction == Stopped }

  /** A clear forward with no call behind it. */
  predicate Stray(d: Chan) {
    d.r2State == ClearFwdTxd && d.callState == CallIdle && d.mfState == MfOff &&
    TrackOf(d.log).lawful && TrackOf(d.log).phase == NoCall
  }

  /** The user has been told something about a call that was over. */
  predicate Misreported(d: Chan) { !TrackOf(d.log).lawful && d.mfState == MfOff }

  ghost predicate Stands(cfg: Config, c: Chan, d: Chan, due: seq<Timer>, n: nat)
    requires n <= |due|
  {
    match StandingAfter(cfg, c, due, n)
    case InProgress => StillCalling(cfg, c, d, due, n)
    case Over => AtRest(d)
    case Adrift => Stray(d)
    case Wrong => Misreported(d)
  }

  // ---------------------------------------------------------------------------------------
  // A callback while the call is in progress

  lemma PendingNext(due: seq<Timer>, n: nat)
    requires n < |due|
    ensures forall t :: Pending(due, n, t) <==> t == due[n] || Pending(due, n + 1, t)
    ensures forall t :: t in due[..n + 1] <==> t == due[n] || t in due[..n]
  {
    assert due[n..] == [due[n]] + due[n + 1..];
    assert due[..n + 1] == due[..n] + [due[n]];
  }

  lemma InvOwes(d: Chan, due: seq<Timer>, n: nat)
    requires n <= |due| && Inv(d)
    ensures Core(d) && Owed(d, due, n)
  {
  }

  lemma CallStep(cfg: Config, c: Chan, d: Chan, due: seq<Timer>, n: nat)
    requires n < |due| && StillCalling(cfg, c, d, due, n) && OneWay(c, due)
    ensures var e := Dispatch(cfg, d, due[n]);
            if EndsCall(cfg, c, due, n) then AtRest(e) else StillCalling(cfg, c, e, due, n + 1)
  {
    assert due[n] in due;
    match due[n]
    case FwdSafety => ErrorKeepsInv(d, FwdSafetyTimeout);
    case Seize => ErrorKeepsInv(d, SeizeTimeout);
    case SetCallDown => EndKeepsInv(d);
    case SeizePersist => PersistStep(cfg, c, d, due, n);
    case Answer => ReportStep(cfg, c, d, due, n, NoAnswer);
    case MeteringPulse =>
      ReportStep(cfg, c, d, due, n, if d.r2State == ForcedReleaseRxd then ForcedRelease else NormalClearing);
    case DoubleAnswer => DoubleAnswerStep(cfg, c, d, due, n);
    case BackResumeCycle => SilenceStep(cfg, c, d, due, n);
    case AnswerDelay => DelayStep(cfg, c, d, due, n);
    case BackCycle => CycleStep(cfg, c, d, due, n);
  }

  lemma PersistStep(cfg: Config, c: Chan, d: Chan, due: seq<Timer>, n: nat)
    requires n < |due| && StillCalling(cfg, c, d, due, n) && OneWay(c, due) && due[n] == SeizePersist
    ensures StillCalling(cfg, c, SendClearForward(d), due, n + 1)
  {
    var e := SendClearForward(d);
    assert due[n] in due;
    SendClearForwardKeepsInv(d);
    InvOwes(e, due, n + 1);
    ForwardIsQuiet(c, due, n + 1);
    TurnOffMfForward(Schedule(d, SetCallDown).(r2State := ClearFwdTxd));
  }

  /** On the forward side there is no answer delay. */
  lemma ForwardIsQuiet(c: Chan, due: seq<Timer>, n: nat)
    requires n <= |due| && OneWay(c, due) && c.direction == Forward
    ensures !Pending(due, n, AnswerDelay)
  {
    assert forall t :: t in due[n..] ==> t in due;
  }

  lemma ReportStep(cfg: Config, c: Chan, d: Chan, due: seq<Timer>, n: nat, cause: Cause)
    requires n < |due| && StillCalling(cfg, c, d, due, n) && OneWay(c, due) &&
        (due[n] == Answer || due[n] == MeteringPulse)
    ensures StillCalling(cfg, c, ReportDisconnection(d, cause), due, n + 1)
  {
    assert due[n] in due;
    ReportKeepsCore(d, cause);
    PendingNext(due, n);
    ForwardIsQuiet(c, due, n + 1);
  }

  lemma ReportKeepsCore(d: Chan, cause: Cause)
    requires Core(d) && d.direction == Forward
    ensures Core(ReportDisconnection(d, cause))
  {
  }

  lemma DoubleAnswerStep(cfg: Config, c: Chan, d: Chan, due: seq<Timer>, n: nat)
    requires n < |due| && StillCalling(cfg, c, d, due, n) && OneWay(c, due) && due[n] == DoubleAnswer
    ensures StillCalling(cfg, c, DoubleAnswerExpired(d), due, n + 1)
  {
    assert due[n] in due;
    DoubleAnswerKeepsInv(d);
    InvOwes(DoubleAnswerExpired(d), due, n + 1);
    PendingNext(due, n);
    DoubleAnswerLeaves(cfg, d);
  }

  lemma DoubleAnswerLeaves(cfg: Config, d: Chan)
    requires Core(d) && d.direction == Backward
    ensures var e := DoubleAnswerExpired(d);
            e.direction == d.direction && TrackOf(e.log) == TrackOf(d.log) && Resumes(cfg, e) == Resumes(cfg, d)
  {
  }

  lemma SilenceStep(cfg: Config, c: Chan, d: Chan, due: seq<Timer>, n: nat)
    requires n < |due| && StillCalling(cfg, c, d, due, n) && due[n] == BackResumeCycle
    ensures StillCalling(cfg, c, SetSilence(d), due, n + 1)
  {
    PendingNext(due, n);
    assert SetSilence(d) == d.(writeTone := NO_TONE);
    SilentKeepsCore(d);
  }

  lemma SilentKeepsCore(d: Chan)
    requires Core(d)
    ensures Core(d.(writeTone := NO_TONE))
  {
  }

  lemma DelayStep(cfg: Config, c: Chan, d: Chan, due: seq<Timer>, n: nat)
    requires n < |due| && StillCalling(cfg, c, d, due, n) && OneWay(c, due) && due[n] == AnswerDelay
    ensures StillCalling(cfg, c, Emit(d, CallAccepted(UnknownMode)), due, n + 1)
  {
    assert due[n] in due;
    PendingNext(due, n);
    AcceptedKeepsCore(d);
  }

  lemma AcceptedKeepsCore(d: Chan)
    requires Core(d) && d.direction == Backward && TrackOf(d.log).offered
    ensures Core(Emit(d, CallAccepted(UnknownMode)))
  {
  }

  lemma CycleStep(cfg: Config, c: Chan, d: Chan, due: seq<Timer>, n: nat)
    requires n < |due| && StillCalling(cfg, c, d, due, n) && OneWay(c, due) && due[n] == BackCycle
    ensures var e := MfBackCycleExpired(cfg, d);
            if EndsCall(cfg, c, due, n) then AtRest(e) else StillCalling(cfg, c, e, due, n + 1)
  {
    assert due[n] in due;
    PendingNext(due, n);
    if EndsCall(cfg, c, due, n) {
      CycleErrs(cfg, d);
    } else {
      BackCycleKeepsInv(cfg, d);
      InvOwes(MfBackCycleExpired(cfg, d), due, n + 1);
      CycleGoesOn(cfg, d);
    }
  }

  lemma CycleErrs(cfg: Config, d: Chan)
    requires Core(d) && d.direction == Backward && !Resumes(cfg, d)
    ensures AtRest(MfBackCycleExpired(cfg, d))
  {
    if cfg.g1.noMoreDnis == NO_TONE && d.mfGroup == GA && (d.mfState == DnisRqTxd || d.mfState == AniRqTxd) {
      OfferErrs(cfg, d, Schedule(d, BackResumeCycle));
    } else {
      ErrorKeepsInv(d, BackMfTimeout);
    }
  }

  lemma OfferErrs(cfg: Config, d: Chan, e: Chan)
    requires TrackOf(d.log).lawful && e == Schedule(d, BackResumeCycle) && d.callState != Collecting
    ensures AtRest(BypassChangeToG2(cfg, e))
  {
    var f := PrepareTone(e.(mfState := AcceptedTxd), cfg.ga.addressComplete);
    assert TrackOf(f.log) == TrackOf(d.log);
    ErrorKeepsInv(f, InvalidR2State);
  }

  lemma CycleGoesOn(cfg: Config, d: Chan)
    requires Core(d) && d.direction == Backward && Resumes(cfg, d)
    ensures var e := MfBackCycleExpired(cfg, d);
            e.direction == Backward && !Resumes(cfg, e) && (TrackOf(d.log).offered ==> TrackOf(e.log).offered)
  {
    var e := Schedule(d, BackResumeCycle);
    RequestGoesOn(cfg, e);
  }

  lemma RequestGoesOn(cfg: Config, d: Chan)
    requires d.direction == Backward
    requires cfg.immediateAccept ==> d.callState == Collecting || !cfg.skipCategory
    ensures var e := RequestCategory(cfg, d);
            e.direction == Backward && !Resumes(cfg, e) && (TrackOf(d.log).offered ==> TrackOf(e.log).offered)
    ensures var e := RequestChangeToG2(cfg, d);
            e.direction == Backward && !Resumes(cfg, e) && (TrackOf(d.log).offered ==> TrackOf(e.log).offered)
    ensures d.callState == Collecting ==>
              var e := BypassChangeToG2(cfg, d);
              e.direction == Backward && !Resumes(cfg, e) && (TrackOf(d.log).offered ==> TrackOf(e.log).offered)
  {
  }

  // ---------------------------------------------------------------------------------------
  // A callback after the end of the call

  lemma RestStep(cfg: Config, d: Chan, t: Timer)
    requires AtRest(d)
    ensures var e := Dispatch(cfg, d, t);
            if t == SeizePersist then Stray(e) else if NeedsCall(t) then Misreported(e) else AtRest(e)
  {
    if NeedsCall(t) { RestReported(cfg, d, t); } else { RestStays(cfg, d, t); }
  }

  lemma RestReported(cfg: Config, d: Chan, t: Timer)
    requires AtRest(d) && NeedsCall(t)
    ensures var e := Dispatch(cfg, d, t); if t == SeizePersist then Stray(e) else Misreported(e)
  {
  }

  lemma RestStays(cfg: Config, d: Chan, t: Timer)
    requires AtRest(d) && !NeedsCall(t)
    ensures AtRest(Dispatch(cfg, d, t))
  {
    match t
    case FwdSafety => ErrorKeepsInv(d, FwdSafetyTimeout);
    case Seize => ErrorKeepsInv(d, SeizeTimeout);
    case BackCycle => ErrorKeepsInv(d, BackMfTimeout);
    case BackResumeCycle => SilentKeepsCore(d);
    case _ =>
  }

  lemma StrayStep(cfg: Config, d: Chan, t: Timer)
    requires Stray(d) && ForwardTimer(t)
    ensures var e := Dispatch(cfg, d, t);
            if IsError(t) then AtRest(e) else if NeedsCall(t) && t != SeizePersist then Misreported(e) else Stray(e)
  {
    match t
    case FwdSafety => ErrorKeepsInv(d, FwdSafetyTimeout);
    case Seize => ErrorKeepsInv(d, SeizeTimeout);
    case _ =>
  }

  lemma MisreportedStep(cfg: Config, d: Chan, t: Timer)
    requires Misreported(d)
    ensures Misreported(Dispatch(cfg, d, t))
  {
  }

  // ---------------------------------------------------------------------------------------
  // Whole passes

  lemma TakenStands(cfg: Config, c: Chan, d: Chan, due: seq<Timer>)
    requires Inv(c) && Takes(c, d, due)
    ensures StillCalling(cfg, c, d, due, 0) && OneWay(c, due)
  {
    assert due[0..] == due;
    forall t | t in due ensures c.direction == if ForwardTimer(t) then Forward else Backward {
      var id :| id in c.timers.live && id !in d.timers.live && c.timers.live[id] == t;
    }
    if AnswerDelay in due {
      var id :| id in c.timers.live && id !in d.timers.live && c.timers.live[id] == AnswerDelay;
    }
    TakenCore(c, d, due);
    TakenOwed(c, d, due);
  }

  lemma TakenCore(c: Chan, d: Chan, due: seq<Timer>)
    requires Core(c) && Takes(c, d, due)
    ensures Core(d)
  {
    if c.timers.live == map[] {
      assert forall id :: id in d.timers.live ==> id in c.timers.live;
      assert d.timers.live.Keys == {};
    }
    assert TimerOwnership(d.timers, d.direction);
  }

  lemma TakenOwed(c: Chan, d: Chan, due: seq<Timer>)
    requires Inv(c) && Takes(c, d, due)
    ensures Owed(d, due, 0)
  {
    assert due[0..] == due;
    if CallDownArmed(c.timers) && SetCallDown !in due {
      var id :| id in c.timers.live && c.timers.live[id] == SetCallDown;
      assert id in d.timers.live;
    }
    forall t | Armed(c.timers, t) ensures Armed(d.timers, t) || Pending(due, 0, t) { }
  }

  lemma {:induction false} StandsAfter(cfg: Config, c: Chan, d: Chan, due: seq<Timer>, n: nat)
    requires Inv(c) && Takes(c, d, due) && n <= |due|
    ensures Stands(cfg, c, CallBack(cfg, d, due[..n]), due, n)
  {
    if n == 0 {
      TakenStands(cfg, c, d, due);
    } else {
      var e := CallBack(cfg, d, due[..n - 1]);
      assert Stands(cfg, c, e, due, n - 1) by { StandsAfter(cfg, c, d, due, n - 1); }
      assert OneWay(c, due) by { TakenStands(cfg, c, d, due); }
      OneMoreCalledBack(cfg, d, due, n - 1);
      StandsNext(cfg, c, e, due, n - 1);
    }
  }

  lemma StandsNext(cfg: Config, c: Chan, d: Chan, due: seq<Timer>, n: nat)
    requires n < |due| && OneWay(c, due) && Stands(cfg, c, d, due, n)
    ensures Stands(cfg, c, Dispatch(cfg, d, due[n]), due, n + 1)
  {
    match StandingAfter(cfg, c, due, n)
    case InProgress => CallStep(cfg, c, d, due, n);
    case Over => RestStep(cfg, d, due[n]);
    case Adrift => AdriftIsForward(cfg, c, due, n); StrayStep(cfg, d, due[n]);
    case Wrong => MisreportedStep(cfg, d, due[n]);
  }

  lemma AdriftIsForward(cfg: Config, c: Chan, due: seq<Timer>, n: nat)
    requires n < |due| && StandingAfter(cfg, c, due, n) == Adrift && OneWay(c, due)
    ensures ForwardTimer(due[n])
  {
    StandingMeaning(cfg, c, due, n);
    assert due[n] in due;
    var j :| 0 <= j < n && EndsBefore(cfg, c, due, j) && due[j] == SeizePersist && Harms(due, j, n);
    assert due[j] in due;
  }

  lemma StandingDecides(cfg: Config, c: Chan, d: Chan, due: seq<Timer>, n: nat)
    requires n <= |due| && Stands(cfg, c, d, due, n)
    ensures Core(d) <==> StandingAfter(cfg, c, due, n) == InProgress || StandingAfter(cfg, c, due, n) == Over
  {
    match StandingAfter(cfg, c, due, n)
    case Adrift => StrayIsShapeless(d);
    case Wrong => assert !EventOrder(d);
    case _ =>
  }

  lemma StrayIsShapeless(d: Chan)
    requires Stray(d)
    ensures !Core(d)
  {
    assert !CallShape(d);
  }

  lemma EndDecides(cfg: Config, c: Chan, d: Chan, due: seq<Timer>)
    requires Stands(cfg, c, d, due, |due|)
    ensures Inv(d) <==> StandingAfter(cfg, c, due, |due|) == InProgress || StandingAfter(cfg, c, due, |due|) == Over
  {
    StandingDecides(cfg, c, d, due, |due|);
    match StandingAfter(cfg, c, due, |due|)
    case InProgress => NothingOwed(d, due);
    case Over => RestIsInv(d);
    case _ =>
  }

  lemma NothingOwed(d: Chan, due: seq<Timer>)
    requires Core(d) && Owed(d, due, |due|)
    ensures Inv(d)
  {
    assert due[|due|..] == [];
  }

  lemma RestIsInv(d: Chan)
    requires AtRest(d)
    ensures Inv(d)
  {
  }

  /** A pass keeps the invariant exactly when it is not harmful. */
  lemma PassKeepsInvExactly(cfg: Config, c: Chan, d: Chan, due: seq<Timer>)
    requires Inv(c) && Takes(c, d, due)
    ensures Inv(CallBack(cfg, d, due)) <==> !Harmful(cfg, c, due)
  {
    assert due[..|due|] == due;
    StandsAfter(cfg, c, d, due, |due|);
    EndDecides(cfg, c, CallBack(cfg, d, due), due);
    StandingMeaning(cfg, c, due, |due|);
    HarmfulMeaning(cfg, c, due);
  }

  /**
   And every callback of it leaves a channel of proper shape exactly when none that needs the call follows its end.
   */
  lemma PassKeepsShapeExactly(cfg: Config, c: Chan, d: Chan, due: seq<Timer>)
    requires Inv(c) && Takes(c, d, due)
    ensures (forall n :: 0 <= n <= |due| ==> Core(CallBack(cfg, d, due[..n]))) <==> Orderly(cfg, c, due)
  {
    forall n | 0 <= n <= |due|
      ensures Core(CallBack(cfg, d, due[..n])) <==>
                StandingAfter(cfg, c, due, n) == InProgress || StandingAfter(cfg, c, due, n) == Over
      ensures Orderly(cfg, c, due) ==> Core(CallBack(cfg, d, due[..n]))
    {
      StandsAfter(cfg, c, d, due, n);
      StandingDecides(cfg, c, CallBack(cfg, d, due[..n]), due, n);
      if Orderly(cfg, c, due) { OrderlyStanding(cfg, c, due, n); }
    }
    if !Orderly(cfg, c, due) {
      var i, j :| 0 <= i < j < |due| && EndsCall(cfg, c, due, i) && NeedsCall(due[j]);
      DisorderlyStanding(cfg, c, due, i, j);
    }
  }
}
