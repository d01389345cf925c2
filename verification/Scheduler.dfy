/**
 The timer scheduler of a channel: a bounded array of entries kept in order of expiry, ids that only grow
 between two clearings, and a pass that calls back everything due from copies.
 */
module Scheduler {
  import opened Signals
  import P = Protocol

  // ---------------------------------------------------------------------------------------
  // Time

  /** A struct timeval. The usec of a clock reading is below a million; that of a deadline may equal it. */
  datatype TimeVal = TimeVal(sec: int, usec: int)

  datatype Entry = Entry(time: TimeVal, callback: Timer, id: int)

  const EMPTY_SLOT: Entry := Entry(TimeVal(0, 0), FwdSafety, 0)

  /** Division and remainder of C, truncating toward zero. */
  function Quot(a: int, b: int): int
    requires b > 0
  {
    if a >= 0 then a / b else -(-a / b)
  }

  function Rem(a: int, b: int): int
    requires b > 0
  {
    a - b * Quot(a, b)
  }

  /** openr2_timercmp with <. */
  predicate Sooner(x: TimeVal, y: TimeVal) { if x.sec == y.sec then x.usec < y.usec else x.sec < y.sec }

  /** When a timer of the given milliseconds expires; a sum of exactly a million microseconds is not carried. */
  function Expiry(now: TimeVal, ms: int): TimeVal {
    var sec := now.sec + Quot(ms, 1000);
    var usec := now.usec + Rem(ms, 1000) * 1000;
    if usec > 1000000 then TimeVal(sec + 1, usec - 1000000) else TimeVal(sec, usec)
  }

  function MsLeft(t: TimeVal, now: TimeVal): int {
    (t.sec - now.sec) * 1000 + Quot(t.usec - now.usec, 1000)
  }

  predicate Due(e: Entry, now: TimeVal) { MsLeft(e.time, now) <= 0 }

  /** The moment a timeval stands for, in microseconds. */
  function Micros(t: TimeVal): int { t.sec * 1000000 + t.usec }

  predicate IsClock(t: TimeVal) { 0 <= t.usec < 1000000 }

  predicate IsDeadline(t: TimeVal) { 0 <= t.usec <= 1000000 }

  // ---------------------------------------------------------------------------------------
  // The entries as a sequence

  /** The first slot whose entry expires strictly later. */
  function SlotFor(q: seq<Entry>, t: TimeVal): (i: nat)
    ensures i <= |q|
    ensures forall j :: 0 <= j < i ==> !Sooner(t, q[j].time)
    ensures i < |q| ==> Sooner(t, q[i].time)
  {
    if q == [] || Sooner(t, q[0].time) then 0
    else
      var i := SlotFor(q[1..], t);
      assert forall j :: 0 < j < i + 1 ==> q[j] == q[1..][j - 1];
      i + 1
  }

  function Inserted(q: seq<Entry>, e: Entry): seq<Entry> {
    var i := SlotFor(q, e.time); q[..i] + [e] + q[i..]
  }

  /** The slot of an id, or the length when no entry has it. */
  function SlotOf(q: seq<Entry>, id: int): (i: nat)
    ensures i <= |q|
    ensures forall j :: 0 <= j < i ==> q[j].id != id
    ensures i < |q| ==> q[i].id == id
  {
    if q == [] || q[0].id == id then 0
    else
      var i := SlotOf(q[1..], id);
      assert forall j :: 0 < j < i + 1 ==> q[j] == q[1..][j - 1];
      i + 1
  }

  function Removed(q: seq<Entry>, id: int): seq<Entry> {
    var i := SlotOf(q, id); if i < |q| then q[..i] + q[i + 1..] else q
  }

  function DueIn(q: seq<Entry>, now: TimeVal): seq<Entry> {
    if q == [] then []
    else if Due(q[0], now) then [q[0]] + DueIn(q[1..], now)
    else DueIn(q[1..], now)
  }

  function NotDueIn(q: seq<Entry>, now: TimeVal): seq<Entry> {
    if q == [] then []
    else if Due(q[0], now) then NotDueIn(q[1..], now)
    else [q[0]] + NotDueIn(q[1..], now)
  }

  /** x may stand before y: not after it in time, and before it in the order of addition when the times are equal. */
  predicate InPlace(x: Entry, y: Entry) {
    !Sooner(y.time, x.time) && x.id != y.id && (x.time == y.time ==> x.id < y.id)
  }

  /** The array is in order, and every id in it has been given out. */
  ghost predicate InOrder(q: seq<Entry>, lastId: int) {
    && (forall i, j :: 0 <= i < j < |q| ==> InPlace(q[i], q[j]))
    && (forall i :: 0 <= i < |q| ==> 1 <= q[i].id <= lastId)
  }

  lemma InsertedInOrder(q: seq<Entry>, e: Entry, lastId: int)
    requires InOrder(q, lastId) && lastId >= 0 && e.id == lastId + 1
    ensures InOrder(Inserted(q, e), lastId + 1)
  {
    var k, r := SlotFor(q, e.time), Inserted(q, e);
    forall i, j | 0 <= i < j < |r| ensures InPlace(r[i], r[j]) {
      if i < k && j == k { assert r[i] == q[i]; }
      else if i == k { BehindSlot(q, e, lastId, j - 1); }
      else { assert InPlace(q[if i < k then i else i - 1], q[if j < k then j else j - 1]); }
    }
  }

  lemma BehindSlot(q: seq<Entry>, e: Entry, lastId: int, j: nat)
    requires InOrder(q, lastId) && e.id == lastId + 1 && SlotFor(q, e.time) <= j < |q|
    ensures InPlace(e, q[j])
  {
    var k := SlotFor(q, e.time);
    if k < j { assert InPlace(q[k], q[j]); }
  }

  lemma RemovedInOrder(q: seq<Entry>, id: int, lastId: int)
    requires InOrder(q, lastId)
    ensures InOrder(Removed(q, id), lastId)
  {
    var k, r := SlotOf(q, id), Removed(q, id);
    if k < |q| {
      forall i, j | 0 <= i < j < |r| ensures InPlace(r[i], r[j]) {
        assert InPlace(q[if i < k then i else i + 1], q[if j < k then j else j + 1]);
      }
    }
  }

  /** Cancelling the entry just inserted leaves the array as it was. */
  lemma CancelUndoesAdd(q: seq<Entry>, e: Entry)
    requires forall i :: 0 <= i < |q| ==> q[i].id != e.id
    ensures e in Inserted(q, e) && Removed(Inserted(q, e), e.id) == q
  {
    var k, r := SlotFor(q, e.time), Inserted(q, e);
    assert r[k] == e && r[..k] == q[..k] && r[k + 1..] == q[k..];
    forall i | 0 <= i < k ensures r[i].id != e.id { assert r[i] == q[i]; }
    IdReached(r, e.id, k);
    assert q == q[..k] + q[k..];
  }

  /** Cancelling takes away the entry with the id, and no other. */
  lemma RemovedExactly(q: seq<Entry>, lastId: int, id: int, e: Entry)
    requires InOrder(q, lastId)
    ensures e in Removed(q, id) <==> e in q && e.id != id
  {
    var k, r := SlotOf(q, id), Removed(q, id);
    if k < |q| {
      assert q == q[..k] + [q[k]] + q[k + 1..];
      forall i | 0 <= i < |r| ensures r[i].id != id {
        var j := if i < k then i else i + 1;
        assert r[i] == q[j] && (if j < k then InPlace(q[j], q[k]) else InPlace(q[k], q[j]));
      }
    }
  }

  // ---------------------------------------------------------------------------------------
  // The order in real time

  lemma ExpiryIsDeadline(now: TimeVal, ms: int)
    requires IsClock(now) && ms >= 0
    ensures IsDeadline(Expiry(now, ms)) && Micros(Expiry(now, ms)) == Micros(now) + 1000 * ms
  {
    assert ms == 1000 * (ms / 1000) + ms % 1000;
    assert Rem(ms, 1000) == ms % 1000;
  }

  /**
   The array is sorted by real deadline. Entries with one deadline stand in the order of addition, except that
   one written with a million microseconds stands before one written with the next full second.
   */
  lemma RealOrder(q: seq<Entry>, lastId: int, i: nat, j: nat)
    requires InOrder(q, lastId) && i < j < |q| && IsDeadline(q[i].time) && IsDeadline(q[j].time)
    ensures Micros(q[i].time) <= Micros(q[j].time)
    ensures Micros(q[i].time) == Micros(q[j].time) ==>
              q[i].id < q[j].id || (q[i].time.usec == 1000000 && q[j].time.usec == 0)
  {
    assert InPlace(q[i], q[j]);
  }

  /** A new entry goes behind those with its own deadline exactly unless it carries the million and they do not. */
  lemma TieRule(q: seq<Entry>, e: Entry, lastId: int, i: nat)
    requires InOrder(q, lastId) && i < |q| && IsDeadline(q[i].time) && IsDeadline(e.time)
    requires Micros(q[i].time) == Micros(e.time)
    ensures SlotFor(q, e.time) <= i <==> e.time.usec == 1000000 && q[i].time.usec == 0
  {
    var k := SlotFor(q, e.time);
    if k < i { assert InPlace(q[k], q[i]); }
  }

  /** Two timers due at the same moment, called back in the reverse of the order in which they were added. */
  lemma TieReversed()
    ensures var first := Entry(Expiry(TimeVal(0, 0), 1000), Seize, 2);
            var second := Entry(Expiry(TimeVal(0, 500000), 500), Answer, 3);
            Micros(first.time) == Micros(second.time) && Inserted(Inserted([], first), second) == [second, first]
  {
    var first := Entry(Expiry(TimeVal(0, 0), 1000), Seize, 2);
    var second := Entry(Expiry(TimeVal(0, 500000), 500), Answer, 3);
    assert first.time == TimeVal(1, 0) && second.time == TimeVal(0, 1000000);
    assert Inserted([], first) == [first];
    assert SlotFor([first], second.time) == 0;
  }

  // ---------------------------------------------------------------------------------------
  // What is due

  /**
   Everything whose deadline has passed is due and nothing with a millisecond or more left. In the last
   millisecond an entry is due unless its deadline lies in the next second.
   */
  lemma DueExactly(e: Entry, now: TimeVal)
    requires IsClock(now) && IsDeadline(e.time)
    ensures var left := Micros(e.time) - Micros(now);
            Due(e, now) <==> left <= 0 || (left < 1000 && now.usec <= e.time.usec)
  {
    var s, u := e.time.sec - now.sec, e.time.usec - now.usec;
    if u >= 0 { assert u == 1000 * (u / 1000) + u % 1000; }
    else { assert -u == 1000 * (-u / 1000) + (-u) % 1000; }
    if s < 0 { assert s <= -1; } else if s > 0 { assert s >= 1; }
  }

  ghost predicate Deadlines(q: seq<Entry>) { forall i :: 0 <= i < |q| ==> IsDeadline(q[i].time) }

  /** Whatever stands before a due entry is due. */
  lemma DueDownward(q: seq<Entry>, lastId: int, now: TimeVal, i: nat, j: nat)
    requires InOrder(q, lastId) && Deadlines(q) && IsClock(now) && i < j < |q| && Due(q[j], now)
    ensures Due(q[i], now)
  {
    assert InPlace(q[i], q[j]);
    DueExactly(q[i], now);
    DueExactly(q[j], now);
  }

  /** Sleeping for the time to the next event misses its deadline by less than a millisecond either way. */
  lemma WakesInTime(e: Entry, now: TimeVal)
    requires IsClock(now) && IsDeadline(e.time) && !Due(e, now)
    ensures var wake := Micros(now) + 1000 * MsLeft(e.time, now);
            Micros(now) < wake && wake - 1000 < Micros(e.time) < wake + 1000
  {
    var u := e.time.usec - now.usec;
    if u >= 0 { assert u == 1000 * (u / 1000) + u % 1000; }
    else { assert -u == 1000 * (-u / 1000) + (-u) % 1000; }
  }

  /** The due entries are a prefix of the array and the others the rest, both in the order of the array. */
  lemma {:induction false} DueIsPrefix(q: seq<Entry>, lastId: int, now: TimeVal)
    requires InOrder(q, lastId) && Deadlines(q) && IsClock(now)
    ensures var n := |DueIn(q, now)|; n <= |q| && DueIn(q, now) == q[..n] && NotDueIn(q, now) == q[n..]
  {
    if q != [] {
      assert InOrder(q[1..], lastId) by { assert forall i :: 0 <= i < |q[1..]| ==> q[1..][i] == q[i + 1]; }
      DueIsPrefix(q[1..], lastId, now);
      var n := |DueIn(q[1..], now)|;
      if Due(q[0], now) {
        assert q[..n + 1] == [q[0]] + q[1..][..n];
        assert q[n + 1..] == q[1..][n..];
      } else if n > 0 {
        DueIsDue(q[1..], now, 0);
        assert DueIn(q[1..], now)[0] == q[1];
        DueDownward(q, lastId, now, 0, 1);
      } else {
        assert DueIn(q, now) == DueIn(q[1..], now);
        assert q == [q[0]] + q[1..];
      }
    }
  }

  lemma {:induction false} DueIsDue(q: seq<Entry>, now: TimeVal, k: nat)
    requires k < |DueIn(q, now)|
    ensures DueIn(q, now)[k] in q && Due(DueIn(q, now)[k], now)
  {
    if Due(q[0], now) {
      if k > 0 { DueIsDue(q[1..], now, k - 1); }
    } else {
      DueIsDue(q[1..], now, k);
    }
  }

  /** Nothing is lost: each entry is either due or stays. */
  lemma {:induction false} PassPartitions(q: seq<Entry>, now: TimeVal)
    ensures multiset(DueIn(q, now)) + multiset(NotDueIn(q, now)) == multiset(q)
  {
    if q != [] {
      PassPartitions(q[1..], now);
      assert q == [q[0]] + q[1..];
    }
  }

  // ---------------------------------------------------------------------------------------
  // Cancelling what is due, one entry after the other

  /** The array after the first n due entries have been cancelled. */
  function WithoutDue(q: seq<Entry>, now: TimeVal, n: int): seq<Entry> {
    if q == [] || n <= 0 then q
    else if Due(q[0], now) then WithoutDue(q[1..], now, n - 1)
    else [q[0]] + WithoutDue(q[1..], now, n)
  }

  ghost predicate DistinctIds(q: seq<Entry>) {
    q != [] ==> (forall e :: e in q[1..] ==> e.id != q[0].id) && DistinctIds(q[1..])
  }

  lemma {:induction false} InOrderDistinct(q: seq<Entry>, lastId: int)
    requires InOrder(q, lastId)
    ensures DistinctIds(q)
  {
    if q != [] {
      assert forall i :: 0 <= i < |q[1..]| ==> q[1..][i] == q[i + 1];
      assert forall i :: 0 < i < |q| ==> InPlace(q[0], q[i]);
      InOrderDistinct(q[1..], lastId);
    }
  }

  lemma {:induction false} CancelNextDue(q: seq<Entry>, now: TimeVal, n: nat)
    requires DistinctIds(q) && n < |DueIn(q, now)|
    ensures Removed(WithoutDue(q, now, n), DueIn(q, now)[n].id) == WithoutDue(q, now, n + 1)
  {
    var rest := q[1..];
    if !Due(q[0], now) {
      CancelNextDue(rest, now, n);
      var e := DueIn(rest, now)[n];
      assert e.id != q[0].id by { DueIsDue(rest, now, n); }
      HeadStays(q[0], WithoutDue(rest, now, n), e.id);
    } else if n > 0 {
      CancelNextDue(rest, now, n - 1);
      assert DueIn(q, now)[n] == DueIn(rest, now)[n - 1];
    } else {
      HeadGoes(q);
    }
  }

  lemma HeadGoes(q: seq<Entry>)
    requires q != []
    ensures Removed(q, q[0].id) == q[1..]
  {
    assert SlotOf(q, q[0].id) == 0;
  }

  lemma HeadStays(e: Entry, q: seq<Entry>, id: int)
    requires e.id != id
    ensures Removed([e] + q, id) == [e] + Removed(q, id)
  {
    var r := [e] + q;
    assert r[1..] == q;
    var i := SlotOf(q, id);
    assert SlotOf(r, id) == i + 1;
    if i < |q| {
      assert r[..i + 1] == [e] + q[..i];
      assert r[i + 2..] == q[i + 1..];
      assert r[..i + 1] + r[i + 2..] == [e] + (q[..i] + q[i + 1..]);
    }
  }

  lemma {:induction false} AllDueCancelled(q: seq<Entry>, now: TimeVal)
    ensures WithoutDue(q, now, |DueIn(q, now)|) == NotDueIn(q, now)
  {
    if q != [] { AllDueCancelled(q[1..], now); }
  }

  // ---------------------------------------------------------------------------------------
  // The live timers of the protocol

  predicate HasId(q: seq<Entry>, id: int) { SlotOf(q, id) < |q| }

  /** The live timers as the protocol sees them: purposes by id. */
  function LiveOf(q: seq<Entry>): (live: map<int, Timer>)
    ensures forall id :: id in live <==> HasId(q, id)
  {
    if q == [] then map[]
    else
      assert forall id :: HasId(q, id) <==> id == q[0].id || HasId(q[1..], id);
      LiveOf(q[1..])[q[0].id := q[0].callback]
  }

  lemma {:induction false} LiveInserted(q: seq<Entry>, e: Entry)
    requires !HasId(q, e.id)
    ensures LiveOf(Inserted(q, e)) == LiveOf(q)[e.id := e.callback]
  {
    var r := Inserted(q, e);
    if SlotFor(q, e.time) == 0 {
      assert r == [e] + q && r[1..] == q;
    } else {
      assert q == [q[0]] + q[1..];
      InsertedBehind(q[0], q[1..], e);
      LiveInserted(q[1..], e);
      assert r[1..] == Inserted(q[1..], e);
    }
  }

  lemma InsertedBehind(h: Entry, q: seq<Entry>, e: Entry)
    requires !Sooner(e.time, h.time)
    ensures Inserted([h] + q, e) == [h] + Inserted(q, e)
  {
    var r := [h] + q;
    assert r[1..] == q;
    var i := SlotFor(q, e.time);
    assert SlotFor(r, e.time) == i + 1;
    assert r[..i + 1] == [h] + q[..i];
    assert r[i + 1..] == q[i..];
    assert r[..i + 1] + [e] + r[i + 1..] == [h] + (q[..i] + [e] + q[i..]);
  }

  lemma {:induction false} LiveRemoved(q: seq<Entry>, id: int)
    requires DistinctIds(q)
    ensures LiveOf(Removed(q, id)) == LiveOf(q) - {id}
  {
    if q == [] {
    } else if q[0].id == id {
      HeadGoes(q);
      HeadIdUnique(q);
      assert LiveOf(q) - {id} == LiveOf(q[1..]);
    } else {
      LiveRemoved(q[1..], id);
      assert q == [q[0]] + q[1..];
      HeadStays(q[0], q[1..], id);
      PutAndDrop(LiveOf(q[1..]), q[0].id, q[0].callback, id);
    }
  }

  lemma PutAndDrop(m: map<int, Timer>, k: int, t: Timer, id: int)
    requires k != id
    ensures m[k := t] - {id} == (m - {id})[k := t]
  {
  }

  lemma HeadIdUnique(q: seq<Entry>)
    requires DistinctIds(q) && q != []
    ensures q[0].id !in LiveOf(q[1..])
  {
  }

  lemma {:induction false} LiveSize(q: seq<Entry>)
    requires DistinctIds(q)
    ensures |LiveOf(q)| == |q|
  {
    if q != [] {
      LiveSize(q[1..]);
      HeadIdUnique(q);
    }
  }

  // ---------------------------------------------------------------------------------------
  // The scheduler

  class TimerQueue {
    const slots: array<Entry>
    var count: nat
    var lastId: int
    var ids: map<Timer, int>

    ghost predicate Valid()
      reads this, slots
    {
      slots.Length == P.MAX_SCHED_TIMERS && count <= slots.Length && lastId >= 1 && InOrder(slots[..count], lastId)
    }

    ghost function Contents(): seq<Entry>
      reads this, slots
      requires Valid()
    {
      slots[..count]
    }

    /** The timers of the channel as the protocol sees them. */
    ghost function View(): P.TimerTable
      reads this, slots
      requires Valid()
    {
      P.TimerTable(lastId, ids, LiveOf(slots[..count]))
    }

    constructor ()
      ensures Valid() && fresh(slots) && View() == P.NO_TIMERS
    {
      slots := new Entry[P.MAX_SCHED_TIMERS](_ => EMPTY_SLOT);
      count := 0;
      lastId := 1;
      ids := map[];
    }

    /** Opens a slot by moving the rest of the array up. */
    method InsertAt(i: nat, e: Entry)
      requires i <= count < slots.Length
      modifies this`count, slots
      ensures count == old(count) + 1
      ensures var q := old(slots[..count]); slots[..count] == q[..i] + [e] + q[i..]
    {
      forall k | i <= k < count { slots[k + 1] := slots[k]; }
      slots[i] := e;
      count := count + 1;
    }

    /** Clears a slot and moves the rest of the array down over it. */
    method RemoveAt(i: nat)
      requires i < count <= slots.Length
      modifies this`count, slots
      ensures count == old(count) - 1
      ensures var q := old(slots[..count]); slots[..count] == q[..i] + q[i + 1..]
    {
      slots[i] := EMPTY_SLOT;
      if i < count - 1 {
        forall k | i < k < count { slots[k - 1] := slots[k]; }
      }
      count := count - 1;
    }

    /** openr2_chan_add_timer: the id of the new timer, or -1 when the array is full. */
    method AddTimer(now: TimeVal, ms: int, callback: Timer) returns (id: int)
      requires Valid()
      modifies this`count, this`lastId, slots
      ensures Valid()
      ensures old(count) == P.MAX_SCHED_TIMERS ==> id == -1 && lastId == old(lastId) && Contents() == old(Contents())
      ensures old(count) < P.MAX_SCHED_TIMERS ==>
                && id == lastId == old(lastId) + 1
                && Contents() == Inserted(old(Contents()), Entry(Expiry(now, ms), callback, id))
      ensures Table(slots[..count], lastId) == After(old(Table(slots[..count], lastId)), Add(now, ms, callback))
    {
      ghost var before := Table(slots[..count], lastId);
      if count == slots.Length {
        return -1;
      }
      var sec := now.sec + Quot(ms, 1000);
      var usec := now.usec + Rem(ms, 1000) * 1000;
      if usec > 1000000 {
        sec := sec + 1;
        usec := usec - 1000000;
      }
      lastId := lastId + 1;
      id := lastId;
      var timer := Entry(TimeVal(sec, usec), callback, id);
      ghost var q := slots[..count];
      var i := 0;
      while i < count && !Sooner(timer.time, slots[i].time)
        invariant i <= count
        invariant forall j :: 0 <= j < i ==> !Sooner(timer.time, q[j].time)
      {
        i := i + 1;
      }
      SlotReached(q, timer.time, i);
      assert before == Table(q, lastId - 1) && timer.time == Expiry(now, ms);
      InsertAt(i, timer);
      InsertedInOrder(q, timer, lastId - 1);
    }

    /** openr2_chan_cancel_timer: what is left in the field that held the id, zero if an entry was cancelled. */
    method CancelTimer(id: int) returns (left: int)
      requires Valid()
      modifies this`count, slots
      ensures Valid()
      ensures id < 1 ==> left == id && Contents() == old(Contents())
      ensures id >= 1 ==> Contents() == Removed(old(Contents()), id)
      ensures id >= 1 ==> left == if HasId(old(Contents()), id) then 0 else id
      ensures Table(slots[..count], lastId) == After(old(Table(slots[..count], lastId)), CancelId(id))
    {
      left := id;
      if id < 1 {
        return;
      }
      ghost var q := slots[..count];
      var i := 0;
      while i < count
        invariant i <= count && left == id && slots[..count] == q && Valid()
        invariant forall j :: 0 <= j < i ==> q[j].id != id
      {
        if slots[i].id == id {
          RemoveAt(i);
          left := 0;
          IdReached(q, id, i);
          RemovedInOrder(q, id, lastId);
          return;
        }
        i := i + 1;
      }
      IdReached(q, id, i);
    }

    /** openr2_chan_cancel_all_timers. */
    method CancelAll()
      modifies this`count, this`lastId, this`ids, slots
      requires Valid()
      ensures Valid() && View() == P.NO_TIMERS
      ensures Table(slots[..count], lastId) == After(old(Table(slots[..count], lastId)), Clear)
    {
      count := 0;
      lastId := 1;
      ids := map[];
      forall k | 0 <= k < slots.Length { slots[k] := EMPTY_SLOT; }
    }

    /** The first loop of openr2_chan_handle_timers: copy what is due. */
    method CopyDue(now: TimeVal) returns (due: seq<Entry>)
      requires Valid()
      ensures due == DueIn(Contents(), now)
    {
      ghost var q := slots[..count];
      var toDispatch := new Entry[P.MAX_SCHED_TIMERS](_ => EMPTY_SLOT);
      var n, t := 0, 0;
      while t < count
        invariant n <= t <= |q| && Valid() && count == |q| && slots[..count] == q
        invariant toDispatch[..n] == DueIn(q[..t], now)
      {
        DueSnoc(q, now, t);
        if Due(slots[t], now) {
          toDispatch[n] := slots[t];
          n := n + 1;
        }
        t := t + 1;
      }
      assert q[..t] == q;
      due := toDispatch[..n];
    }

    /** The first two loops: what is due is copied, then cancelled. */
    method TakeDue(now: TimeVal) returns (due: seq<Entry>)
      requires Valid()
      modifies this`count, slots
      ensures Valid()
      ensures due == DueIn(old(Contents()), now) && Contents() == NotDueIn(old(Contents()), now)
      ensures Table(slots[..count], lastId) == After(old(Table(slots[..count], lastId)), Pass(now))
    {
      ghost var q := slots[..count];
      due := CopyDue(now);
      InOrderDistinct(q, lastId);
      var t := 0;
      while t < |due|
        invariant t <= |due| && Valid() && slots[..count] == WithoutDue(q, now, t)
      {
        CancelNextDue(q, now, t);
        DueIsDue(q, now, t);
        var _ := CancelTimer(due[t].id);
        t := t + 1;
      }
      AllDueCancelled(q, now);
    }

    /** openr2_chan_get_time_to_next_event: the milliseconds to the next expiry, or -1 with no timer. */
    method TimeToNextEvent(now: TimeVal) returns (ms: int)
      requires Valid()
      ensures ms == if Contents() == [] then -1
                    else if Due(Contents()[0], now) then 0 else MsLeft(Contents()[0].time, now)
    {
      if count == 0 {
        return -1;
      }
      ms := MsLeft(slots[0].time, now);
      if ms < 0 {
        ms := 0;
      }
    }

    // -------------------------------------------------------------------------------------
    // The two ways in which the protocol uses the scheduler

    /** Schedules a timer and keeps its id in the field of its purpose, if there is one. */
    method Schedule(now: TimeVal, ms: int, t: Timer) returns (full: bool)
      requires Valid()
      modifies this, slots
      ensures Valid() && View() == P.AddTimer(old(View()), t) && full == P.SlotsFull(old(View()))
    {
      InOrderDistinct(slots[..count], lastId);
      LiveSize(slots[..count]);
      full := count == slots.Length;
      ghost var q := slots[..count];
      var id := AddTimer(now, ms, t);
      if !full { LiveInserted(q, Entry(Expiry(now, ms), t, id)); }
      if t != SetCallDown {
        ids := ids[t := id];
      }
    }

    /** Cancels through the field of a purpose. */
    method Cancel(t: Timer)
      requires Valid()
      modifies this, slots
      ensures Valid() && View() == P.CancelTimer(old(View()), t)
    {
      var id := if t in ids then ids[t] else 0;
      ghost var q := slots[..count];
      InOrderDistinct(q, lastId);
      LiveRemoved(q, id);
      var left := CancelTimer(id);
      if left != id {
        ids := ids[t := left];
      }
    }
  }

  lemma {:induction false} DueIdsLive(q: seq<Entry>, now: TimeVal, id: int)
    requires HasId(DueIn(q, now), id)
    ensures HasId(q, id)
  {
    var k := SlotOf(DueIn(q, now), id);
    DueIsDue(q, now, k);
  }

  /** A pass takes the due timers out of what the protocol sees as live, and no others. */
  lemma {:induction false} PassTakesDue(q: seq<Entry>, now: TimeVal, id: int)
    requires DistinctIds(q)
    ensures id in LiveOf(NotDueIn(q, now)) <==> id in LiveOf(q) && !HasId(DueIn(q, now), id)
    ensures id in LiveOf(NotDueIn(q, now)) ==> LiveOf(NotDueIn(q, now))[id] == LiveOf(q)[id]
  {
    if q != [] {
      PassTakesDue(q[1..], now, id);
      HeadIdUnique(q);
      if HasId(DueIn(q[1..], now), id) { DueIdsLive(q[1..], now, id); }
      assert ([q[0]] + DueIn(q[1..], now))[1..] == DueIn(q[1..], now);
      assert ([q[0]] + NotDueIn(q[1..], now))[1..] == NotDueIn(q[1..], now);
    }
  }

  lemma SlotReached(q: seq<Entry>, t: TimeVal, i: nat)
    requires i <= |q| && (forall j :: 0 <= j < i ==> !Sooner(t, q[j].time)) && (i < |q| ==> Sooner(t, q[i].time))
    ensures SlotFor(q, t) == i
  {
  }

  lemma IdReached(q: seq<Entry>, id: int, i: nat)
    requires i <= |q| && (forall j :: 0 <= j < i ==> q[j].id != id) && (i < |q| ==> q[i].id == id)
    ensures SlotOf(q, id) == i
  {
  }

  lemma {:induction false} DueSnoc(q: seq<Entry>, now: TimeVal, t: nat)
    requires t < |q|
    ensures DueIn(q[..t + 1], now) == DueIn(q[..t], now) + if Due(q[t], now) then [q[t]] else []
  {
    if t == 0 {
      assert q[..1][1..] == [] && q[..0] == [];
    } else {
      DueSnoc(q[1..], now, t - 1);
      assert q[..t + 1][1..] == q[1..][..t];
      assert q[..t][1..] == q[1..][..t - 1];
    }
  }

  // ---------------------------------------------------------------------------------------
  // Whole runs of the scheduler

  datatype Op =
    | Add(now: TimeVal, ms: int, callback: Timer)
    | CancelId(id: int)
    | Pass(now: TimeVal)
    | Clear

  datatype Table = Table(q: seq<Entry>, lastId: int)

  /** What the methods of TimerQueue do to the entries and the last id, as they promise. */
  function After(s: Table, op: Op): Table {
    match op
    case Add(now, ms, callback) =>
      if |s.q| == P.MAX_SCHED_TIMERS then s
      else Table(Inserted(s.q, Entry(Expiry(now, ms), callback, s.lastId + 1)), s.lastId + 1)
    case CancelId(id) => if id < 1 then s else s.(q := Removed(s.q, id))
    case Pass(now) => s.(q := NotDueIn(s.q, now))
    case Clear => Table([], 1)
  }

  function AfterAll(ops: seq<Op>): Table
    decreases |ops|
  {
    if ops == [] then Table([], 1) else After(AfterAll(ops[..|ops| - 1]), ops[|ops| - 1])
  }

  predicate Lawful(op: Op) { op.Add? ==> IsClock(op.now) && op.ms >= 0 }

  ghost predicate Sound(s: Table) {
    InOrder(s.q, s.lastId) && Deadlines(s.q) && s.lastId >= 1 && |s.q| <= P.MAX_SCHED_TIMERS
  }

  lemma {:induction false} RunsStayInOrder(ops: seq<Op>)
    requires forall i :: 0 <= i < |ops| ==> Lawful(ops[i])
    ensures Sound(AfterAll(ops))
    decreases |ops|
  {
    if ops != [] {
      var op := ops[|ops| - 1];
      RunsStayInOrder(ops[..|ops| - 1]);
      assert Lawful(op);
      AfterKeeps(AfterAll(ops[..|ops| - 1]), op);
    }
  }

  lemma AfterKeeps(s: Table, op: Op)
    requires Sound(s) && Lawful(op)
    ensures Sound(After(s, op))
  {
    match op
    case Add(now, ms, callback) =>
      if |s.q| < P.MAX_SCHED_TIMERS {
        ExpiryIsDeadline(now, ms);
        AddKeeps(s, Entry(Expiry(now, ms), callback, s.lastId + 1));
      }
    case CancelId(id) => CancelKeeps(s, id);
    case Pass(now) => PassKeeps(s.q, s.lastId, now);
    case Clear =>
  }

  lemma AddKeeps(s: Table, e: Entry)
    requires Sound(s) && IsDeadline(e.time) && e.id == s.lastId + 1 && |s.q| < P.MAX_SCHED_TIMERS
    ensures Sound(Table(Inserted(s.q, e), e.id))
  {
    InsertedInOrder(s.q, e, s.lastId);
    var k, r := SlotFor(s.q, e.time), Inserted(s.q, e);
    forall i | 0 <= i < |r| ensures IsDeadline(r[i].time) {
      if i != k { assert r[i] == s.q[if i < k then i else i - 1]; }
    }
  }

  lemma CancelKeeps(s: Table, id: int)
    requires Sound(s)
    ensures Sound(s.(q := Removed(s.q, id)))
  {
    RemovedInOrder(s.q, id, s.lastId);
    var k, r := SlotOf(s.q, id), Removed(s.q, id);
    forall i | 0 <= i < |r| ensures IsDeadline(r[i].time) {
      assert r[i] == s.q[if i < k then i else i + 1];
    }
  }

  lemma {:induction false} PassKeeps(q: seq<Entry>, lastId: int, now: TimeVal)
    requires InOrder(q, lastId) && Deadlines(q)
    ensures var r := NotDueIn(q, now); InOrder(r, lastId) && Deadlines(r) && |r| <= |q| && forall e :: e in r ==> e in q
  {
    if q != [] {
      var rest, r := q[1..], NotDueIn(q[1..], now);
      assert forall i :: 0 <= i < |rest| ==> rest[i] == q[i + 1];
      PassKeeps(rest, lastId, now);
      assert forall i :: 0 <= i < |r| ==> r[i] in rest;
      assert forall i :: 0 < i < |q| ==> InPlace(q[0], q[i]);
    }
  }

  /**
   After any sequence of additions, cancellations and passes, a pass calls back a prefix of the array, in order
   of deadline: all that is past due, nothing with a millisecond or more left; the rest stays as it was.
   */
  lemma PassAfterAnyRun(ops: seq<Op>, now: TimeVal)
    requires (forall i :: 0 <= i < |ops| ==> Lawful(ops[i])) && IsClock(now)
    ensures var q := AfterAll(ops).q; var n := |DueIn(q, now)|;
            && n <= |q| && DueIn(q, now) == q[..n] && NotDueIn(q, now) == q[n..]
            && (forall i, j :: 0 <= i < j < |q| ==> Micros(q[i].time) <= Micros(q[j].time))
            && (forall i :: 0 <= i < n ==> Micros(q[i].time) < Micros(now) + 1000)
            && (forall i :: n <= i < |q| ==> Micros(q[i].time) > Micros(now))
  {
    RunsStayInOrder(ops);
    var q, lastId := AfterAll(ops).q, AfterAll(ops).lastId;
    DueIsPrefix(q, lastId, now);
    var n := |DueIn(q, now)|;
    forall i, j | 0 <= i < j < |q| ensures Micros(q[i].time) <= Micros(q[j].time) { RealOrder(q, lastId, i, j); }
    forall i | 0 <= i < n ensures Micros(q[i].time) < Micros(now) + 1000 {
      DueIsDue(q, now, i);
      DueExactly(DueIn(q, now)[i], now);
    }
    forall i | n <= i < |q| ensures Micros(q[i].time) > Micros(now) {
      NotDueIsNotDue(q, now, i - n);
      DueExactly(q[i], now);
    }
  }

  lemma {:induction false} NotDueIsNotDue(q: seq<Entry>, now: TimeVal, k: nat)
    requires k < |NotDueIn(q, now)|
    ensures !Due(NotDueIn(q, now)[k], now)
  {
    if Due(q[0], now) {
      NotDueIsNotDue(q[1..], now, k);
    } else if k > 0 {
      NotDueIsNotDue(q[1..], now, k - 1);
    }
  }
}
