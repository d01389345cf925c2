/**
 One reader and one writer on a ring queue, without a lock. A call is taken apart into the snapshot of the two
 pointers, the copying of each byte and the publication of the new pointer, and the steps of the two sides may
 interleave in any way; what a side sees of the other's pointer may be any value that pointer has had since.
 */
module QueueSharing {
  import opened Queue

  // ---------------------------------------------------------------------------------------
  // Positions

  /** The cell of the n-th byte ever put into the queue. */
  function Phys(n: nat, size: int): (c: int)
    requires size >= 1
    ensures 0 <= c < size
  {
    if n == 0 then 0 else if Phys(n - 1, size) + 1 == size then 0 else Phys(n - 1, size) + 1
  }

  /** The value of a pointer that bulk operations have moved n bytes: one past the end after a full lap. */
  function Ptr(n: nat, size: int): (p: int)
    requires size >= 1
    ensures 0 <= p <= size
  {
    if n > 0 && Phys(n, size) == 0 then size else Phys(n, size)
  }

  lemma {:induction false} PhysAhead(n: nat, d: nat, size: int)
    requires size >= 1 && d <= size
    ensures Phys(n + d, size) == if Phys(n, size) + d < size then Phys(n, size) + d else Phys(n, size) + d - size
  {
    if d > 0 { PhysAhead(n, d - 1, size); }
  }

  /** Less than a lap apart, bytes are in different cells. */
  lemma CellsDiffer(m: nat, n: nat, size: int)
    requires size >= 1 && m < n < m + size
    ensures Phys(m, size) != Phys(n, size)
  {
    PhysAhead(m, n - m, size);
  }

  /** What the pointer arithmetic of the queue computes, in terms of bytes put in and taken out. */
  lemma PtrArithmetic(w: nat, r: nat, size: int)
    requires size >= 1 && r <= w < r + size
    ensures Pointers(Ptr(w, size), Ptr(r, size), size)
    ensures Used(Ptr(w, size), Ptr(r, size), size) == w - r
    ensures Room(Ptr(w, size), Ptr(r, size), size) == size - 1 - (w - r)
  {
    PhysAhead(r, w - r, size);
  }

  lemma PtrMoved(n: nat, d: nat, size: int)
    requires size >= 1 && 1 <= d <= size
    ensures Moved(Ptr(n, size), d, size) == Ptr(n + d, size)
  {
    PhysAhead(n, d, size);
  }

  lemma CellAhead(n: nat, d: nat, size: int)
    requires size >= 1 && d < size
    ensures Cell(Ptr(n, size) + d, size) == Phys(n + d, size)
  {
    PhysAhead(n, d, size);
  }

  // ---------------------------------------------------------------------------------------
  // The shared queue and the two sides

  /** A write under way: the snapshot of optr, the bytes being written, how many have been copied. */
  datatype Writer = NotWriting | Writing(optrSeen: int, w: seq<Byte>, done: nat)

  /** A read under way: the snapshot of iptr, how many bytes are being read, the bytes copied so far. */
  datatype Reader = NotReading | Reading(iptrSeen: int, n: nat, got: seq<Byte>)

  /**
   The queue with the calls under way. The last six fields are history: the bytes of completed writes and reads,
   how many bytes the other side has taken or put by what each side sees now, and by what it saw in its snapshot.
   */
  datatype Shared = Shared(
    data: seq<Byte>, iptr: int, optr: int, writer: Writer, reader: Reader,
    accepted: seq<Byte>, delivered: seq<Byte>, seenTaken: nat, seenPut: nat, snapTaken: nat, snapPut: nat)

  datatype Step =
    | WriterSees(taken: nat)
    | StartWrite(buf: seq<Byte>, atomic: bool)
    | WriteByte
    | PublishIptr
    | ReaderSees(put: nat)
    | StartRead(n: nat, atomic: bool)
    | ReadByte
    | PublishOptr

  function Fresh(capacity: nat): Shared {
    Shared(seq(capacity + 1, i => 0), 0, 0, NotWriting, NotReading, [], [], 0, 0, 0, 0)
  }

  /** real_len after the comparison with the length asked for: zero when there is nothing to do. */
  function Length(there: int, asked: nat, atomic: bool): int {
    if there >= asked then asked else if atomic then 0 else there
  }

  /** The cell of the k-th byte of a copy of n bytes from pointer p, by the one-step or the two-step branch. */
  function TargetOfWrite(iptr: int, optr: int, n: int, k: int, size: int): int {
    var toEnd := size - iptr;
    if iptr < optr || toEnd >= n then iptr + k else if k < toEnd then iptr + k else k - toEnd
  }

  function SourceOfRead(iptr: int, optr: int, n: int, k: int, size: int): int {
    var toEnd := size - optr;
    if iptr < optr && toEnd < n then (if k < toEnd then optr + k else k - toEnd) else optr + k
  }

  /** The step can be taken: a side starts a call when it has none under way and publishes when all is copied. */
  predicate Enabled(s: Shared, step: Step) {
    match step
    case WriterSees(taken) => s.seenTaken <= taken <= |s.delivered|
    case ReaderSees(put) => s.seenPut <= put <= |s.accepted|
    case StartWrite(_, _) => s.writer.NotWriting?
    case StartRead(_, _) => s.reader.NotReading?
    case WriteByte => s.writer.Writing? && s.writer.done < |s.writer.w|
    case ReadByte => s.reader.Reading? && |s.reader.got| < s.reader.n
    case PublishIptr => s.writer.Writing? && s.writer.done == |s.writer.w|
    case PublishOptr => s.reader.Reading? && |s.reader.got| == s.reader.n
  }

  /** memcpy of one byte; that the index is in the buffer is proved of every step. */
  function Store(data: seq<Byte>, i: int, b: Byte): seq<Byte> { if 0 <= i < |data| then data[i := b] else data }

  function Load(data: seq<Byte>, i: int): Byte { if 0 <= i < |data| then data[i] else 0 }

  function NewIptr(iptr: int, optr: int, n: int, size: int): int {
    if iptr < optr || size - iptr >= n then (if iptr + n > size then 0 else iptr + n) else n - (size - iptr)
  }

  function NewOptr(iptr: int, optr: int, n: int, size: int): int {
    if iptr < optr && size - optr < n then n - (size - optr) else if optr + n > size then 0 else optr + n
  }

  function Next(s: Shared, step: Step): Shared
    requires |s.data| >= 1 && Enabled(s, step)
  {
    var size := |s.data|;
    match step
    case WriterSees(taken) => s.(seenTaken := taken)
    case ReaderSees(put) => s.(seenPut := put)
    case StartWrite(buf, atomic) =>
      var optrSeen := Ptr(s.seenTaken, size);
      var n := Length(Room(s.iptr, optrSeen, size), |buf|, atomic);
      if 0 < n <= |buf| then s.(writer := Writing(optrSeen, buf[..n], 0), snapTaken := s.seenTaken) else s
    case StartRead(asked, atomic) =>
      var iptrSeen := Ptr(s.seenPut, size);
      var n := Length(Used(iptrSeen, s.optr, size), asked, atomic);
      if n > 0 then s.(reader := Reading(iptrSeen, n, []), snapPut := s.seenPut) else s
    case WriteByte =>
      var k := s.writer.done;
      s.(data := Store(s.data, TargetOfWrite(s.iptr, s.writer.optrSeen, |s.writer.w|, k, size), s.writer.w[k]),
         writer := s.writer.(done := k + 1))
    case ReadByte =>
      var b := Load(s.data, SourceOfRead(s.reader.iptrSeen, s.optr, s.reader.n, |s.reader.got|, size));
      s.(reader := s.reader.(got := s.reader.got + [b]))
    case PublishIptr =>
      s.(iptr := NewIptr(s.iptr, s.writer.optrSeen, |s.writer.w|, size),
         writer := NotWriting, accepted := s.accepted + s.writer.w)
    case PublishOptr =>
      s.(optr := NewOptr(s.reader.iptrSeen, s.optr, s.reader.n, size),
         reader := NotReading, delivered := s.delivered + s.reader.got)
  }

  // ---------------------------------------------------------------------------------------
  // What every step keeps

  /** The bytes accepted and, behind them, those of the write under way. */
  function Ahead(s: Shared): seq<Byte> {
    if s.writer.Writing? then s.accepted + s.writer.w else s.accepted
  }

  /** How many of them are in their cells. */
  function InPlace(s: Shared): int {
    |s.accepted| + if s.writer.Writing? then s.writer.done else 0
  }

  ghost predicate Stored(data: seq<Byte>, from: nat, to: nat, stream: seq<Byte>)
    requires |data| >= 1 && to <= |stream|
  {
    forall i: nat :: from <= i < to ==> data[Phys(i, |data|)] == stream[i]
  }

  ghost predicate Inv(s: Shared) {
    && Counts(s) && s.delivered <= s.accepted
    && Stored(s.data, |s.delivered|, InPlace(s), Ahead(s))
    && (s.reader.Reading? ==> s.delivered + s.reader.got <= s.accepted)
  }

  /** The part of the invariant that is about positions only. */
  ghost predicate Counts(s: Shared) {
    var size, put, taken := |s.data|, |s.accepted|, |s.delivered|;
    && size >= 1 && s.iptr == Ptr(put, size) && s.optr == Ptr(taken, size)
    && s.snapTaken <= s.seenTaken <= taken <= s.seenPut <= put < s.seenTaken + size
    && (s.writer.Writing? ==>
          && s.writer.optrSeen == Ptr(s.snapTaken, size) && s.writer.done <= |s.writer.w|
          && 0 < |s.writer.w| && put + |s.writer.w| < s.snapTaken + size)
    && (s.reader.Reading? ==>
          && s.reader.iptrSeen == Ptr(s.snapPut, size) && s.snapPut <= s.seenPut
          && taken + s.reader.n <= s.snapPut && 0 < s.reader.n && |s.reader.got| <= s.reader.n)
  }

  lemma CellOfWrite(s: Shared)
    requires Inv(s) && s.writer.Writing? && s.writer.done < |s.writer.w|
    ensures TargetOfWrite(s.iptr, s.writer.optrSeen, |s.writer.w|, s.writer.done, |s.data|) ==
            Phys(|s.accepted| + s.writer.done, |s.data|)
  {
    PtrArithmetic(|s.accepted|, s.snapTaken, |s.data|);
    CellAhead(|s.accepted|, s.writer.done, |s.data|);
  }

  lemma CellOfRead(s: Shared)
    requires Inv(s) && s.reader.Reading? && |s.reader.got| < s.reader.n
    ensures SourceOfRead(s.reader.iptrSeen, s.optr, s.reader.n, |s.reader.got|, |s.data|) ==
            Phys(|s.delivered| + |s.reader.got|, |s.data|)
  {
    PtrArithmetic(s.snapPut, |s.delivered|, |s.data|);
    CellAhead(|s.delivered|, |s.reader.got|, |s.data|);
  }

  lemma FreshInv(capacity: nat)
    ensures Inv(Fresh(capacity))
  {
  }

  lemma StartWriteKeeps(s: Shared, buf: seq<Byte>, atomic: bool)
    requires Inv(s) && Enabled(s, StartWrite(buf, atomic))
    ensures Inv(Next(s, StartWrite(buf, atomic)))
  {
    PtrArithmetic(|s.accepted|, s.seenTaken, |s.data|);
    var t := Next(s, StartWrite(buf, atomic));
    assert forall i: nat :: i < |s.accepted| ==> Ahead(t)[i] == Ahead(s)[i];
  }

  lemma StartReadKeeps(s: Shared, n: nat, atomic: bool)
    requires Inv(s) && Enabled(s, StartRead(n, atomic))
    ensures Inv(Next(s, StartRead(n, atomic)))
  {
    PtrArithmetic(s.seenPut, |s.delivered|, |s.data|);
    assert s.delivered + [] == s.delivered;
  }

  /** Storing the next byte of a stream less than a lap long leaves the others in place. */
  lemma StoredNext(data: seq<Byte>, from: nat, to: nat, stream: seq<Byte>)
    requires |data| >= 1 && from <= to < |stream| && to < from + |data|
    requires Stored(data, from, to, stream)
    ensures Stored(data[Phys(to, |data|) := stream[to]], from, to + 1, stream)
  {
    forall i: nat | from <= i < to ensures Phys(i, |data|) != Phys(to, |data|) {
      CellsDiffer(i, to, |data|);
    }
  }

  lemma WriteByteKeeps(s: Shared)
    requires Inv(s) && Enabled(s, WriteByte)
    ensures Inv(Next(s, WriteByte))
  {
    CellOfWrite(s);
    StoredNext(s.data, |s.delivered|, InPlace(s), Ahead(s));
  }

  lemma ReadByteKeeps(s: Shared)
    requires Inv(s) && Enabled(s, ReadByte)
    ensures Inv(Next(s, ReadByte))
  {
    CellOfRead(s);
    var i := |s.delivered| + |s.reader.got|;
    assert s.data[Phys(i, |s.data|)] == s.accepted[i];
    PrefixGrows(s.delivered + s.reader.got, s.accepted);
    assert s.delivered + (s.reader.got + [s.accepted[i]]) == (s.delivered + s.reader.got) + [s.accepted[i]];
  }

  lemma PrefixGrows(x: seq<Byte>, y: seq<Byte>)
    requires x <= y && |x| < |y|
    ensures x + [y[|x|]] <= y
  {
  }

  lemma PublishIptrKeeps(s: Shared)
    requires Inv(s) && Enabled(s, PublishIptr)
    ensures Inv(Next(s, PublishIptr))
  {
    PtrArithmetic(|s.accepted|, s.snapTaken, |s.data|);
    PtrMoved(|s.accepted|, |s.writer.w|, |s.data|);
    assert Ahead(Next(s, PublishIptr)) == Ahead(s);
    assert s.accepted <= Ahead(s);
  }

  lemma PublishOptrKeeps(s: Shared)
    requires Inv(s) && Enabled(s, PublishOptr)
    ensures Inv(Next(s, PublishOptr))
  {
    PtrArithmetic(s.snapPut, |s.delivered|, |s.data|);
    PtrMoved(|s.delivered|, s.reader.n, |s.data|);
  }

  lemma StepKeeps(s: Shared, step: Step)
    requires Inv(s) && Enabled(s, step)
    ensures Inv(Next(s, step))
  {
    match step
    case WriterSees(taken) =>
    case ReaderSees(put) =>
    case StartWrite(buf, atomic) => StartWriteKeeps(s, buf, atomic);
    case StartRead(n, atomic) => StartReadKeeps(s, n, atomic);
    case WriteByte => WriteByteKeeps(s);
    case ReadByte => ReadByteKeeps(s);
    case PublishIptr => PublishIptrKeeps(s);
    case PublishOptr => PublishOptrKeeps(s);
  }

  // ---------------------------------------------------------------------------------------
  // Runs

  ghost predicate RunsTo(s: Shared, steps: seq<Step>, t: Shared)
    decreases |steps|
  {
    if steps == [] then s == t
    else |s.data| >= 1 && Enabled(s, steps[0]) && RunsTo(Next(s, steps[0]), steps[1..], t)
  }

  lemma {:induction false} RunKeeps(s: Shared, steps: seq<Step>, t: Shared)
    requires Inv(s) && RunsTo(s, steps, t)
    ensures Inv(t)
    decreases |steps|
  {
    if steps != [] {
      StepKeeps(s, steps[0]);
      RunKeeps(Next(s, steps[0]), steps[1..], t);
    }
  }

  /** The cell of the k-th byte waiting to be read. */
  function UnreadCell(s: Shared, k: int): int { Cell(s.optr + k, |s.data|) }

  /**
   In every interleaving the bytes delivered, and those a read under way has copied so far, are the first of the
   bytes accepted; a write under way copies into the buffer and never into the cell of an unread byte, and a read
   under way copies from the buffer.
   */
  lemma SharingIsSafe(capacity: nat, steps: seq<Step>, s: Shared)
    requires RunsTo(Fresh(capacity), steps, s)
    ensures s.delivered <= s.accepted && |s.accepted| - |s.delivered| <= capacity
    ensures s.reader.Reading? ==> s.delivered + s.reader.got <= s.accepted
    ensures s.writer.Writing? && s.writer.done < |s.writer.w| ==>
              var target := TargetOfWrite(s.iptr, s.writer.optrSeen, |s.writer.w|, s.writer.done, |s.data|);
              && 0 <= target < |s.data|
              && forall k :: 0 <= k < |s.accepted| - |s.delivered| ==> target != UnreadCell(s, k)
    ensures s.reader.Reading? && |s.reader.got| < s.reader.n ==>
              0 <= SourceOfRead(s.reader.iptrSeen, s.optr, s.reader.n, |s.reader.got|, |s.data|) < |s.data|
  {
    FreshInv(capacity);
    RunKeeps(Fresh(capacity), steps, s);
    SizeKept(Fresh(capacity), steps, s);
    if s.writer.Writing? && s.writer.done < |s.writer.w| {
      CellOfWrite(s);
      forall k | 0 <= k < |s.accepted| - |s.delivered|
        ensures Phys(InPlace(s), |s.data|) != UnreadCell(s, k)
      {
        CellAhead(|s.delivered|, k, |s.data|);
        CellsDiffer(|s.delivered| + k, InPlace(s), |s.data|);
      }
    }
    if s.reader.Reading? && |s.reader.got| < s.reader.n { CellOfRead(s); }
  }

  lemma {:induction false} SizeKept(s: Shared, steps: seq<Step>, t: Shared)
    requires RunsTo(s, steps, t)
    ensures |t.data| == |s.data|
    decreases |steps|
  {
    if steps != [] { SizeKept(Next(s, steps[0]), steps[1..], t); }
  }

  // ---------------------------------------------------------------------------------------
  // What the calls achieve

  /**
   A write takes all it is given, as much as there is room for by what it sees of the reader, or nothing if atomic.
   */
  lemma WriteStarts(s: Shared, buf: seq<Byte>, atomic: bool)
    requires Inv(s) && s.writer.NotWriting?
    ensures var room := |s.data| - 1 - (|s.accepted| - s.seenTaken);
            var n := if |buf| <= room then |buf| else if atomic then 0 else room;
            var t := Next(s, StartWrite(buf, atomic));
            && 0 <= n <= |buf| && (t.writer.Writing? <==> n > 0) && (n == 0 ==> t == s)
            && (n > 0 ==> t.writer.w == buf[..n] && t.writer.done == 0)
            && t.(writer := NotWriting, snapTaken := s.snapTaken) == s
  {
    PtrArithmetic(|s.accepted|, s.seenTaken, |s.data|);
  }

  /** A read takes as many bytes as it asks for, as many as it sees there, or none if atomic. */
  lemma ReadStarts(s: Shared, asked: nat, atomic: bool)
    requires Inv(s) && s.reader.NotReading?
    ensures var there := s.seenPut - |s.delivered|;
            var n := if asked <= there then asked else if atomic then 0 else there;
            var t := Next(s, StartRead(asked, atomic));
            && 0 <= n <= asked && (t.reader.Reading? <==> n > 0) && (n == 0 ==> t == s)
            && (n > 0 ==> t.reader.n == n && t.reader.got == [])
            && t.(reader := NotReading, snapPut := s.snapPut) == s
  {
    PtrArithmetic(s.seenPut, |s.delivered|, |s.data|);
  }

  /**
   A look at the pointer of the other side is at any value it has had since the last one, the present one included.
   */
  lemma Looks(s: Shared, k: nat)
    requires Inv(s)
    ensures Enabled(s, WriterSees(k)) <==> s.seenTaken <= k <= |s.delivered|
    ensures Enabled(s, ReaderSees(k)) <==> s.seenPut <= k <= |s.accepted|
    ensures Enabled(s, WriterSees(|s.delivered|)) && Enabled(s, ReaderSees(|s.accepted|))
    ensures Enabled(s, WriterSees(k)) ==> Next(s, WriterSees(k)) == s.(seenTaken := k)
    ensures Enabled(s, ReaderSees(k)) ==> Next(s, ReaderSees(k)) == s.(seenPut := k)
  {
  }

  /** The steps the calls under way have to go: a byte at a time, and the publication. */
  function WriterWork(s: Shared): int { if s.writer.Writing? then |s.writer.w| - s.writer.done + 1 else 0 }
  function ReaderWork(s: Shared): int { if s.reader.Reading? then s.reader.n - |s.reader.got| + 1 else 0 }

  /**
   Exactly one step of a call under way can be taken, and it brings the call one step closer to its end; a step of the
   other side neither delays it nor changes what it moves.
   */
  lemma CallsGoOn(s: Shared, step: Step)
    requires Inv(s) && Enabled(s, step)
    ensures WriterWork(s) >= 0 && ReaderWork(s) >= 0
    ensures WriterWork(s) > 0 <==> Enabled(s, WriteByte) || Enabled(s, PublishIptr)
    ensures ReaderWork(s) > 0 <==> Enabled(s, ReadByte) || Enabled(s, PublishOptr)
    ensures step.WriteByte? || step.PublishIptr? ==> WriterWork(Next(s, step)) == WriterWork(s) - 1
    ensures step.ReadByte? || step.PublishOptr? ==> ReaderWork(Next(s, step)) == ReaderWork(s) - 1
    ensures step.ReaderSees? || step.StartRead? || step.ReadByte? || step.PublishOptr? ==>
              Next(s, step).writer == s.writer
    ensures step.WriterSees? || step.StartWrite? || step.WriteByte? || step.PublishIptr? ==>
              Next(s, step).reader == s.reader
  {
  }

  /** What the writes started in a run take, one behind the other. */
  function Written(s: Shared, steps: seq<Step>): seq<Byte>
    requires RunsFrom(s, steps)
    decreases |steps|
  {
    if steps == [] then []
    else
      var t := Next(s, steps[0]);
      (if steps[0].StartWrite? && t.writer.Writing? then t.writer.w else []) + Written(t, steps[1..])
  }

  /** How many bytes the reads started in a run take. */
  function Requested(s: Shared, steps: seq<Step>): nat
    requires RunsFrom(s, steps)
    decreases |steps|
  {
    if steps == [] then 0
    else
      var t := Next(s, steps[0]);
      (if steps[0].StartRead? && t.reader.Reading? then t.reader.n else 0) + Requested(t, steps[1..])
  }

  predicate RunsFrom(s: Shared, steps: seq<Step>)
    decreases |steps|
  {
    steps != [] ==> |s.data| >= 1 && Enabled(s, steps[0]) && RunsFrom(Next(s, steps[0]), steps[1..])
  }

  function Pending(s: Shared): nat { if s.reader.Reading? then s.reader.n else 0 }

  /** Nothing is lost: what a run accepts, or is about to, is what its writes took, and likewise for its reads. */
  lemma {:induction false} RunConserves(s: Shared, steps: seq<Step>, t: Shared)
    requires Inv(s) && RunsTo(s, steps, t) && RunsFrom(s, steps)
    ensures Ahead(t) == Ahead(s) + Written(s, steps)
    ensures |t.delivered| + Pending(t) == |s.delivered| + Pending(s) + Requested(s, steps)
    decreases |steps|
  {
    if steps == [] {
      assert Ahead(s) + [] == Ahead(s);
    } else {
      var u := Next(s, steps[0]);
      StepKeeps(s, steps[0]);
      StepConserves(s, steps[0]);
      RunConserves(u, steps[1..], t);
      var taken := if steps[0].StartWrite? && u.writer.Writing? then u.writer.w else [];
      assert Ahead(s) + taken + Written(u, steps[1..]) == Ahead(s) + (taken + Written(u, steps[1..]));
    }
  }

  lemma StepConserves(s: Shared, step: Step)
    requires Inv(s) && Enabled(s, step)
    ensures var u := Next(s, step);
            && Ahead(u) == Ahead(s) + (if step.StartWrite? && u.writer.Writing? then u.writer.w else [])
            && |u.delivered| + Pending(u) ==
               |s.delivered| + Pending(s) + (if step.StartRead? && u.reader.Reading? then u.reader.n else 0)
  {
    assert Ahead(s) + [] == Ahead(s);
  }

  /** The bytes in the queue at rest are those of the sequential queue with the same pointers. */
  lemma SequentialContents(s: Shared)
    requires Inv(s)
    ensures Pointers(s.iptr, s.optr, |s.data|)
    ensures Used(s.iptr, s.optr, |s.data|) == |s.accepted| - |s.delivered|
    ensures Span(s.data, s.optr, |s.accepted| - |s.delivered|) == s.accepted[|s.delivered|..]
  {
    var size, taken, n := |s.data|, |s.delivered|, |s.accepted| - |s.delivered|;
    PtrArithmetic(|s.accepted|, taken, size);
    forall k | 0 <= k < n ensures Span(s.data, s.optr, n)[k] == s.accepted[taken + k] {
      SpanAt(s.data, s.optr, n, k);
      CellAhead(taken, k, size);
      assert s.accepted[taken + k] == Ahead(s)[taken + k];
    }
  }
}
