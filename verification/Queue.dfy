/**
 The ring queue: a byte FIFO over a circular buffer and, on top of it, a queue of length-prefixed messages.
 A pointer moved by a bulk operation may rest one past the last cell, where it stands for the first.
 */
module Queue {

  type Byte = x: int | 0 <= x < 256

  // ---------------------------------------------------------------------------------------
  // The circular buffer as a sequence

  /** The bytes in count cells from start on, going round past the end. */
  ghost function Span(data: seq<Byte>, start: int, count: int): (s: seq<Byte>)
    requires 0 <= start <= |data| && 0 <= count <= |data|
    ensures |s| == count
  {
    if start + count <= |data| then data[start..start + count]
    else data[start..] + data[..start + count - |data|]
  }

  /** What is in the i-th cell once the bytes of w have been put into the cells from p on. */
  function PutByte(data: seq<Byte>, p: int, w: seq<Byte>, i: int): Byte
    requires 0 <= p <= |data| && |w| <= |data| && 0 <= i < |data|
  {
    if p <= i < p + |w| then w[i - p] else if i < p + |w| - |data| then w[i + |data| - p] else data[i]
  }

  /** The buffer after the bytes of w have been put into the cells from p on, going round past the end. */
  ghost function Put(data: seq<Byte>, p: int, w: seq<Byte>): (r: seq<Byte>)
    requires 0 <= p <= |data| && |w| <= |data|
    ensures |r| == |data|
  {
    seq(|data|, i requires 0 <= i < |data| => PutByte(data, p, w, i))
  }

  /** real_len of the readers: the number of bytes between the pointers. */
  function Used(iptr: int, optr: int, size: int): int {
    if iptr - optr < 0 then iptr - optr + size else iptr - optr
  }

  /** real_len of the writers: one cell is always left free. */
  function Room(iptr: int, optr: int, size: int): int {
    if optr - iptr - 1 < 0 then optr - iptr - 1 + size else optr - iptr - 1
  }

  /** The pointers of a queue used with whole operations; one lap ahead of a reader that never moved is excluded. */
  predicate Pointers(iptr: int, optr: int, size: int) {
    size >= 1 && 0 <= iptr <= size && 0 <= optr <= size && !(iptr == size && optr == 0)
  }

  lemma UsedAndRoom(iptr: int, optr: int, size: int)
    requires Pointers(iptr, optr, size)
    ensures 0 <= Used(iptr, optr, size) && 0 <= Room(iptr, optr, size)
    ensures Used(iptr, optr, size) + Room(iptr, optr, size) == size - 1
  {
  }

  /** Where a bulk operation leaves a pointer: one past the end if it gets exactly there. */
  function Moved(p: int, n: int, size: int): int {
    if p + n > size then p + n - size else p + n
  }

  /** The new optr of queue_read; the last test never succeeds. */
  function OptrAfter(iptr: int, optr: int, n: int, size: int): (p: int)
    requires Pointers(iptr, optr, size) && 0 < n <= Used(iptr, optr, size)
    ensures p == Moved(optr, n, size)
  {
    var toEnd := size - optr;
    if iptr < optr && toEnd < n then n - toEnd
    else if optr + n > size then 0
    else optr + n
  }

  /** The new iptr of queue_write, likewise. */
  function IptrAfter(iptr: int, optr: int, n: int, size: int): (p: int)
    requires Pointers(iptr, optr, size) && 0 < n <= Room(iptr, optr, size)
    ensures p == Moved(iptr, n, size)
  {
    var toEnd := size - iptr;
    if !(iptr < optr || toEnd >= n) then n - toEnd
    else if iptr + n > size then 0
    else iptr + n
  }

  function Cell(i: int, size: int): int { if i < size then i else i - size }

  lemma SpanAt(data: seq<Byte>, start: int, count: int, k: int)
    requires 0 <= start <= |data| && 0 <= k < count <= |data|
    ensures Span(data, start, count)[k] == data[Cell(start + k, |data|)]
  {
  }

  lemma PutAt(data: seq<Byte>, p: int, w: seq<Byte>, k: int)
    requires 0 <= p <= |data| && 0 <= k < |data| && |w| <= |data|
    ensures Put(data, p, w)[Cell(p + k, |data|)] == if k < |w| then w[k] else data[Cell(p + k, |data|)]
  {
  }

  /** Taking n bytes from the front moves the reader and leaves the rest. */
  lemma TakeFront(data: seq<Byte>, iptr: int, optr: int, n: int)
    requires Pointers(iptr, optr, |data|) && 0 < n <= Used(iptr, optr, |data|)
    ensures var size, used := |data|, Used(iptr, optr, |data|); var next := Moved(optr, n, size);
            && Pointers(iptr, next, size) && Used(iptr, next, size) == used - n
            && Span(data, optr, used) == Span(data, optr, n) + Span(data, next, used - n)
  {
    var size, used := |data|, Used(iptr, optr, |data|);
    TakenCount(iptr, optr, size, n);
    TakenSpan(data, optr, used, n);
  }

  lemma TakenCount(iptr: int, optr: int, size: int, n: int)
    requires Pointers(iptr, optr, size) && 0 < n <= Used(iptr, optr, size)
    ensures Pointers(iptr, Moved(optr, n, size), size) && Used(iptr, optr, size) < size
    ensures Used(iptr, Moved(optr, n, size), size) == Used(iptr, optr, size) - n
  {
  }

  lemma TakenSpan(data: seq<Byte>, optr: int, used: int, n: int)
    requires 0 <= optr <= |data| && 0 < n <= used < |data|
    ensures Span(data, optr, used) == Span(data, optr, n) + Span(data, Moved(optr, n, |data|), used - n)
  {
    var all, front, rest := Span(data, optr, used), Span(data, optr, n), Span(data, Moved(optr, n, |data|), used - n);
    forall k | 0 <= k < used ensures all[k] == if k < n then front[k] else rest[k - n] {
      TakenAt(data, optr, used, n, k);
    }
    assert all == front + rest;
  }

  lemma TakenAt(data: seq<Byte>, optr: int, used: int, n: int, k: int)
    requires 0 <= optr <= |data| && 0 < n <= used < |data| && 0 <= k < used
    ensures Span(data, optr, used)[k] ==
            if k < n then Span(data, optr, n)[k] else Span(data, Moved(optr, n, |data|), used - n)[k - n]
  {
    SpanAt(data, optr, used, k);
    if k < n { SpanAt(data, optr, n, k); } else { SpanAt(data, Moved(optr, n, |data|), used - n, k - n); }
  }

  /** Putting bytes into the free cells moves the writer and appends them; no byte in the queue is touched. */
  lemma PutBack(data: seq<Byte>, iptr: int, optr: int, w: seq<Byte>)
    requires Pointers(iptr, optr, |data|) && 0 < |w| <= Room(iptr, optr, |data|)
    ensures var size, used := |data|, Used(iptr, optr, |data|); var next := Moved(iptr, |w|, size);
            && Pointers(next, optr, size) && Used(next, optr, size) == used + |w| <= size
            && Span(Put(data, iptr, w), optr, used + |w|) == Span(data, optr, used) + w
  {
    UsedAndRoom(iptr, optr, |data|);
    var size, used := |data|, Used(iptr, optr, |data|);
    var put := Put(data, iptr, w);
    forall k | 0 <= k < used + |w|
      ensures Span(put, optr, used + |w|)[k] == (Span(data, optr, used) + w)[k]
    {
      SpanAt(put, optr, used + |w|, k);
      if k < used {
        SpanAt(data, optr, used, k);
        PutLeavesUsed(data, iptr, optr, w, k);
      } else {
        PutAt(data, iptr, w, k - used);
        assert Cell(optr + k, size) == Cell(iptr + (k - used), size) || iptr == size;
      }
    }
  }

  lemma PutLeavesUsed(data: seq<Byte>, iptr: int, optr: int, w: seq<Byte>, k: int)
    requires Pointers(iptr, optr, |data|) && 0 < |w| <= Room(iptr, optr, |data|)
    requires 0 <= k < Used(iptr, optr, |data|)
    ensures Put(data, iptr, w)[Cell(optr + k, |data|)] == data[Cell(optr + k, |data|)]
  {
  }

  // ---------------------------------------------------------------------------------------
  // Single bytes

  /** Where queue_read_byte and queue_write_byte leave a pointer: never past the end. */
  function Stepped(p: int, size: int): int { if p + 1 >= size then 0 else p + 1 }

  /** The pointer of a reader that has taken n bytes one by one. */
  function SteppedBy(p: int, n: nat, size: int): int {
    if n == 0 then p else Stepped(SteppedBy(p, n - 1, size), size)
  }

  /**
   Reading a single byte takes the first byte of the queue exactly when the writer does not rest past the end with
   the reader on the last cell; there the reader goes to the first cell and the queue seems full, not empty.
   */
  lemma ByteReadRight(data: seq<Byte>, iptr: int, optr: int)
    requires Pointers(iptr, optr, |data|) && optr < |data| && Used(iptr, optr, |data|) > 0
    ensures var size, used := |data|, Used(iptr, optr, |data|); var next := Stepped(optr, size);
            && (Pointers(iptr, next, size) <==> !(iptr == size && optr == size - 1))
            && (Pointers(iptr, next, size) ==>
                  Used(iptr, next, size) == used - 1 &&
                  Span(data, optr, used) == [data[optr]] + Span(data, next, used - 1))
            && (!Pointers(iptr, next, size) ==> used == 1 && Used(iptr, next, size) == size)
  {
    var size, used := |data|, Used(iptr, optr, |data|);
    var next := Stepped(optr, size);
    if !(iptr == size && optr == size - 1) {
      forall k | 0 <= k < used ensures Span(data, optr, used)[k] == ([data[optr]] + Span(data, next, used - 1))[k] {
        SpanAt(data, optr, used, k);
        if k > 0 { SpanAt(data, next, used - 1, k - 1); }
      }
    }
  }

  /**
   A writer that fills the buffer exactly to its end, after a single reader has moved off the first cell, is never
   caught up with by reading single bytes: the same cells are read over and over.
   */
  lemma {:induction false} ByteReaderNeverDone(size: int, start: int, n: nat)
    requires 1 <= start < size
    ensures Moved(start, size - start, size) == size && Pointers(size, start, size)
    ensures 0 <= SteppedBy(start, n, size) < size && Used(size, SteppedBy(start, n, size), size) > 0
  {
    if n > 0 { ByteReaderNeverDone(size, start, n - 1); }
  }

  lemma ByteWrittenRight(data: seq<Byte>, iptr: int, optr: int, b: Byte)
    requires Pointers(iptr, optr, |data|) && iptr < |data| && Room(iptr, optr, |data|) > 0
    ensures var size, used := |data|, Used(iptr, optr, |data|); var next := Stepped(iptr, size);
            && Pointers(next, optr, size) && Used(next, optr, size) == used + 1 <= size
            && Span(data[iptr := b], optr, used + 1) == Span(data, optr, used) + [b]
  {
    UsedAndRoom(iptr, optr, |data|);
    var size, used := |data|, Used(iptr, optr, |data|);
    var put := data[iptr := b];
    forall k | 0 <= k < used + 1 ensures Span(put, optr, used + 1)[k] == (Span(data, optr, used) + [b])[k] {
      SpanAt(put, optr, used + 1, k);
      if k < used { SpanAt(data, optr, used, k); }
    }
  }

  // ---------------------------------------------------------------------------------------
  // Messages

  /** The two bytes of a uint16_t in the order of the host. */
  function Prefix(n: int, bigEndian: bool): (p: seq<Byte>)
    requires 0 <= n < 0x1_0000
    ensures |p| == 2 && Value(p, bigEndian) == n
  {
    if bigEndian then [n / 256, n % 256] else [n % 256, n / 256]
  }

  function Value(p: seq<Byte>, bigEndian: bool): (n: int)
    requires |p| == 2
    ensures 0 <= n < 0x1_0000
  {
    if bigEndian then 256 * (p[0] as int) + p[1] as int else 256 * (p[1] as int) + p[0] as int
  }

  function Frame(m: seq<Byte>, bigEndian: bool): seq<Byte>
    requires |m| < 0x1_0000
  {
    Prefix(|m|, bigEndian) + m
  }

  /** The bytes are a sequence of whole messages. */
  predicate Whole(c: seq<Byte>, bigEndian: bool)
    decreases |c|
  {
    c == [] || (|c| >= 2 && 2 + Value(c[..2], bigEndian) <= |c| && Whole(c[2 + Value(c[..2], bigEndian)..], bigEndian))
  }

  function Messages(c: seq<Byte>, bigEndian: bool): seq<seq<Byte>>
    requires Whole(c, bigEndian)
    decreases |c|
  {
    if c == [] then []
    else
      var n := Value(c[..2], bigEndian);
      [c[2..2 + n]] + Messages(c[2 + n..], bigEndian)
  }

  lemma FrameIsMessage(m: seq<Byte>, bigEndian: bool)
    requires |m| < 0x1_0000
    ensures Whole(Frame(m, bigEndian), bigEndian) && Messages(Frame(m, bigEndian), bigEndian) == [m]
  {
    var f := Frame(m, bigEndian);
    assert f[..2] == Prefix(|m|, bigEndian) && f[2..2 + |m|] == m && f[2 + |m|..] == [];
  }

  lemma FrameAppended(c: seq<Byte>, m: seq<Byte>, bigEndian: bool)
    requires Whole(c, bigEndian) && |m| < 0x1_0000
    ensures Whole(c + Frame(m, bigEndian), bigEndian)
    ensures Messages(c + Frame(m, bigEndian), bigEndian) == Messages(c, bigEndian) + [m]
  {
    FrameIsMessage(m, bigEndian);
    WholeAppended(c, Frame(m, bigEndian), bigEndian);
  }

  /** Whole messages behind whole messages are read one after the other. */
  lemma {:induction false} WholeAppended(c: seq<Byte>, f: seq<Byte>, bigEndian: bool)
    requires Whole(c, bigEndian) && Whole(f, bigEndian)
    ensures Whole(c + f, bigEndian) && Messages(c + f, bigEndian) == Messages(c, bigEndian) + Messages(f, bigEndian)
    decreases |c|
  {
    if c == [] {
      assert c + f == f;
    } else {
      var n := Value(c[..2], bigEndian);
      WholeAppended(c[2 + n..], f, bigEndian);
      BehindFirst(c, f, n);
      MessageInFront(c, c[2..2 + n], c[2 + n..], bigEndian);
      MessageInFront(c + f, c[2..2 + n], c[2 + n..] + f, bigEndian);
      Regroup(c[2..2 + n], Messages(c[2 + n..], bigEndian), Messages(f, bigEndian));
    }
  }

  lemma Regroup(m: seq<Byte>, a: seq<seq<Byte>>, b: seq<seq<Byte>>)
    ensures [m] + (a + b) == ([m] + a) + b
  {
  }

  lemma MessageInFront(d: seq<Byte>, m: seq<Byte>, rest: seq<Byte>, bigEndian: bool)
    requires |d| >= 2 && Value(d[..2], bigEndian) == |m| && 2 + |m| <= |d|
    requires d[2..2 + |m|] == m && d[2 + |m|..] == rest && Whole(rest, bigEndian)
    ensures Whole(d, bigEndian) && Messages(d, bigEndian) == [m] + Messages(rest, bigEndian)
  {
  }

  lemma BehindFirst(c: seq<Byte>, f: seq<Byte>, n: nat)
    requires 2 + n <= |c|
    ensures (c + f)[..2] == c[..2] && (c + f)[2..2 + n] == c[2..2 + n] && (c + f)[2 + n..] == c[2 + n..] + f
  {
  }

  /** The first message stands behind its length, the others behind it. */
  lemma FirstMessage(c: seq<Byte>, bigEndian: bool)
    requires Whole(c, bigEndian) && c != []
    ensures Messages(c, bigEndian) != [] && |c| >= 2
    ensures var m := Messages(c, bigEndian)[0];
            && Value(c[..2], bigEndian) == |m| && |c[2..]| >= |m|
            && c[2..][..|m|] == m
            && Whole(c[2..][|m|..], bigEndian)
            && Messages(c[2..][|m|..], bigEndian) == Messages(c, bigEndian)[1..]
  {
    var n := Value(c[..2], bigEndian);
    BodyParts(c, n);
    FirstOf(c[2..2 + n], Messages(c[2 + n..], bigEndian));
  }

  lemma FirstOf(m: seq<Byte>, rest: seq<seq<Byte>>)
    ensures ([m] + rest)[0] == m && ([m] + rest)[1..] == rest
  {
  }

  lemma BodyParts(c: seq<Byte>, n: nat)
    requires 2 + n <= |c|
    ensures c[2..][n..] == c[2 + n..] && c[2..][..n] == c[2..2 + n]
  {
  }

  lemma PrefixOfPrefix(c: seq<Byte>, n: nat, k: nat)
    requires k <= n <= |c|
    ensures c[..n][..k] == c[..k]
  {
  }

  // ---------------------------------------------------------------------------------------
  // Copying in several steps

  /** after is before with the n bytes of src from s on at place d. */
  predicate Copied(before: seq<Byte>, after: seq<Byte>, d: int, src: seq<Byte>, s: int, n: int) {
    && 0 <= n && 0 <= d <= d + n <= |before| && 0 <= s <= s + n <= |src| && |after| == |before|
    && forall i :: 0 <= i < |before| ==> after[i] == if d <= i < d + n then src[s + i - d] else before[i]
  }

  lemma TwoStepsOut(before: seq<Byte>, half: seq<Byte>, after: seq<Byte>, data: seq<Byte>, start: int, n: int)
    requires 0 <= start <= |data| < start + n && n <= |data| && n <= |before|
    requires var toEnd := |data| - start;
             Copied(before, half, 0, data, start, toEnd) && Copied(half, after, toEnd, data, 0, n - toEnd)
    ensures after == Span(data, start, n) + before[n..]
  {
    var toEnd := |data| - start;
    forall i | 0 <= i < |before| ensures |after| == |before| && after[i] == (Span(data, start, n) + before[n..])[i] {
      if i < n { SpanAt(data, start, n, i); }
    }
  }

  lemma TwoStepsIn(before: seq<Byte>, half: seq<Byte>, after: seq<Byte>, p: int, buf: seq<Byte>, n: int)
    requires 0 <= p <= |before| < p + n && n <= |before| && n <= |buf| && n - (|before| - p) <= p
    requires var toEnd := |before| - p;
             Copied(before, half, p, buf, 0, toEnd) && Copied(half, after, 0, buf, toEnd, n - toEnd)
    ensures after == Put(before, p, buf[..n])
  {
    var toEnd := |before| - p;
    forall i | 0 <= i < |before| ensures |after| == |before| && after[i] == Put(before, p, buf[..n])[i] {
    }
  }

  // ---------------------------------------------------------------------------------------
  // The queue

  class RingQueue {
    const data: array<Byte>
    const readAtomic: bool
    const writeAtomic: bool
    /** The order in which the host stores the two bytes of a uint16_t. */
    const bigEndian: bool
    var iptr: int
    var optr: int

    predicate Valid()
      reads this
    {
      Pointers(iptr, optr, data.Length)
    }

    /**
     The pointers are in the buffer or past its end; a reader of single bytes may have come round behind the writer.
     */
    predicate Usable()
      reads this
    {
      data.Length >= 1 && 0 <= iptr <= data.Length && 0 <= optr <= data.Length
    }

    ghost function Contents(): seq<Byte>
      reads this, data
      requires Valid()
    {
      UsedAndRoom(iptr, optr, data.Length);
      Span(data[..], optr, Used(iptr, optr, data.Length))
    }

    /** queue_init. */
    constructor (capacity: nat, readAtomic: bool, writeAtomic: bool, bigEndian: bool)
      ensures Valid() && Contents() == [] && data.Length == capacity + 1 && fresh(data)
      ensures iptr == 0 && optr == 0
      ensures this.readAtomic == readAtomic && this.writeAtomic == writeAtomic && this.bigEndian == bigEndian
    {
      data := new Byte[capacity + 1](_ => 0);
      iptr, optr := 0, 0;
      this.readAtomic, this.writeAtomic, this.bigEndian := readAtomic, writeAtomic, bigEndian;
    }

    /** queue_empty: right but when a single-byte writer has wrapped behind a bulk reader resting past the end. */
    method IsEmpty() returns (empty: bool)
      requires Valid()
      ensures empty <==> Contents() == [] && !(iptr == 0 && optr == data.Length)
    {
      empty := iptr == optr;
    }

    /** queue_free_space. */
    method FreeSpace() returns (room: int)
      requires Usable()
      ensures room == if Valid() then data.Length - 1 - |Contents()| else -1
    {
      room := optr - iptr - 1;
      if room < 0 {
        room := room + data.Length;
      }
    }

    /** queue_contents. */
    method Count() returns (used: int)
      requires Valid()
      ensures used == |Contents()|
    {
      used := iptr - optr;
      if used < 0 {
        used := used + data.Length;
      }
    }

    /** queue_flush. */
    method Flush()
      requires Valid()
      modifies this`optr
      ensures Valid() && Contents() == []
    {
      optr := iptr;
    }

    /** memcpy between two buffers. */
    static method Copy(dst: array<Byte>, d: int, src: array<Byte>, s: int, n: int)
      requires dst != src && 0 <= n && 0 <= d <= d + n <= dst.Length && 0 <= s <= s + n <= src.Length
      modifies dst
      ensures Copied(old(dst[..]), dst[..], d, src[..], s, n)
    {
      forall k | 0 <= k < n { dst[d + k] := src[s + k]; }
    }

    /** The copying of queue_view and queue_read: one step, or two when the bytes go round past the end. */
    method CopyOut(buf: array<Byte>, n: int)
      requires Valid() && 0 < n <= Used(iptr, optr, data.Length) && buf != data && n <= buf.Length
      modifies buf
      ensures buf[..] == Span(data[..], optr, n) + old(buf[..])[n..]
    {
      var toEnd := data.Length - optr;
      if iptr < optr && toEnd < n {
        ghost var before := buf[..];
        Copy(buf, 0, data, optr, toEnd);
        ghost var half := buf[..];
        Copy(buf, toEnd, data, 0, n - toEnd);
        TwoStepsOut(before, half, buf[..], data[..], optr, n);
      } else {
        Copy(buf, 0, data, optr, n);
      }
    }

    /** The copying of queue_write, likewise. */
    method CopyIn(buf: array<Byte>, n: int)
      requires Valid() && 0 < n <= Room(iptr, optr, data.Length) && buf != data && n <= buf.Length
      modifies data
      ensures data[..] == Put(old(data[..]), iptr, buf[..][..n])
    {
      var toEnd := data.Length - iptr;
      if iptr < optr || toEnd >= n {
        Copy(data, iptr, buf, 0, n);
      } else {
        ghost var before := data[..];
        Copy(data, iptr, buf, 0, toEnd);
        ghost var half := data[..];
        Copy(data, 0, buf, toEnd, n - toEnd);
        TwoStepsIn(before, half, data[..], iptr, buf[..], n);
      }
    }

    /** queue_view: what queue_read would return, with the queue left as it is. */
    method Peek(buf: array?<Byte>, n: nat) returns (got: int)
      requires Valid() && (buf != null ==> buf != data && n <= buf.Length)
      modifies if buf == null then {} else {buf}
      ensures got == if |Contents()| >= n then n else if readAtomic then -1 else |Contents()|
      ensures buf != null ==> buf[..] == if got > 0 then Contents()[..got] + old(buf[..])[got..] else old(buf[..])
    {
      UsedAndRoom(iptr, optr, data.Length);
      got := Used(iptr, optr, data.Length);
      if got < n {
        if readAtomic {
          return -1;
        }
      } else {
        got := n;
      }
      if got != 0 && buf != null {
        TakeFront(data[..], iptr, optr, got);
        CopyOut(buf, got);
      }
    }

    /** queue_read: takes n bytes off the queue, or what there is, or nothing if reads are atomic. */
    method Read(buf: array?<Byte>, n: nat) returns (got: int)
      requires Valid() && (buf != null ==> buf != data && n <= buf.Length)
      modifies this`optr, if buf == null then {} else {buf}
      ensures Valid()
      ensures got == if old(|Contents()|) >= n then n else if readAtomic then -1 else old(|Contents()|)
      ensures buf != null ==> buf[..] == if got > 0 then old(Contents())[..got] + old(buf[..])[got..] else old(buf[..])
      ensures Contents() == if got > 0 then old(Contents())[got..] else old(Contents())
    {
      UsedAndRoom(iptr, optr, data.Length);
      got := Used(iptr, optr, data.Length);
      if got < n {
        if readAtomic {
          return -1;
        }
      } else {
        got := n;
      }
      if got != 0 {
        Take(buf, got);
      }
    }

    /** The part of queue_read that moves bytes. */
    method Take(buf: array?<Byte>, n: int)
      requires Valid() && 0 < n <= Used(iptr, optr, data.Length) && (buf != null ==> buf != data && n <= buf.Length)
      modifies this`optr, if buf == null then {} else {buf}
      ensures Valid() && Contents() == old(Contents())[n..]
      ensures buf != null ==> buf[..] == old(Contents())[..n] + old(buf[..])[n..]
    {
      TakeFront(data[..], iptr, optr, n);
      if buf != null {
        CopyOut(buf, n);
      }
      optr := OptrAfter(iptr, optr, n, data.Length);
    }

    /** queue_write: appends n bytes, or as many as fit, or none if writes are atomic. */
    method Write(buf: array<Byte>, n: nat) returns (put: int)
      requires Usable() && (Valid() || writeAtomic) && buf != data && n <= buf.Length
      modifies this`iptr, data
      ensures Valid() == old(Valid()) && Usable()
      ensures iptr == if put > 0 then Moved(old(iptr), put, data.Length) else old(iptr)
      ensures Valid() ==>
                var room := data.Length - 1 - |old(Contents())|;
                && put == (if room >= n then n else if writeAtomic then -1 else room)
                && Contents() == if put > 0 then old(Contents()) + buf[..][..put] else old(Contents())
      ensures !Valid() ==> put == -1 && data[..] == old(data[..])
    {
      if Valid() { UsedAndRoom(iptr, optr, data.Length); }
      put := Room(iptr, optr, data.Length);
      if put < n {
        if writeAtomic {
          return -1;
        }
      } else {
        put := n;
      }
      if put == 0 {
        return;
      }
      PutBack(data[..], iptr, optr, buf[..][..put]);
      CopyIn(buf, put);
      iptr := IptrAfter(iptr, optr, put, data.Length);
    }

    /** queue_read_byte, for a reader that does not rest past the end. */
    method ReadByte() returns (b: int)
      requires Usable() && optr < data.Length
      modifies this`optr
      ensures Usable() && optr < data.Length
      ensures old(iptr) == old(optr) ==> b == -1 && optr == old(optr)
      ensures old(iptr) != old(optr) ==> b == data[old(optr)] && optr == Stepped(old(optr), data.Length)
      ensures old(Valid()) ==>
                && (Valid() <==> !(old(iptr) == data.Length && old(optr) == data.Length - 1))
                && (b < 0 <==> old(Contents()) == [])
                && (Valid() && b >= 0 ==> old(Contents()) == [b] + Contents())
    {
      var used := Used(iptr, optr, data.Length);
      if used < 1 {
        return -1;
      }
      if Valid() { ByteReadRight(data[..], iptr, optr); }
      b := data[optr];
      if optr + 1 >= data.Length {
        optr := 0;
      } else {
        optr := optr + 1;
      }
    }

    /** queue_write_byte, for a writer that does not rest past the end. */
    method WriteByte(b: Byte) returns (put: int)
      requires Valid() && iptr < data.Length
      modifies this`iptr, data
      ensures Valid() && iptr < data.Length
      ensures put == if old(|Contents()|) < data.Length - 1 then 1 else if writeAtomic then -1 else 0
      ensures Contents() == if put == 1 then old(Contents()) + [b] else old(Contents())
    {
      UsedAndRoom(iptr, optr, data.Length);
      if Room(iptr, optr, data.Length) < 1 {
        return if writeAtomic then -1 else 0;
      }
      ByteWrittenRight(data[..], iptr, optr, b);
      ghost var before := data[..];
      data[iptr] := b;
      assert data[..] == before[iptr := b];
      if iptr + 1 >= data.Length {
        iptr := 0;
      } else {
        iptr := iptr + 1;
      }
      put := 1;
    }

    // -------------------------------------------------------------------------------------
    // Messages

    /** queue_state_test_msg: the length of the next message, or -1. */
    method TestMsg() returns (n: int)
      requires Valid() && Whole(Contents(), bigEndian)
      ensures var ms := Messages(Contents(), bigEndian); n == if ms == [] then -1 else |ms[0]|
    {
      var lenx := new Byte[2](_ => 0);
      var got := Peek(lenx, 2);
      if Contents() != [] { FirstMessage(Contents(), bigEndian); }
      if got != 2 {
        return -1;
      }
      assert lenx[..] == Contents()[..2];
      n := Value(lenx[..], bigEndian);
    }

    /** What queue_read_msg does once it knows the size: read what fits and drop the rest. */
    method ReadBody(buf: array<Byte>, n: nat, size: nat) returns (got: int)
      requires Valid() && size <= |Contents()| && buf != data && n <= buf.Length
      modifies this`optr, buf
      ensures Valid()
      ensures got == if size <= n then size else n
      ensures buf[..] == old(Contents())[..got] + old(buf[..])[got..]
      ensures Contents() == old(Contents())[size..]
    {
      ghost var c := Contents();
      if size > n {
        got := Read(buf, n);
        assert c[n..][size - n..] == c[size..];
        var _ := Read(null, size - got);
      } else {
        got := Read(buf, size);
      }
    }

    /** The length in front of a message, or -1 if the queue is empty. */
    method ReadLength() returns (size: int)
      requires Valid() && Whole(Contents(), bigEndian)
      modifies this`optr
      ensures Valid()
      ensures var c := old(Contents());
              if c == [] then size == -1 && Contents() == []
              else size == Value(c[..2], bigEndian) && Contents() == c[2..]
    {
      ghost var c := Contents();
      var lenx := new Byte[2](_ => 0);
      var got := Read(lenx, 2);
      if got != 2 {
        return -1;
      }
      assert lenx[..] == c[..2];
      size := Value(lenx[..], bigEndian);
    }

    /** queue_read_msg: takes the next message off the queue; what does not fit into the buffer is dropped. */
    method ReadMsg(buf: array<Byte>, n: nat) returns (got: int)
      requires Valid() && Whole(Contents(), bigEndian) && buf != data && n <= buf.Length
      modifies this`optr, buf
      ensures Valid() && Whole(Contents(), bigEndian)
      ensures var ms := old(Messages(Contents(), bigEndian));
              if ms == [] then got == -1 && Contents() == [] && buf[..] == old(buf[..])
              else
                && got == (if |ms[0]| <= n then |ms[0]| else n)
                && buf[..] == ms[0][..got] + old(buf[..])[got..]
                && Messages(Contents(), bigEndian) == ms[1..]
    {
      ghost var c, before := Contents(), buf[..];
      var size := ReadLength();
      if c != [] { FirstMessage(c, bigEndian); }
      if size <= 0 {
        assert c != [] ==> c[2..][0..] == c[2..];
        assert before[0..] == before;
        return size;
      }
      PrefixOfPrefix(c[2..], size, if size <= n then size else n);
      got := ReadBody(buf, n, size);
    }

    /** queue_write_msg: appends a message; the free space is compared after a cast to sixteen bits. */
    method WriteMsg(buf: array<Byte>, n: nat) returns (put: int)
      requires Valid() && Whole(Contents(), bigEndian) && buf != data && n <= buf.Length
      modifies this`iptr, data
      ensures Valid() && Whole(Contents(), bigEndian)
      ensures put == if old(data.Length - 1 - |Contents()|) % 0x1_0000 >= n + 2 then n else -1
      ensures Messages(Contents(), bigEndian) ==
              old(Messages(Contents(), bigEndian)) + if put >= 0 then [buf[..][..n]] else []
    {
      UsedAndRoom(iptr, optr, data.Length);
      var room := Room(iptr, optr, data.Length);
      if room % 0x1_0000 < n + 2 {
        return -1;
      }
      CastRoom(room, n);
      FrameAppended(Contents(), buf[..][..n], bigEndian);
      Append(buf, n);
      put := n;
    }

    method Append(buf: array<Byte>, n: nat)
      requires Valid() && n + 2 <= Room(iptr, optr, data.Length) && n + 2 < 0x1_0000
      requires buf != data && n <= buf.Length
      modifies this`iptr, data
      ensures Valid() && Contents() == old(Contents()) + Frame(buf[..][..n], bigEndian)
    {
      PutBack(data[..], iptr, optr, Frame(buf[..][..n], bigEndian));
      CopyMessageIn(buf, n);
      iptr := IptrAfter(iptr, optr, n + 2, data.Length);
    }

    /** The copying of queue_write_msg: the end of the buffer may fall behind, in or before the length. */
    method CopyMessageIn(buf: array<Byte>, n: int)
      requires Valid() && 2 <= n + 2 <= Room(iptr, optr, data.Length) && n + 2 < 0x1_0000
      requires buf != data && n <= buf.Length
      modifies data
      ensures data[..] == Put(old(data[..]), iptr, Frame(buf[..][..n], bigEndian))
    {
      var toEnd := data.Length - iptr;
      var prefix := Prefix(n, bigEndian);
      var lenx := new Byte[2](i requires 0 <= i < 2 => prefix[i]);
      assert lenx[..] == prefix;
      if iptr < optr || toEnd >= n + 2 {
        CopyWhole(lenx, buf, n);
      } else if toEnd >= 2 {
        CopySplitMessage(lenx, buf, n, toEnd);
      } else {
        CopySplitLength(lenx, buf, n, toEnd);
      }
    }

    method CopyWhole(lenx: array<Byte>, buf: array<Byte>, n: int)
      requires lenx.Length == 2 && 0 <= n <= buf.Length && lenx != data && buf != data
      requires 0 <= iptr && iptr + n + 2 <= data.Length
      modifies data
      ensures data[..] == Put(old(data[..]), iptr, lenx[..] + buf[..][..n])
    {
      ghost var before := data[..];
      Copy(data, iptr, lenx, 0, 2);
      ghost var half := data[..];
      Copy(data, iptr + 2, buf, 0, n);
      MessageInOneStep(before, half, data[..], iptr, lenx[..], buf[..], n);
    }

    method CopySplitMessage(lenx: array<Byte>, buf: array<Byte>, n: int, toEnd: int)
      requires lenx.Length == 2 && 0 <= n <= buf.Length && lenx != data && buf != data
      requires 0 <= iptr && toEnd == data.Length - iptr && 2 <= toEnd < n + 2 <= toEnd + iptr
      modifies data
      ensures data[..] == Put(old(data[..]), iptr, lenx[..] + buf[..][..n])
    {
      ghost var before := data[..];
      Copy(data, iptr, lenx, 0, 2);
      ghost var half := data[..];
      Copy(data, iptr + 2, buf, 0, toEnd - 2);
      ghost var more := data[..];
      Copy(data, 0, buf, toEnd - 2, n + 2 - toEnd);
      MessageSplit(before, half, more, data[..], iptr, lenx[..], buf[..], n);
    }

    method CopySplitLength(lenx: array<Byte>, buf: array<Byte>, n: int, toEnd: int)
      requires lenx.Length == 2 && 0 <= n <= buf.Length && lenx != data && buf != data
      requires 0 <= iptr && toEnd == data.Length - iptr && 0 <= toEnd < 2 && n + 2 <= toEnd + iptr
      modifies data
      ensures data[..] == Put(old(data[..]), iptr, lenx[..] + buf[..][..n])
    {
      ghost var before := data[..];
      Copy(data, iptr, lenx, 0, toEnd);
      ghost var half := data[..];
      Copy(data, 0, lenx, toEnd, 2 - toEnd);
      ghost var more := data[..];
      Copy(data, 2 - toEnd, buf, 0, n);
      LengthSplit(before, half, more, data[..], iptr, lenx[..], buf[..], n);
    }
  }

  lemma CastRoom(room: int, n: int)
    requires room >= 0 && n >= 0 && room % 0x1_0000 >= n + 2
    ensures n + 2 <= room && n + 2 < 0x1_0000
  {
  }

  lemma MessageInOneStep(before: seq<Byte>, half: seq<Byte>, after: seq<Byte>, p: int, x: seq<Byte>, m: seq<Byte>,
                         n: int)
    requires |x| == 2 && 0 <= n <= |m| && 0 <= p && p + n + 2 <= |before|
    requires Copied(before, half, p, x, 0, 2) && Copied(half, after, p + 2, m, 0, n)
    ensures after == Put(before, p, x + m[..n])
  {
    forall i | 0 <= i < |before| ensures |after| == |before| && after[i] == Put(before, p, x + m[..n])[i] {
    }
  }

  lemma MessageSplit(before: seq<Byte>, half: seq<Byte>, more: seq<Byte>, after: seq<Byte>, p: int, x: seq<Byte>,
                     m: seq<Byte>, n: int)
    requires |x| == 2 && 0 <= n <= |m| && 0 <= p && p + 2 <= |before| < p + n + 2 && n + 2 - (|before| - p) <= p
    requires var toEnd := |before| - p;
             && Copied(before, half, p, x, 0, 2) && Copied(half, more, p + 2, m, 0, toEnd - 2)
             && Copied(more, after, 0, m, toEnd - 2, n + 2 - toEnd)
    ensures after == Put(before, p, x + m[..n])
  {
    var toEnd := |before| - p;
    forall i | 0 <= i < |before| ensures |after| == |before| && after[i] == Put(before, p, x + m[..n])[i] {
    }
  }

  lemma LengthSplit(before: seq<Byte>, half: seq<Byte>, more: seq<Byte>, after: seq<Byte>, p: int, x: seq<Byte>,
                    m: seq<Byte>, n: int)
    requires |x| == 2 && 0 <= n <= |m| && 0 <= p <= |before| < p + 2 && n + 2 - (|before| - p) <= p
    requires var toEnd := |before| - p;
             && Copied(before, half, p, x, 0, toEnd) && Copied(half, more, 0, x, toEnd, 2 - toEnd)
             && Copied(more, after, 2 - toEnd, m, 0, n)
    ensures after == Put(before, p, x + m[..n])
  {
    var toEnd := |before| - p;
    forall i | 0 <= i < |before| ensures |after| == |before| && after[i] == Put(before, p, x + m[..n])[i] {
    }
  }
}
