/**
 The byte ring of MO_MiniGames_Server/RingBuffer.h as a value: a buffer, a read
 position and a write position, with one slot always left empty.

 The operations below say what each call does to the three fields; the lemmas
 say what that means for the queue of bytes the ring stands for. The class in
 RingBuffer.dfy is proved to perform exactly these operations in place.
 */
module RingModel {
  import opened Arithmetic
  import opened Bytes

  /** Position i of a ring of c slots, for an i that has passed the end at most once. */
  function Wrap(i: nat, c: nat): (p: nat)
    requires i < 2 * c
    ensures p < c
  {
    if i < c then i else i - c
  }

  lemma ModIsWrap(i: nat, c: nat)
    requires i < 2 * c
    ensures i % c == Wrap(i, c)
  {
    RemainderIsUnique(i, c, if i < c then 0 else 1, Wrap(i, c));
  }

  /** How many steps forward lead from position `start` to position `i`. */
  function Distance(start: nat, i: nat, c: nat): nat
    requires start < c && i < c
  {
    if i >= start then i - start else i + c - start
  }

  /** The n bytes that start at `start` and run on past the end of the buffer to its beginning. */
  function Window(buf: seq<Byte>, start: nat, n: nat): (s: seq<Byte>)
    requires start < |buf| && n <= |buf|
    ensures |s| == n
  {
    if start + n <= |buf| then buf[start..start + n]
    else buf[start..] + buf[..start + n - |buf|]
  }

  lemma WindowAt(buf: seq<Byte>, start: nat, n: nat)
    requires start < |buf| && n <= |buf|
    ensures forall k :: 0 <= k < n ==> Window(buf, start, n)[k] == buf[Wrap(start + k, |buf|)]
  {
  }

  lemma WindowIs(buf: seq<Byte>, start: nat, bytes: seq<Byte>)
    requires start < |buf| && |bytes| <= |buf|
    requires forall k :: 0 <= k < |bytes| ==> bytes[k] == buf[Wrap(start + k, |buf|)]
    ensures bytes == Window(buf, start, |bytes|)
  {
    WindowAt(buf, start, |bytes|);
  }

  lemma WindowPrefix(buf: seq<Byte>, start: nat, n: nat, all: nat)
    requires start < |buf| && n <= all <= |buf|
    ensures Window(buf, start, n) == Window(buf, start, all)[..n]
  {
  }

  /** memcpy of `data` to position `at`. */
  function Splice(buf: seq<Byte>, at: nat, data: seq<Byte>): (b: seq<Byte>)
    requires at + |data| <= |buf|
    ensures |b| == |buf|
  {
    buf[..at] + data + buf[at + |data|..]
  }

  lemma SpliceAt(buf: seq<Byte>, at: nat, data: seq<Byte>)
    requires at + |data| <= |buf|
    ensures forall i :: 0 <= i < |buf| ==>
      Splice(buf, at, data)[i] == if at <= i < at + |data| then data[i - at] else buf[i]
  {
  }

  /** The two-segment write of Enqueue: up to the end of the buffer, then from its start. */
  function Overwrite(buf: seq<Byte>, start: nat, data: seq<Byte>): (b: seq<Byte>)
    requires start < |buf| && |data| <= |buf|
    ensures |b| == |buf|
  {
    var first := Min(|data|, |buf| - start);
    Splice(Splice(buf, start, data[..first]), 0, data[first..])
  }

  lemma OverwriteAt(buf: seq<Byte>, start: nat, data: seq<Byte>)
    requires start < |buf| && |data| <= |buf|
    ensures forall i :: 0 <= i < |buf| ==>
      Overwrite(buf, start, data)[i] ==
      if Distance(start, i, |buf|) < |data| then data[Distance(start, i, |buf|)] else buf[i]
  {
    var first := Min(|data|, |buf| - start);
    SpliceAt(buf, start, data[..first]);
    SpliceAt(Splice(buf, start, data[..first]), 0, data[first..]);
  }

  /** One WSABUF: `len` bytes of the ring's own buffer from `off` on. */
  datatype Segment = Segment(off: nat, len: nat)

  /** What GetSendInfo reads in one lock: the read pointer as an offset and the two sizes. */
  datatype SendInfo = SendInfo(readPtr: nat, dataSize: nat, directReadSize: nat)

  datatype Ring = Ring(buf: seq<Byte>, readPos: nat, writePos: nat) {

    ghost predicate Valid() {
      |buf| >= 1 && readPos < |buf| && writePos < |buf|
    }

    function DataSize(): (n: nat)
      requires Valid()
      ensures n < |buf|
    {
      if writePos >= readPos then writePos - readPos else |buf| - readPos + writePos
    }

    function FreeSize(): nat
      requires Valid()
    {
      if DataSize() >= |buf| - 1 then 0 else |buf| - DataSize() - 1
    }

    /** The abstract queue: the bytes between the read and the write position. */
    function Queue(): (q: seq<Byte>)
      requires Valid()
      ensures |q| == DataSize()
    {
      Window(buf, readPos, DataSize())
    }

    function DirectWriteSize(): nat
      requires Valid()
    {
      if writePos >= readPos then
        if readPos == 0 then |buf| - writePos - 1 else |buf| - writePos
      else readPos - writePos - 1
    }

    function DirectReadSize(): nat
      requires Valid()
    {
      if writePos >= readPos then writePos - readPos else |buf| - readPos
    }

    /** Advance the write position over bytes that are already in the buffer. */
    function Advance(n: nat): (r: Ring)
      requires Valid()
      ensures r.Valid() && r.buf == buf && r.readPos == readPos
    {
      Ring(buf, readPos, (writePos + n) % |buf|)
    }

    /** Write `data` behind the queue and advance over it. */
    function Put(data: seq<Byte>): (r: Ring)
      requires Valid() && |data| <= FreeSize()
      ensures r.Valid() && |r.buf| == |buf| && r.readPos == readPos
    {
      Ring(Overwrite(buf, writePos, data), readPos, (writePos + |data|) % |buf|)
    }

    function Drop(n: nat): (r: Ring)
      requires Valid()
      ensures r.Valid() && r.buf == buf && r.writePos == writePos
    {
      Ring(buf, (readPos + n) % |buf|, writePos)
    }

    function Clear(): (r: Ring)
      requires Valid()
      ensures r.Valid()
    {
      Ring(buf, 0, 0)
    }

    /** All or nothing: the whole of `data`, or no change at all. */
    function Enqueue(data: seq<Byte>): (r: Ring)
      requires Valid()
      ensures r.Valid() && |r.buf| == |buf|
    {
      if |data| <= FreeSize() then Put(data) else this
    }

    function Consume(n: nat): (r: Ring)
      requires Valid()
      ensures r.Valid() && |r.buf| == |buf|
    {
      if n <= DataSize() then Drop(n) else this
    }

    function Snapshot(): SendInfo
      requires Valid()
    {
      SendInfo(readPos, DataSize(), DirectReadSize())
    }

    /** The WSABUF array PostRecv hands to WSARecv. */
    function RecvSegments(): seq<Segment>
      requires Valid()
    {
      var direct := DirectWriteSize();
      if direct == 0 then []
      else if FreeSize() > direct then [Segment(writePos, direct), Segment(0, FreeSize() - direct)]
      else [Segment(writePos, direct)]
    }
  }

  /** The WSABUF array PostSend and ProcessSend build from one snapshot. */
  function SendSegments(info: SendInfo): seq<Segment> {
    if info.directReadSize == 0 then []
    else if info.dataSize > info.directReadSize then
      [Segment(info.readPtr, info.directReadSize), Segment(0, info.dataSize - info.directReadSize)]
    else [Segment(info.readPtr, info.directReadSize)]
  }

  /** Total length of a WSABUF array. */
  function Total(segs: seq<Segment>): nat {
    if segs == [] then 0 else segs[0].len + Total(segs[1..])
  }

  /** Every segment lies inside a buffer of c bytes. */
  predicate InBounds(segs: seq<Segment>, c: nat) {
    forall k :: 0 <= k < |segs| ==> segs[k].off + segs[k].len <= c
  }

  /** What the kernel reads when it sends from a WSABUF array. */
  function Gather(buf: seq<Byte>, segs: seq<Segment>): (s: seq<Byte>)
    requires InBounds(segs, |buf|)
    ensures |s| == Total(segs)
  {
    if segs == [] then []
    else
      assert InBounds(segs[1..], |buf|);
      buf[segs[0].off..segs[0].off + segs[0].len] + Gather(buf, segs[1..])
  }

  /** What the buffer holds after the kernel received `data` through a WSABUF array, filling it in order. */
  function Scatter(buf: seq<Byte>, segs: seq<Segment>, data: seq<Byte>): (b: seq<Byte>)
    requires InBounds(segs, |buf|) && |data| <= Total(segs)
    ensures |b| == |buf|
    decreases |segs|
  {
    if segs == [] then buf
    else
      var n := Min(segs[0].len, |data|);
      assert InBounds(segs[1..], |buf|);
      Scatter(Splice(buf, segs[0].off, data[..n]), segs[1..], data[n..])
  }

  // ---------------------------------------------------------------- sizes

  lemma SizesAddUp(s: Ring)
    requires s.Valid()
    ensures s.DataSize() + s.FreeSize() == |s.buf| - 1
    ensures |s.Queue()| + s.FreeSize() == |s.buf| - 1
  {
  }

  // ---------------------------------------------------------------- each operation on the queue

  lemma AdvanceQueue(s: Ring, n: nat)
    requires s.Valid() && n <= s.FreeSize()
    ensures s.Advance(n).DataSize() == s.DataSize() + n
    ensures s.Advance(n).Queue() == s.Queue() + Window(s.buf, s.writePos, n)
  {
    ModIsWrap(s.writePos + n, |s.buf|);
  }

  lemma OverwriteKeepsAndSets(buf: seq<Byte>, start: nat, data: seq<Byte>)
    requires start < |buf| && |data| <= |buf|
    ensures Window(Overwrite(buf, start, data), start, |data|) == data
  {
    var b := Overwrite(buf, start, data);
    OverwriteAt(buf, start, data);
    forall k | 0 <= k < |data| ensures data[k] == b[Wrap(start + k, |buf|)] {
      assert Distance(start, Wrap(start + k, |buf|), |buf|) == k;
    }
    WindowIs(b, start, data);
  }

  lemma OverwriteKeepsQueue(s: Ring, data: seq<Byte>)
    requires s.Valid() && |data| <= s.FreeSize()
    ensures Window(Overwrite(s.buf, s.writePos, data), s.readPos, s.DataSize()) == s.Queue()
  {
    var b := Overwrite(s.buf, s.writePos, data);
    forall k | 0 <= k < s.DataSize() ensures Window(b, s.readPos, s.DataSize())[k] == s.Queue()[k] {
      var i := Wrap(s.readPos + k, |s.buf|);
      assert Distance(s.writePos, i, |s.buf|) >= |data|;
    }
  }

  /** Enqueue of what fits appends it to the queue. */
  lemma PutQueue(s: Ring, data: seq<Byte>)
    requires s.Valid() && |data| <= s.FreeSize()
    ensures s.Put(data).Queue() == s.Queue() + data
  {
    var t := s.(buf := Overwrite(s.buf, s.writePos, data));
    AdvanceQueue(t, |data|);
    assert t.Queue() == s.Queue() by { OverwriteKeepsQueue(s, data); }
    assert Window(t.buf, s.writePos, |data|) == data by { OverwriteKeepsAndSets(s.buf, s.writePos, data); }
  }

  lemma PutNothing(s: Ring)
    requires s.Valid()
    ensures s.Put([]) == s
  {
    ModIsWrap(s.writePos, |s.buf|);
    OverwriteWithoutWrap(s.buf, s.writePos, []);
    SpliceNothing(s.buf, s.writePos);
  }

  /** Consume drops exactly the front of the queue. */
  lemma DropQueue(s: Ring, n: nat)
    requires s.Valid() && n <= s.DataSize()
    ensures s.Drop(n).Queue() == s.Queue()[n..]
  {
    ModIsWrap(s.readPos + n, |s.buf|);
    assert s.Drop(n).DataSize() == s.DataSize() - n;
  }

  lemma DropTwice(s: Ring, m: nat, n: nat)
    requires s.Valid() && m + n <= s.DataSize()
    ensures s.Drop(m).Drop(n) == s.Drop(m + n)
  {
    ModIsWrap(s.readPos + m, |s.buf|);
    ModIsWrap(s.readPos + m + n, |s.buf|);
    ModIsWrap(s.Drop(m).readPos + n, |s.buf|);
  }

  lemma DropNone(s: Ring)
    requires s.Valid()
    ensures s.Drop(0) == s
  {
    ModIsWrap(s.readPos, |s.buf|);
  }

  // ---------------------------------------------------------------- the send view

  /** The send segments are in bounds, are as long as the queue, and spell it. */
  lemma SnapshotSpellsQueue(s: Ring)
    requires s.Valid()
    ensures var segs := SendSegments(s.Snapshot());
      && InBounds(segs, |s.buf|)
      && Total(segs) == s.DataSize()
      && Gather(s.buf, segs) == s.Queue()
      && (segs == [] <==> s.DataSize() == 0)
  {
    var segs := SendSegments(s.Snapshot());
    if |segs| == 1 {
      assert segs[1..] == [];
      assert Gather(s.buf, segs) == s.buf[segs[0].off..segs[0].off + segs[0].len] + [];
    } else if |segs| == 2 {
      assert segs[1..] == [segs[1]] && segs[1..][1..] == [];
      assert Gather(s.buf, segs[1..]) == s.buf[..segs[1].len] + [];
      assert Gather(s.buf, segs) == s.buf[s.readPos..] + s.buf[..segs[1].len];
    }
  }

  /** Every byte a segment array touches is one of the first n bytes of the queue. */
  ghost predicate Touches(segs: seq<Segment>, s: Ring, n: nat)
    requires s.Valid()
  {
    forall k, i :: 0 <= k < |segs| && segs[k].off <= i < segs[k].off + segs[k].len ==>
      i < |s.buf| && Distance(s.readPos, i, |s.buf|) < n
  }

  lemma SnapshotTouches(s: Ring)
    requires s.Valid()
    ensures Touches(SendSegments(s.Snapshot()), s, s.DataSize())
  {
  }

  /** What two buffers hold in one segment is the same. */
  predicate Agree(a: seq<Byte>, b: seq<Byte>, g: Segment) {
    g.off + g.len <= |a| == |b| && a[g.off..g.off + g.len] == b[g.off..g.off + g.len]
  }

  lemma {:induction false} GatherUnchanged(a: seq<Byte>, b: seq<Byte>, segs: seq<Segment>)
    requires |a| == |b| && InBounds(segs, |a|)
    requires forall k :: 0 <= k < |segs| ==> Agree(a, b, segs[k])
    ensures Gather(a, segs) == Gather(b, segs)
  {
    if segs != [] {
      assert forall k :: 0 <= k < |segs[1..]| ==> segs[1..][k] == segs[k + 1];
      GatherUnchanged(a, b, segs[1..]);
      assert Agree(a, b, segs[0]);
    }
  }

  lemma PutAgrees(s: Ring, g: Segment, data: seq<Byte>)
    requires s.Valid() && |data| <= s.FreeSize() && g.off + g.len <= |s.buf|
    requires forall i :: g.off <= i < g.off + g.len ==> Distance(s.readPos, i, |s.buf|) < s.DataSize()
    ensures Agree(s.buf, s.Put(data).buf, g)
  {
    var b := s.Put(data).buf;
    OverwriteAt(s.buf, s.writePos, data);
    forall i | g.off <= i < g.off + g.len ensures s.buf[i] == b[i] {
      assert Distance(s.readPos, i, |s.buf|) < s.DataSize();
      assert Distance(s.writePos, i, |s.buf|) >= |data|;
    }
  }

  /** A write behind the queue leaves every byte of the queue where it is. */
  lemma PutKeepsSegments(s: Ring, segs: seq<Segment>, data: seq<Byte>)
    requires s.Valid() && |data| <= s.FreeSize()
    requires InBounds(segs, |s.buf|) && Touches(segs, s, s.DataSize())
    ensures Gather(s.Put(data).buf, segs) == Gather(s.buf, segs)
    ensures Touches(segs, s.Put(data), s.Put(data).DataSize())
  {
    forall k | 0 <= k < |segs| ensures Agree(s.buf, s.Put(data).buf, segs[k]) {
      PutAgrees(s, segs[k], data);
    }
    GatherUnchanged(s.buf, s.Put(data).buf, segs);
    PutQueue(s, data);
  }

  /** A run of Enqueue calls, each of which may or may not find room. */
  function EnqueueAll(s: Ring, msgs: seq<seq<Byte>>): (r: Ring)
    requires s.Valid()
    ensures r.Valid() && |r.buf| == |s.buf|
    decreases |msgs|
  {
    if msgs == [] then s else EnqueueAll(s.Enqueue(msgs[0]), msgs[1..])
  }

  /**
   Snapshot stability: the segments taken from one GetSendInfo spell the whole
   queue of that moment, and after any later Enqueues, successful or not, they
   still spell those bytes, which are still the front of the queue.
   */
  lemma {:induction false} SnapshotStable(s: Ring, msgs: seq<seq<Byte>>)
    requires s.Valid()
    ensures var segs := SendSegments(s.Snapshot());
      var t := EnqueueAll(s, msgs);
      && InBounds(segs, |s.buf|)
      && Gather(s.buf, segs) == s.Queue()
      && Gather(t.buf, segs) == s.Queue()
      && s.Queue() <= t.Queue()
  {
    SnapshotSpellsQueue(s);
    SnapshotTouches(s);
    SegmentsStable(s, SendSegments(s.Snapshot()), msgs);
  }

  lemma {:induction false} SegmentsStable(s: Ring, segs: seq<Segment>, msgs: seq<seq<Byte>>)
    requires s.Valid() && InBounds(segs, |s.buf|) && Touches(segs, s, s.DataSize())
    ensures Gather(EnqueueAll(s, msgs).buf, segs) == Gather(s.buf, segs)
    ensures s.Queue() <= EnqueueAll(s, msgs).Queue()
    decreases |msgs|
  {
    if msgs != [] {
      if |msgs[0]| <= s.FreeSize() {
        PutKeepsSegments(s, segs, msgs[0]);
        PutQueue(s, msgs[0]);
      }
      SegmentsStable(s.Enqueue(msgs[0]), segs, msgs[1..]);
    }
  }

  // ---------------------------------------------------------------- the receive view

  predicate Disjoint(a: Segment, b: Segment) {
    a.off + a.len <= b.off || b.off + b.len <= a.off
  }

  /**
   PostRecv's segments lie in the buffer, do not overlap, avoid every queued
   byte and the sentinel slot before the read position, and add up to exactly
   the free size; there is none only when the ring is full.
   */
  lemma RecvSegmentsCoverFreeSpace(s: Ring)
    requires s.Valid()
    ensures var segs := s.RecvSegments();
      && InBounds(segs, |s.buf|)
      && Total(segs) == s.FreeSize()
      && (segs == [] <==> s.FreeSize() == 0)
      && (forall k, i :: 0 <= k < |segs| && segs[k].off <= i < segs[k].off + segs[k].len ==>
            s.DataSize() <= Distance(s.readPos, i, |s.buf|) < |s.buf| - 1)
      && (forall j, k :: 0 <= j < k < |segs| ==> Disjoint(segs[j], segs[k]))
  {
    TotalOfTwo(s.RecvSegments());
  }

  lemma TotalOfTwo(segs: seq<Segment>)
    requires |segs| <= 2
    ensures Total(segs) == (if |segs| >= 1 then segs[0].len else 0) + (if |segs| == 2 then segs[1].len else 0)
  {
    if |segs| >= 1 {
      assert segs[1..] == if |segs| == 2 then [segs[1]] else [];
      if |segs| == 2 { assert segs[1..][1..] == []; }
    }
  }

  lemma ScatterOne(buf: seq<Byte>, a: Segment, data: seq<Byte>)
    requires InBounds([a], |buf|) && |data| <= Total([a])
    ensures |data| <= a.len
    ensures a.off + a.len <= |buf|
    ensures Scatter(buf, [a], data) == Splice(buf, a.off, data)
  {
    assert [a][0] == a && [a][1..] == [];
    assert data[..|data|] == data;
  }

  lemma SpliceNothing(buf: seq<Byte>, at: nat)
    requires at <= |buf|
    ensures Splice(buf, at, []) == buf
  {
  }

  lemma OverwriteWithoutWrap(buf: seq<Byte>, start: nat, data: seq<Byte>)
    requires start < |buf| && start + |data| <= |buf|
    ensures Overwrite(buf, start, data) == Splice(buf, start, data)
  {
    assert data[..|data|] == data && data[|data|..] == [];
    SpliceNothing(Splice(buf, start, data), 0);
  }

  lemma ScatterWrapped(buf: seq<Byte>, a: Segment, b: Segment, data: seq<Byte>)
    requires InBounds([a, b], |buf|) && |data| <= Total([a, b])
    requires a.off < a.off + a.len == |buf| && b.off == 0
    requires |data| <= |buf|
    ensures Scatter(buf, [a, b], data) == Overwrite(buf, a.off, data)
  {
    assert [a, b][0] == a && [a, b][1..] == [b];
    var n := Min(a.len, |data|);
    ScatterOne(Splice(buf, a.off, data[..n]), b, data[n..]);
  }

  lemma ScatterDirect(s: Ring, a: Segment, data: seq<Byte>)
    requires s.Valid() && |data| <= a.len
    requires a.off == s.writePos && a.off + a.len <= |s.buf|
    requires InBounds([a], |s.buf|) && Total([a]) == a.len
    ensures Scatter(s.buf, [a], data) == Overwrite(s.buf, s.writePos, data)
  {
    ScatterOne(s.buf, a, data);
    OverwriteWithoutWrap(s.buf, s.writePos, data);
  }

  /** Filling the segments in order is the two-segment write of Enqueue. */
  lemma ScatterIsOverwrite(s: Ring, data: seq<Byte>)
    requires s.Valid() && |data| <= s.FreeSize()
    requires InBounds(s.RecvSegments(), |s.buf|) && Total(s.RecvSegments()) == s.FreeSize()
    ensures Scatter(s.buf, s.RecvSegments(), data) == Overwrite(s.buf, s.writePos, data)
  {
    var segs := s.RecvSegments();
    TotalOfTwo(segs);
    if |segs| == 2 {
      assert segs == [segs[0], segs[1]];
      ScatterWrapped(s.buf, segs[0], segs[1], data);
    } else if |segs| == 1 {
      ScatterDirect(s, segs[0], data);
    } else {
      assert data == [];
      OverwriteWithoutWrap(s.buf, s.writePos, data);
      SpliceNothing(s.buf, s.writePos);
      assert Scatter(s.buf, segs, data) == s.buf;
    }
  }

  /** The ring after the kernel wrote `data` through PostRecv's segments: positions not yet moved. */
  function KernelFill(s: Ring, data: seq<Byte>): (r: Ring)
    requires s.Valid() && |data| <= s.FreeSize()
    ensures r.Valid() && |r.buf| == |s.buf| && r.readPos == s.readPos && r.writePos == s.writePos
  {
    RecvSegmentsCoverFreeSpace(s);
    Ring(Scatter(s.buf, s.RecvSegments(), data), s.readPos, s.writePos)
  }

  /**
   Zero-copy receive refines Enqueue: the kernel filling PostRecv's segments and
   MoveWritePtr over the count it reports leave the very ring that Enqueue of
   the same bytes would have left. The fill alone changes no queued byte.
   */
  lemma ZeroCopyIsEnqueue(s: Ring, data: seq<Byte>)
    requires s.Valid() && |data| <= s.FreeSize()
    ensures KernelFill(s, data).Queue() == s.Queue()
    ensures KernelFill(s, data).FreeSize() == s.FreeSize()
    ensures KernelFill(s, data).Advance(|data|) == s.Enqueue(data)
    ensures s.Enqueue(data).Queue() == s.Queue() + data
  {
    RecvSegmentsCoverFreeSpace(s);
    ScatterIsOverwrite(s, data);
    OverwriteKeepsQueue(s, data);
    PutQueue(s, data);
  }

  // ---------------------------------------------------------------- whole operation sequences

  datatype Op =
    | OpEnqueue(data: seq<Byte>)
    | OpDequeue(n: nat)
    | OpPeek(n: nat)
    | OpConsume(n: nat)
    | OpReceive(data: seq<Byte>)   // the kernel fills the free segments, then MoveWritePtr
    | OpClear
    | OpSizes

  /** What a caller of one operation sees: a count, and the bytes copied out. */
  datatype Reply = Reply(count: nat, bytes: seq<Byte>)

  function EnqueueStep(s: Ring, data: seq<Byte>): (r: (Ring, Reply))
    requires s.Valid()
    ensures r.0.Valid() && |r.0.buf| == |s.buf|
  {
    if |data| == 0 || s.FreeSize() < |data| then (s, Reply(0, [])) else (s.Put(data), Reply(|data|, []))
  }

  function DequeueStep(s: Ring, n: nat): (r: (Ring, Reply))
    requires s.Valid()
    ensures r.0.Valid() && |r.0.buf| == |s.buf|
  {
    if n == 0 || s.DataSize() < n then (s, Reply(0, [])) else (s.Drop(n), Reply(n, Window(s.buf, s.readPos, n)))
  }

  function PeekStep(s: Ring, n: nat): Reply
    requires s.Valid()
  {
    if n == 0 || s.DataSize() < n then Reply(0, []) else Reply(n, Window(s.buf, s.readPos, n))
  }

  function ConsumeStep(s: Ring, n: nat): (r: (Ring, Reply))
    requires s.Valid()
    ensures r.0.Valid() && |r.0.buf| == |s.buf|
  {
    if n == 0 || s.DataSize() < n then (s, Reply(0, [])) else (s.Drop(n), Reply(n, []))
  }

  /** The kernel fills the free segments with `data`; MoveWritePtr takes it in. */
  function ReceiveStep(s: Ring, data: seq<Byte>): (r: (Ring, Reply))
    requires s.Valid()
    ensures r.0.Valid() && |r.0.buf| == |s.buf|
  {
    if |data| == 0 || s.FreeSize() < |data| then (s, Reply(0, []))
    else (KernelFill(s, data).Advance(|data|), Reply(|data|, []))
  }

  /** The operation on the concrete fields. */
  function RingStep(s: Ring, op: Op): (r: (Ring, Reply))
    requires s.Valid()
    ensures r.0.Valid() && |r.0.buf| == |s.buf|
  {
    match op
    case OpEnqueue(data) => EnqueueStep(s, data)
    case OpDequeue(n) => DequeueStep(s, n)
    case OpPeek(n) => (s, PeekStep(s, n))
    case OpConsume(n) => ConsumeStep(s, n)
    case OpReceive(data) => ReceiveStep(s, data)
    case OpClear => (s.Clear(), Reply(0, []))
    case OpSizes => (s, Reply(s.FreeSize(), Window(s.buf, s.readPos, s.DataSize())))
  }

  /** The same operation on a plain queue that holds at most `bound` bytes. */
  function FifoStep(q: seq<Byte>, bound: nat, op: Op): (seq<Byte>, Reply)
    requires |q| <= bound
  {
    match op
    case OpEnqueue(data) => if |q| + |data| <= bound then (q + data, Reply(|data|, [])) else (q, Reply(0, []))
    case OpDequeue(n) => if n <= |q| then (q[n..], Reply(n, q[..n])) else (q, Reply(0, []))
    case OpPeek(n) => if n <= |q| then (q, Reply(n, q[..n])) else (q, Reply(0, []))
    case OpConsume(n) => if n <= |q| then (q[n..], Reply(n, [])) else (q, Reply(0, []))
    case OpReceive(data) => if |q| + |data| <= bound then (q + data, Reply(|data|, [])) else (q, Reply(0, []))
    case OpClear => ([], Reply(0, []))
    case OpSizes => (q, Reply(bound - |q|, q))
  }

  lemma StepRefinesFifo(s: Ring, op: Op)
    requires s.Valid()
    ensures var (t, reply) := RingStep(s, op);
      && |s.Queue()| <= |s.buf| - 1
      && (t.Queue(), reply) == FifoStep(s.Queue(), |s.buf| - 1, op)
  {
    SizesAddUp(s);
    var q := s.Queue();
    match op
    case OpEnqueue(data) =>
      if |data| <= s.FreeSize() { PutQueue(s, data); }
      if data == [] { assert q + data == q; }
    case OpDequeue(n) =>
      if n <= s.DataSize() { DropQueue(s, n); WindowPrefix(s.buf, s.readPos, n, s.DataSize()); }
      if n == 0 { assert q[0..] == q; }
    case OpPeek(n) =>
      if n <= s.DataSize() { WindowPrefix(s.buf, s.readPos, n, s.DataSize()); }
    case OpConsume(n) =>
      if n <= s.DataSize() { DropQueue(s, n); }
      if n == 0 { assert q[0..] == q; }
    case OpReceive(data) =>
      if |data| <= s.FreeSize() { ZeroCopyIsEnqueue(s, data); }
      if data == [] { assert q + data == q; }
    case OpClear => assert s.Clear().Queue() == [];
    case OpSizes =>
  }

  function RunRing(s: Ring, ops: seq<Op>): (r: (Ring, seq<Reply>))
    requires s.Valid()
    ensures r.0.Valid() && |r.0.buf| == |s.buf|
    decreases |ops|
  {
    if ops == [] then (s, [])
    else
      var (t, reply) := RingStep(s, ops[0]);
      var (u, replies) := RunRing(t, ops[1..]);
      (u, [reply] + replies)
  }

  function RunFifo(q: seq<Byte>, bound: nat, ops: seq<Op>): (seq<Byte>, seq<Reply>)
    requires |q| <= bound
    decreases |ops|
  {
    if ops == [] then (q, [])
    else
      var (q', reply) := FifoStep(q, bound, ops[0]);
      var (q'', replies) := RunFifo(q', bound, ops[1..]);
      (q'', [reply] + replies)
  }

  /**
   Ring refinement: for every capacity of at least one and every operation
   sequence, the ring gives exactly the answers of a plain queue of at most
   capacity-1 bytes and ends standing for the same queue.
   */
  lemma {:induction false} RingRefinesFifo(s: Ring, ops: seq<Op>)
    requires s.Valid()
    ensures |s.Queue()| <= |s.buf| - 1
    ensures var (t, replies) := RunRing(s, ops);
      (t.Queue(), replies) == RunFifo(s.Queue(), |s.buf| - 1, ops)
    decreases |ops|
  {
    SizesAddUp(s);
    if ops != [] {
      StepRefinesFifo(s, ops[0]);
      RingRefinesFifo(RingStep(s, ops[0]).0, ops[1..]);
    }
  }
}
