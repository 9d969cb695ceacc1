/**
 The receive path of one session: PostRecv, ProcessRecv and ParsePackets of
 MO_MiniGames_Server/IOCPServer.cpp over the receive ring.
 */
module Receive {
  import opened Bytes
  import opened RingModel
  import opened RingBuffers
  import opened Framing

  /** What the receive path works on: the ring, `_valid`, and the packets handed on so far. */
  datatype Recv = Recv(ring: Ring, valid: bool, delivered: seq<seq<Byte>>)

  /** Packets leave ParsePackets only in the echo and the centralized mode. */
  function HandedOn(mode: Mode, frames: seq<seq<Byte>>): seq<seq<Byte>> {
    if mode.EchoTest? || mode.Centralized? then frames else []
  }

  /** Take the packets of a parse off the ring and hand them on. */
  function Settled(mode: Mode, s: Recv, p: Parse): (t: Recv)
    requires s.ring.Valid()
    ensures t.ring.Valid() && |t.ring.buf| == |s.ring.buf|
  {
    Recv(s.ring.Drop(s.ring.DataSize() - Min(|p.rest|, s.ring.DataSize())), s.valid && !p.bad,
         s.delivered + HandedOn(mode, p.frames))
  }

  /** Repeatedly cut the front frame off the ring. */
  function Parsed(mode: Mode, s: Recv): (t: Recv)
    requires s.ring.Valid()
    ensures t.ring.Valid() && |t.ring.buf| == |s.ring.buf|
  {
    Settled(mode, s, ParseAll(mode, s.ring.Queue()))
  }

  /** One turn of the loop that finds a complete packet. */
  function CutFront(mode: Mode, s: Recv, size: nat): (t: Recv)
    requires s.ring.Valid() && size <= s.ring.DataSize()
    ensures t.ring.Valid() && |t.ring.buf| == |s.ring.buf|
  {
    Recv(s.ring.Drop(size), s.valid, s.delivered + HandedOn(mode, [s.ring.Queue()[..size]]))
  }

  lemma ParsedAfterCut(mode: Mode, s: Recv, size: nat)
    requires s.ring.Valid() && Inspect(mode, s.ring.Queue()) == Complete(size)
    ensures size <= s.ring.DataSize()
    ensures Parsed(mode, CutFront(mode, s, size)) == Parsed(mode, s)
  {
    var q := s.ring.Queue();
    DropQueue(s.ring, size);
    ParseSplits(mode, q[size..]);
    SettledAfterCut(mode, s, size, ParseAll(mode, q[size..]));
  }

  lemma SettledAfterCut(mode: Mode, s: Recv, size: nat, p: Parse)
    requires s.ring.Valid() && size + |p.rest| <= s.ring.DataSize()
    requires s.ring.Drop(size).DataSize() == s.ring.DataSize() - size
    ensures Settled(mode, CutFront(mode, s, size), p) ==
      Settled(mode, s, p.(frames := [s.ring.Queue()[..size]] + p.frames))
  {
    DropTwice(s.ring, size, s.ring.DataSize() - size - |p.rest|);
    HandedOnInTurn(mode, s.delivered, s.ring.Queue()[..size], p.frames);
  }

  lemma HandedOnInTurn(mode: Mode, delivered: seq<seq<Byte>>, f: seq<Byte>, rest: seq<seq<Byte>>)
    ensures delivered + HandedOn(mode, [f]) + HandedOn(mode, rest) == delivered + HandedOn(mode, [f] + rest)
  {
    Reassociate(delivered, [f], rest);
    if !(mode.EchoTest? || mode.Centralized?) { EmptyRight(delivered); }
  }

  lemma ParsedAtStop(mode: Mode, s: Recv)
    requires s.ring.Valid() && !Inspect(mode, s.ring.Queue()).Complete?
    ensures Parsed(mode, s) == s.(valid := s.valid && Inspect(mode, s.ring.Queue()) != Invalid)
  {
    DropNone(s.ring);
    assert s.delivered + [] == s.delivered;
  }

  /** The ring afterwards holds exactly the unparsed rest. */
  lemma ParsedQueue(mode: Mode, s: Recv)
    requires s.ring.Valid()
    ensures Parsed(mode, s).ring.Queue() == ParseAll(mode, s.ring.Queue()).rest
  {
    var q := s.ring.Queue();
    var p := ParseAll(mode, q);
    ParseSplits(mode, q);
    DropQueue(s.ring, |q| - |p.rest|);
    assert q[|q| - |p.rest|..] == p.rest;
  }

  /** One receive completion of n bytes. */
  function Processed(mode: Mode, s: Recv, n: nat): (t: Recv)
    requires s.ring.Valid()
    ensures t.ring.Valid() && |t.ring.buf| == |s.ring.buf|
  {
    if n == 0 || n > s.ring.FreeSize() then s.(valid := false)
    else Parsed(mode, s.(ring := s.ring.Advance(n)))
  }

  /** PostRecv, given WSARecv's answer: the session stays valid only if the next receive is posted. */
  function Reposted(s: Recv, accepted: bool): (t: Recv)
    requires s.ring.Valid()
    ensures t.ring == s.ring && t.delivered == s.delivered
  {
    s.(valid := s.valid && s.ring.FreeSize() > 0 && accepted)
  }

  class Session {
    const mode: Mode
    const recvQ: RingBuffer
    var valid: bool
    var socketOpen: bool
    var delivered: seq<seq<Byte>>   // handed to EchoTestSend or pushed as RECEIVED events, in order

    ghost predicate Valid()
      reads this, recvQ
    {
      recvQ.Valid() && recvQ.buffer != null
    }

    ghost function Model(): (s: Recv)
      reads this, recvQ, recvQ.buffer
      requires Valid()
      ensures s.ring.Valid()
    {
      Recv(recvQ.State(), valid, delivered)
    }

    constructor (mode: Mode, capacity: nat)
      requires capacity >= 1
      ensures Valid() && fresh(recvQ) && fresh(recvQ.buffer)
      ensures this.mode == mode && recvQ.capacity == capacity
      ensures recvQ.Contents() == [] && valid && socketOpen && delivered == []
    {
      this.mode := mode;
      this.recvQ := new RingBuffer(capacity, true);
      this.valid, this.socketOpen, this.delivered := true, true, [];
    }

    method DisconnectSessionInternal() returns (won: bool)
      modifies this`valid, this`socketOpen
      ensures won == old(valid) && !valid
      ensures socketOpen == (old(socketOpen) && !won)
    {
      if !valid {
        return false;
      }
      valid := false;
      socketOpen := false;
      return true;
    }

    /** The header of the front packet, with the echo correction. The short-peek branch is dead. */
    method PeekFrameSize() returns (size: nat)
      requires Valid() && |recvQ.Contents()| >= HEADER_SIZE
      ensures size == FrameSize(mode, recvQ.Contents())
    {
      var header := new Byte[HEADER_SIZE];
      var peekedSize := recvQ.Peek(header, HEADER_SIZE);
      if peekedSize != HEADER_SIZE {
        assert false;
      }
      assert header[..HEADER_SIZE] == header[..];
      size := SizeField(header[..]);
      if mode.EchoTest? {
        size := (size + HEADER_SIZE) % UINT16;
      }
    }

    /** Take the front packet off the ring and hand it on. The short-dequeue branch is dead. */
    method TakePacket(size: nat)
      requires Valid() && size <= |recvQ.Contents()|
      modifies this`delivered, recvQ`readPos
      ensures Valid()
      ensures Model() == CutFront(mode, old(Model()), size)
      ensures recvQ.Contents() == old(recvQ.Contents())[size..]
      ensures mode.EchoTest? || mode.Centralized? ==>
        delivered == old(delivered) + [old(recvQ.Contents())[..size]]
    {
      var packet := new Byte[size];
      var dequeuedSize := recvQ.Dequeue(packet, size);
      if dequeuedSize != size {
        assert false;
      }
      assert packet[..] == packet[..size];
      if size == 0 {
        DropNone(recvQ.State());
      }
      if mode.EchoTest? || mode.Centralized? {
        delivered := delivered + [packet[..]];
      } else {
        assert delivered + [] == delivered;
      }
    }

    /** One turn of the loop: cut the front packet, or stop. */
    method ParseTurn() returns (more: bool)
      requires Valid()
      modifies this`valid, this`socketOpen, this`delivered, recvQ`readPos
      ensures Valid()
      ensures more ==>
        && Parsed(mode, Model()) == Parsed(mode, old(Model())) && valid == old(valid)
        && |recvQ.Contents()| + HEADER_SIZE <= |old(recvQ.Contents())|
      ensures !more ==> Model() == Parsed(mode, old(Model()))
      ensures socketOpen == (old(socketOpen) && (valid || !old(valid)))
    {
      var dataSize := recvQ.DataSize();
      if dataSize < HEADER_SIZE {
        ParsedAtStop(mode, Model());
        return false;
      }
      var size := PeekFrameSize();
      if size < MIN_PACKET_SIZE || size > MAX_PACKET_SIZE {
        ParsedAtStop(mode, Model());
        var _ := DisconnectSessionInternal();
        return false;
      }
      if dataSize < size {
        ParsedAtStop(mode, Model());
        return false;
      }
      ParsedAfterCut(mode, Model(), size);
      TakePacket(size);
      return true;
    }

    /**
     Cut every complete packet off the front of the receive ring. The loop ends
     because each turn that goes on removes at least two queued bytes.
     */
    method ParsePackets()
      requires Valid()
      modifies this`valid, this`socketOpen, this`delivered, recvQ`readPos
      ensures Valid()
      ensures Model() == Parsed(mode, old(Model()))
      ensures recvQ.Contents() == ParseAll(mode, old(recvQ.Contents())).rest
      ensures socketOpen == (old(socketOpen) && (valid || !old(valid)))
    {
      ParsedQueue(mode, Model());
      var more := true;
      while more
        invariant Valid()
        invariant if more then Parsed(mode, Model()) == Parsed(mode, old(Model())) && valid == old(valid)
                  else Model() == Parsed(mode, old(Model()))
        invariant socketOpen == (old(socketOpen) && (valid || !old(valid)))
        decreases more, |recvQ.Contents()|
      {
        more := ParseTurn();
      }
    }

    /**
     Post a receive over the whole free space. `accepted` is WSARecv's answer;
     `segs` is what it was given, or nothing when no call was made.
     */
    method PostRecv(accepted: bool) returns (posted: bool, segs: seq<Segment>)
      requires Valid()
      modifies this`valid, this`socketOpen
      ensures Valid() && recvQ.State() == old(recvQ.State())
      ensures posted <==> old(valid) && recvQ.FreeSize() > 0 && accepted
      ensures valid == posted
      ensures socketOpen == (old(socketOpen) && (valid || !old(valid)))
      ensures segs == if old(valid) then recvQ.State().RecvSegments() else []
      ensures posted ==> InBounds(segs, recvQ.capacity) && Total(segs) == recvQ.FreeSize()
    {
      RecvSegmentsCoverFreeSpace(recvQ.State());
      segs := [];
      if !valid {
        return false, [];
      }
      var directWriteSize := recvQ.DirectWriteSize();
      if directWriteSize > 0 {
        segs := [Segment(recvQ.writePos, directWriteSize)];
        var freeSize := recvQ.FreeSize();
        if freeSize > directWriteSize {
          segs := segs + [Segment(0, freeSize - directWriteSize)];
        }
      }
      if |segs| == 0 {
        var _ := DisconnectSessionInternal();
        return false, segs;
      }
      if !accepted {
        var _ := DisconnectSessionInternal();
        return false, segs;
      }
      return true, segs;
    }

    /** A receive completion: n bytes are already in the ring's free segments. */
    method ProcessRecv(n: nat, accepted: bool) returns (posted: bool)
      requires Valid()
      modifies this`valid, this`socketOpen, this`delivered, recvQ`readPos, recvQ`writePos
      ensures Valid() && valid == posted
      ensures Model() == Reposted(Processed(mode, old(Model()), n), accepted)
      ensures posted ==> 0 < n <= old(recvQ.FreeSize()) && old(valid) && accepted
      ensures socketOpen == (old(socketOpen) && (valid || !old(valid)))
    {
      if n == 0 {
        var _ := DisconnectSessionInternal();
        return false;
      }
      var moved := recvQ.MoveWritePtr(n);
      if moved != n {
        var _ := DisconnectSessionInternal();
        return false;
      }
      ParsePackets();
      var segs;
      posted, segs := PostRecv(accepted);
    }
  }

  // ---------------------------------------------------------------- streams

  /** The kernel delivers `chunk` into the posted segments, its completion is processed and a new receive accepted. */
  function Receive1(mode: Mode, s: Recv, chunk: seq<Byte>): (t: Recv)
    requires s.ring.Valid() && |chunk| <= s.ring.FreeSize()
    ensures t.ring.Valid() && |t.ring.buf| == |s.ring.buf|
  {
    Reposted(Processed(mode, s.(ring := KernelFill(s.ring, chunk)), |chunk|), true)
  }

  /** Every chunk is non-empty and fits the free space it is received into. */
  predicate Fits(mode: Mode, s: Recv, chunks: seq<seq<Byte>>)
    requires s.ring.Valid()
    decreases |chunks|
  {
    chunks == [] || !s.valid ||
    (1 <= |chunks[0]| <= s.ring.FreeSize() && Fits(mode, Receive1(mode, s, chunks[0]), chunks[1..]))
  }

  /** Receive one chunk after the other; once the session is closed no receive is posted any more. */
  function ReceiveAll(mode: Mode, s: Recv, chunks: seq<seq<Byte>>): (t: Recv)
    requires s.ring.Valid() && Fits(mode, s, chunks)
    ensures t.ring.Valid() && |t.ring.buf| == |s.ring.buf|
    decreases |chunks|
  {
    if chunks == [] || !s.valid then s
    else ReceiveAll(mode, Receive1(mode, s, chunks[0]), chunks[1..])
  }

  /** One completion parses what was left over together with what arrived. */
  lemma ReceiveOneChunk(mode: Mode, s: Recv, chunk: seq<Byte>)
    requires s.ring.Valid() && 1 <= |chunk| <= s.ring.FreeSize()
    ensures var p := ParseAll(mode, s.ring.Queue() + chunk);
      var t := Receive1(mode, s, chunk);
      && t.ring.Queue() == p.rest
      && t.valid == (s.valid && !p.bad && |p.rest| + 1 < |s.ring.buf|)
      && (mode.EchoTest? || mode.Centralized? ==> t.delivered == s.delivered + p.frames)
      && (mode.Partitioned? || mode.UnifiedStrand? ==> t.delivered == s.delivered)
  {
    ZeroCopyIsEnqueue(s.ring, chunk);
    ParsedQueue(mode, s.(ring := s.ring.Enqueue(chunk)));
    SizesAddUp(Receive1(mode, s, chunk).ring);
  }

  lemma FirstChunk(mode: Mode, s: Recv, chunk: seq<Byte>, more: seq<Byte>)
    requires s.ring.Valid() && s.valid && 1 <= |chunk| <= s.ring.FreeSize()
    ensures var first := ParseAll(mode, s.ring.Queue() + chunk);
      var t := Receive1(mode, s, chunk);
      && ParseAll(mode, s.ring.Queue() + (chunk + more)) == Resume(mode, first, more)
      && t.ring.Queue() == first.rest
      && (t.valid ==> !first.bad && Inspect(mode, first.rest) == NeedMore)
      && (|s.ring.buf| == 65536 ==> t.valid == !first.bad)
  {
    var q := s.ring.Queue();
    ReceiveOneChunk(mode, s, chunk);
    ParseSplits(mode, q + chunk);
    ParseContinues(mode, q + chunk, more);
    Reassociate(q, chunk, more);
    if !ParseAll(mode, q + chunk).bad {
      ResidueFits(mode, q + chunk);
    }
  }

  /**
   Chunking independence: however a byte stream is split into receives, the
   packets handed on are those of one parse of the whole stream, up to and
   including the point of the first invalid length; the session is closed
   exactly when there is one, and otherwise the ring holds the unparsed rest.
   The two modes without a receiver for packets hand on none. A smaller ring than
   the default may also close by filling up, but while the session is open the
   same holds.
   */
  lemma {:induction false} ChunkingIndependence(mode: Mode, s: Recv, chunks: seq<seq<Byte>>)
    requires s.ring.Valid() && s.valid && Fits(mode, s, chunks)
    requires Inspect(mode, s.ring.Queue()) == NeedMore
    ensures var p := ParseAll(mode, s.ring.Queue() + Concat(chunks));
      var t := ReceiveAll(mode, s, chunks);
      && (mode.EchoTest? || mode.Centralized? ==>
            (t.valid || |s.ring.buf| == 65536 ==> t.delivered == s.delivered + p.frames))
      && (mode.Partitioned? || mode.UnifiedStrand? ==> t.delivered == s.delivered)
      && (t.valid ==> !p.bad && t.ring.Queue() == p.rest)
      && (|s.ring.buf| == 65536 ==> t.valid == !p.bad)
    decreases |chunks|
  {
    if chunks == [] {
      EmptyRight(s.ring.Queue());
      EmptyRight(s.delivered);
    } else {
      var t := Receive1(mode, s, chunks[0]);
      var first := ParseAll(mode, s.ring.Queue() + chunks[0]);
      var more := Concat(chunks[1..]);
      FirstChunk(mode, s, chunks[0], more);
      ReceiveOneChunk(mode, s, chunks[0]);
      if t.valid {
        ChunkingIndependence(mode, t, chunks[1..]);
        Reassociate(s.delivered, first.frames, ParseAll(mode, first.rest + more).frames);
      }
    }
  }

  /** A stream as receives of one byte each. */
  function Bytewise(stream: seq<Byte>): seq<seq<Byte>> {
    if stream == [] then [] else [[stream[0]]] + Bytewise(stream[1..])
  }

  /** Every stream can arrive: received byte by byte it always fits a ring of the default size. */
  lemma {:induction false} EveryStreamCanArrive(mode: Mode, s: Recv, stream: seq<Byte>)
    requires s.ring.Valid() && |s.ring.buf| == 65536
    requires s.valid ==> Inspect(mode, s.ring.Queue()) == NeedMore
    ensures Fits(mode, s, Bytewise(stream)) && Concat(Bytewise(stream)) == stream
    decreases |stream|
  {
    if stream != [] {
      var chunk := [stream[0]];
      assert Bytewise(stream)[1..] == Bytewise(stream[1..]);
      assert chunk + stream[1..] == stream;
      if s.valid {
        SizesAddUp(s.ring);
        FirstChunk(mode, s, chunk, []);
        EveryStreamCanArrive(mode, Receive1(mode, s, chunk), stream[1..]);
      } else {
        EveryStreamCanArrive(mode, s, stream[1..]);
      }
    }
  }

  /** Frames received in any chunking come out as that list. */
  lemma FramesComeOut(mode: Mode, s: Recv, frames: seq<seq<Byte>>, chunks: seq<seq<Byte>>)
    requires s.ring.Valid() && |s.ring.buf| == 65536 && s.valid && s.ring.Queue() == [] && s.delivered == []
    requires mode.EchoTest? || mode.Centralized?
    requires forall k :: 0 <= k < |frames| ==> IsFrame(mode, frames[k])
    requires Concat(chunks) == Concat(frames) && Fits(mode, s, chunks)
    ensures var t := ReceiveAll(mode, s, chunks);
      t.delivered == frames && t.valid && t.ring.Queue() == []
  {
    var stream := Concat(frames);
    assert ParseAll(mode, stream) == Parse(frames, [], false) by {
      ParseIsTheOnlySplit(mode, frames, []);
      EmptyRight(stream);
    }
    assert s.ring.Queue() + Concat(chunks) == stream;
    ChunkingIndependence(mode, s, chunks);
    assert [] + frames == frames;
  }

  /**
   Framing round trip: frames whose size field is their length, concatenated
   and received in any chunking in centralized mode, come out as that list.
   */
  lemma FramingRoundTrip(s: Recv, frames: seq<seq<Byte>>, chunks: seq<seq<Byte>>)
    requires s.ring.Valid() && |s.ring.buf| == 65536 && s.valid && s.ring.Queue() == [] && s.delivered == []
    requires forall k :: 0 <= k < |frames| ==>
      2 <= |frames[k]| <= 65535 && SizeField(frames[k]) == |frames[k]|
    requires Concat(chunks) == Concat(frames) && Fits(Centralized, s, chunks)
    ensures var t := ReceiveAll(Centralized, s, chunks);
      t.delivered == frames && t.valid && t.ring.Queue() == []
  {
    forall k | 0 <= k < |frames| ensures IsFrame(Centralized, frames[k]) {
    }
    FramesComeOut(Centralized, s, frames, chunks);
  }

  /**
   The same for echo mode, where the size field counts the payload alone: frames
   of two bytes more than their size field says come out as that list.
   */
  lemma EchoRoundTrip(s: Recv, frames: seq<seq<Byte>>, chunks: seq<seq<Byte>>)
    requires s.ring.Valid() && |s.ring.buf| == 65536 && s.valid && s.ring.Queue() == [] && s.delivered == []
    requires forall k :: 0 <= k < |frames| ==>
      2 <= |frames[k]| <= 65535 && SizeField(frames[k]) + 2 == |frames[k]|
    requires Concat(chunks) == Concat(frames) && Fits(EchoTest, s, chunks)
    ensures var t := ReceiveAll(EchoTest, s, chunks);
      t.delivered == frames && t.valid && t.ring.Queue() == []
  {
    forall k | 0 <= k < |frames| ensures IsFrame(EchoTest, frames[k]) {
      EchoFrame(frames[k]);
    }
    FramesComeOut(EchoTest, s, frames, chunks);
  }

  lemma EchoFrame(f: seq<Byte>)
    requires 2 <= |f| <= 65535 && SizeField(f) + 2 == |f|
    ensures IsFrame(EchoTest, f)
  {
  }

  /** What the dispatcher demands of every packet. */
  ghost predicate PassLengthChecks(packets: seq<seq<Byte>>) {
    forall k :: 0 <= k < |packets| ==> |packets[k]| >= HEADER_SIZE && SizeField(packets[k]) == |packets[k]|
  }

  lemma FramesPass(q: seq<Byte>)
    ensures PassLengthChecks(ParseAll(Centralized, q).frames)
  {
    ParseSplits(Centralized, q);
    var frames := ParseAll(Centralized, q).frames;
    forall k | 0 <= k < |frames| ensures |frames[k]| >= HEADER_SIZE && SizeField(frames[k]) == |frames[k]| {
      assert IsFrame(Centralized, frames[k]);
    }
  }

  lemma BothPass(a: seq<seq<Byte>>, b: seq<seq<Byte>>)
    requires PassLengthChecks(a) && PassLengthChecks(b)
    ensures PassLengthChecks(a + b)
  {
  }

  /** Every packet that leaves ParsePackets in centralized mode passes the dispatcher's length checks. */
  lemma {:induction false} DeliveredPacketsAreFrames(s: Recv, chunks: seq<seq<Byte>>)
    requires s.ring.Valid() && Fits(Centralized, s, chunks) && PassLengthChecks(s.delivered)
    ensures PassLengthChecks(ReceiveAll(Centralized, s, chunks).delivered)
    decreases |chunks|
  {
    if chunks != [] && s.valid {
      var t := Receive1(Centralized, s, chunks[0]);
      ReceiveOneChunk(Centralized, s, chunks[0]);
      FramesPass(s.ring.Queue() + chunks[0]);
      BothPass(s.delivered, ParseAll(Centralized, s.ring.Queue() + chunks[0]).frames);
      DeliveredPacketsAreFrames(t, chunks[1..]);
    }
  }

  /**
   Receive never stalls: with the default 65536-byte ring, a parse that leaves
   the session open leaves at least one free byte, so PostRecv never meets a
   full ring and always offers the kernel a non-empty segment.
   */
  lemma ReceiveNeverStalls(mode: Mode, s: Recv)
    requires s.ring.Valid() && |s.ring.buf| == 65536 && s.valid
    requires Parsed(mode, s).valid
    ensures Parsed(mode, s).ring.DataSize() <= 65534
    ensures Parsed(mode, s).ring.FreeSize() >= 1
    ensures Parsed(mode, s).ring.RecvSegments() != []
  {
    ParsedQueue(mode, s);
    ResidueFits(mode, s.ring.Queue());
    SizesAddUp(Parsed(mode, s).ring);
    RecvSegmentsCoverFreeSpace(Parsed(mode, s).ring);
  }
}
