/**
 The variable-length room list message of CCentralizedServer::SendRoomList: a
 16-bit size field over a length that is not bounded by 16 bits.
 */
module RoomList {
  import opened Bytes
  import opened RingModel
  import opened Framing
  import opened SendProtocol

  /** sizeof(MSG_S2C_ROOM_LIST): the packed header and an int32_t count. */
  const LIST_HEADER: nat := 6

  /** sizeof(RoomInfo), packed: 4 + 64 + 4 + 4 + 1. */
  const ROOM_INFO: nat := 77

  /** The most rooms whose list still fits the size field. */
  const MAX_ROOMS: nat := 851

  function MsgSize(roomCount: nat): nat {
    LIST_HEADER + ROOM_INFO * roomCount
  }

  /** n as `width` little-endian bytes, dropping what does not fit. */
  function LittleEndian(n: nat, width: nat): (b: seq<Byte>)
    ensures |b| == width
    decreases width
  {
    if width == 0 then [] else [(n % 256) as Byte] + LittleEndian(n / 256, width - 1)
  }

  function Message(rooms: seq<seq<Byte>>): seq<Byte> {
    LittleEndian(MsgSize(|rooms|), 2) + LittleEndian(|rooms|, 4) + Concat(rooms)
  }

  lemma {:induction false} RoomsLength(rooms: seq<seq<Byte>>)
    requires forall k :: 0 <= k < |rooms| ==> |rooms[k]| == ROOM_INFO
    ensures |Concat(rooms)| == ROOM_INFO * |rooms|
    decreases |rooms|
  {
    if rooms != [] {
      RoomsLength(rooms[1..]);
    }
  }

  lemma SizeFieldWraps(n: nat)
    ensures SizeField(LittleEndian(n, 2)) == n % UINT16
  {
    var b := LittleEndian(n, 2);
    assert b[1] == LittleEndian(n / 256, 1)[0];
  }

  /** The number little-endian bytes stand for. */
  function Value(b: seq<Byte>): nat {
    if b == [] then 0 else b[0] as nat + 256 * Value(b[1..])
  }

  function Bound(width: nat): nat {
    if width == 0 then 1 else 256 * Bound(width - 1)
  }

  lemma {:induction false} ValueOfLittleEndian(n: nat, width: nat)
    requires n < Bound(width)
    ensures Value(LittleEndian(n, width)) == n
    decreases width
  {
    if width > 0 {
      ValueOfLittleEndian(n / 256, width - 1);
      assert LittleEndian(n, width)[1..] == LittleEndian(n / 256, width - 1);
    }
  }

  lemma {:induction false} RoomAt(rooms: seq<seq<Byte>>, k: nat)
    requires k < |rooms| && forall j :: 0 <= j < |rooms| ==> |rooms[j]| == ROOM_INFO
    ensures |Concat(rooms)| == ROOM_INFO * |rooms|
    ensures Concat(rooms)[ROOM_INFO * k..ROOM_INFO * (k + 1)] == rooms[k]
    decreases k
  {
    RoomsLength(rooms);
    if k > 0 {
      RoomAt(rooms[1..], k - 1);
      var tail := Concat(rooms[1..]);
      assert Concat(rooms)[ROOM_INFO * k..ROOM_INFO * (k + 1)] == tail[ROOM_INFO * (k - 1)..ROOM_INFO * k];
    } else {
      assert Concat(rooms)[..ROOM_INFO] == rooms[0];
    }
  }

  /** What a client that knows the layout reads back: the count, and room after room. */
  lemma MessageReadsBack(rooms: seq<seq<Byte>>)
    requires |rooms| < 0x8000_0000 && forall j :: 0 <= j < |rooms| ==> |rooms[j]| == ROOM_INFO
    ensures |Message(rooms)| == MsgSize(|rooms|)
    ensures Value(Message(rooms)[2..LIST_HEADER]) == |rooms|
    ensures forall k :: 0 <= k < |rooms| ==>
      Message(rooms)[LIST_HEADER + ROOM_INFO * k..LIST_HEADER + ROOM_INFO * (k + 1)] == rooms[k]
  {
    RoomsLength(rooms);
    assert Bound(4) == 256 * (256 * (256 * (256 * Bound(0))));
    ValueOfLittleEndian(|rooms|, 4);
    var m, body := Message(rooms), Concat(rooms);
    assert m[2..LIST_HEADER] == LittleEndian(|rooms|, 4);
    assert m[LIST_HEADER..] == body;
    forall k | 0 <= k < |rooms|
      ensures m[LIST_HEADER + ROOM_INFO * k..LIST_HEADER + ROOM_INFO * (k + 1)] == rooms[k]
    {
      RoomAt(rooms, k);
      assert m[LIST_HEADER + ROOM_INFO * k..LIST_HEADER + ROOM_INFO * (k + 1)] ==
        body[ROOM_INFO * k..ROOM_INFO * (k + 1)];
    }
  }

  /**
   The size field is the message's length exactly up to 851 rooms. Beyond that
   it is truncated, but then the message does not fit any default-sized send
   ring either, not even an empty one, and sending it closes the session: a
   message with a wrong size field never enters the stream.
   */
  lemma TruncatedListIsNeverSent(rooms: seq<seq<Byte>>, sh: Shared, accepted: bool)
    requires forall k :: 0 <= k < |rooms| ==> |rooms[k]| == ROOM_INFO
    requires SharedOk(sh) && |sh.ring.buf| == 65536
    ensures |Message(rooms)| == MsgSize(|rooms|)
    ensures IsFrame(Centralized, Message(rooms)) <==> |rooms| <= MAX_ROOMS
    ensures |rooms| > MAX_ROOMS ==> ThreadStep(sh, ReqEnqueue(Message(rooms)), accepted) == (sh, DisExchange)
    ensures |rooms| <= MAX_ROOMS && sh.ring.Queue() == [] ==>
      ThreadStep(sh, ReqEnqueue(Message(rooms)), accepted).0.accepted == sh.accepted + Message(rooms)
  {
    RoomsLength(rooms);
    SizeFieldWraps(MsgSize(|rooms|));
    var m := Message(rooms);
    assert m[..2] == LittleEndian(MsgSize(|rooms|), 2);
    assert SizeField(m) == SizeField(m[..2]);
    SizesAddUp(sh.ring);
  }

  lemma RoomAppended(head: seq<Byte>, rooms: seq<seq<Byte>>, index: nat)
    requires index < |rooms|
    ensures head + Concat(rooms[..index + 1]) == head + Concat(rooms[..index]) + rooms[index]
  {
    assert rooms[..index + 1] == rooms[..index] + [rooms[index]];
    ConcatAppend(rooms[..index], [rooms[index]]);
    assert Concat([rooms[index]]) == rooms[index];
    Reassociate(head, Concat(rooms[..index]), rooms[index]);
  }

  /** Lay `bytes` into the buffer behind its first `offset` bytes. */
  method FillIn(buffer: array<Byte>, offset: nat, bytes: seq<Byte>)
    requires offset + |bytes| <= buffer.Length
    modifies buffer
    ensures buffer[..offset + |bytes|] == old(buffer[..offset]) + bytes
  {
    forall i | 0 <= i < |bytes| {
      buffer[offset + i] := bytes[i];
    }
  }

  /** SendRoomList up to the send: allocate the buffer, write the header, then fill in room after room. */
  method BuildRoomList(rooms: seq<seq<Byte>>) returns (buffer: array<Byte>)
    requires forall k :: 0 <= k < |rooms| ==> |rooms[k]| == ROOM_INFO
    ensures fresh(buffer) && buffer[..] == Message(rooms)
  {
    RoomsLength(rooms);
    var msgSize := LIST_HEADER + ROOM_INFO * |rooms|;
    var head := LittleEndian(msgSize, 2) + LittleEndian(|rooms|, 4);
    buffer := new Byte[msgSize];
    FillIn(buffer, 0, head);
    var index, offset := 0, LIST_HEADER;
    while index < |rooms|
      invariant 0 <= index <= |rooms| && offset == LIST_HEADER + ROOM_INFO * index
      invariant buffer[..offset] == head + Concat(rooms[..index])
    {
      RoomAppended(head, rooms, index);
      FillIn(buffer, offset, rooms[index]);
      index, offset := index + 1, offset + ROOM_INFO;
    }
    assert rooms[..|rooms|] == rooms;
    assert buffer[..] == buffer[..msgSize];
  }
}
