/**
 CRingBufferT: a wrap-around byte array with one slot left empty. The single-
 and the multi-threaded class differ only in their lock, and every method holds
 the lock for its whole body, so one class stands for both.
 */
module RingBuffers {
  import opened Bytes
  import opened RingModel

  /** One more than the largest size_t. */
  const SIZE_T: nat := 0x1_0000_0000_0000_0000

  /** Subtraction of two size_t values, which wraps below zero. */
  function SubtractSize(a: nat, b: nat): nat
    requires b <= a + SIZE_T
  {
    if a >= b then a - b else a + SIZE_T - b
  }

  /** memcpy between two different arrays. */
  method CopyBytes(src: array<Byte>, srcPos: nat, dst: array<Byte>, dstPos: nat, n: nat)
    requires src != dst
    requires srcPos + n <= src.Length && dstPos + n <= dst.Length
    modifies dst
    ensures forall i :: 0 <= i < dst.Length ==>
      dst[i] == if dstPos <= i < dstPos + n then src[srcPos + i - dstPos] else old(dst[i])
  {
    for k := 0 to n
      invariant forall i :: 0 <= i < dst.Length ==>
        dst[i] == if dstPos <= i < dstPos + k then src[srcPos + i - dstPos] else old(dst[i])
    {
      dst[dstPos + k] := src[srcPos + k];
    }
  }

  lemma SameTail(a: seq<Byte>, b: seq<Byte>, n: nat)
    requires n <= |a| == |b| && forall k :: n <= k < |a| ==> a[k] == b[k]
    ensures a[n..] == b[n..]
  {
  }

  class RingBuffer {
    const capacity: nat
    const buffer: array?<Byte>   // null when the allocation failed or the capacity is zero
    var readPos: nat
    var writePos: nat

    ghost predicate Valid()
      reads this
    {
      && (buffer != null ==> buffer.Length == capacity && readPos < capacity && writePos < capacity)
      && (buffer == null ==> readPos == 0 && writePos == 0)
    }

    /** The fields as a value. */
    ghost function State(): (s: Ring)
      reads this, buffer
      requires Valid() && buffer != null
      ensures s.Valid()
    {
      Ring(buffer[..], readPos, writePos)
    }

    /** The queue of bytes this ring stands for; a ring without a buffer is always empty. */
    ghost function Contents(): seq<Byte>
      reads this, buffer
      requires Valid()
    {
      if buffer == null then [] else State().Queue()
    }

    constructor (capacity: nat, allocationSucceeds: bool)
      ensures Valid() && Contents() == []
      ensures this.capacity == capacity
      ensures buffer == null <==> capacity == 0 || !allocationSucceeds
      ensures buffer != null ==> fresh(buffer)
    {
      this.capacity := capacity;
      this.readPos, this.writePos := 0, 0;
      if capacity == 0 || !allocationSucceeds {
        this.buffer := null;
      } else {
        this.buffer := new Byte[capacity];
      }
    }

    function DataSize(): (n: nat)
      reads this, buffer
      requires Valid()
      ensures n == |Contents()|
    {
      if writePos >= readPos then writePos - readPos else capacity - readPos + writePos
    }

    /**
     The room left: with a buffer, queue and room together are one less than the
     capacity. A ring built with capacity zero reports the wrapped size_t -1.
     */
    function FreeSize(): (n: nat)
      reads this, buffer
      requires Valid()
      ensures buffer != null ==> |Contents()| + n == capacity - 1
      ensures buffer == null ==> n == if capacity == 0 then SIZE_T - 1 else capacity - 1
    {
      if DataSize() >= SubtractSize(capacity, 1) then 0
      else SubtractSize(SubtractSize(capacity, DataSize()), 1)
    }

    function DirectWriteSize(): (n: nat)
      reads this, buffer
      requires Valid()
      ensures buffer != null ==> n == State().DirectWriteSize()
    {
      if writePos >= readPos then
        if readPos == 0 then SubtractSize(SubtractSize(capacity, writePos), 1) else capacity - writePos
      else readPos - writePos - 1
    }

    /** The two-segment write of Enqueue. */
    method WriteWrapped(data: array<Byte>, size: nat)
      requires Valid() && buffer != null && data != buffer
      requires size <= data.Length && size <= capacity
      modifies buffer
      ensures buffer[..] == Overwrite(old(buffer[..]), writePos, data[..size])
    {
      var first := Min(size, capacity - writePos);
      CopyBytes(data, 0, buffer, writePos, first);
      if size > first {
        CopyBytes(data, first, buffer, 0, size - first);
      }
      OverwriteAt(old(buffer[..]), writePos, data[..size]);
    }

    method Append(data: array<Byte>, size: nat)
      requires Valid() && buffer != null && data != buffer
      requires size <= data.Length && size <= FreeSize()
      modifies this`writePos, buffer
      ensures Valid() && State() == old(State()).Put(data[..size])
    {
      ghost var before, bytes := State(), data[..size];
      WriteWrapped(data, size);
      writePos := (writePos + size) % capacity;
      assert State() == before.Put(bytes);
    }

    method Enqueue(data: array?<Byte>, size: nat) returns (n: nat)
      requires Valid()
      requires data != null ==> size <= data.Length && data != buffer
      modifies this`writePos, buffer
      ensures Valid()
      ensures n == if data == null || buffer == null || |old(Contents())| + size > capacity - 1 then 0 else size
      ensures Contents() == if n == 0 then old(Contents()) else old(Contents()) + data[..size]
      ensures buffer != null && data != null ==>
        (State(), Reply(n, [])) == EnqueueStep(old(State()), data[..size])
      ensures buffer != null && data == null ==> State() == old(State())
    {
      if data == null || size == 0 || buffer == null {
        return 0;
      }
      if FreeSize() < size {
        return 0;
      }
      PutQueue(State(), data[..size]);
      Append(data, size);
      return size;
    }

    /** The two-segment read of Dequeue and Peek. */
    method ReadWrapped(data: array<Byte>, size: nat)
      requires Valid() && buffer != null && data != buffer
      requires size <= capacity && size <= data.Length
      modifies data
      ensures forall k :: 0 <= k < size ==> data[k] == buffer[Wrap(readPos + k, capacity)]
      ensures forall k :: size <= k < data.Length ==> data[k] == old(data[k])
    {
      var first := Min(size, capacity - readPos);
      CopyBytes(buffer, readPos, data, 0, first);
      if size > first {
        CopyBytes(buffer, 0, data, first, size - first);
      }
    }

    method CopyOut(data: array<Byte>, size: nat)
      requires Valid() && buffer != null && data != buffer
      requires size <= capacity && size <= data.Length
      modifies data
      ensures data[..size] == Window(buffer[..], readPos, size)
      ensures data[size..] == old(data[size..])
    {
      ghost var was := data[..];
      ReadWrapped(data, size);
      WindowIs(buffer[..], readPos, data[..size]);
      SameTail(was, data[..], size);
      assert data[size..] == data[..][size..];
    }

    /** Read the front of the queue and move past it. */
    method TakeOut(data: array<Byte>, size: nat)
      requires Valid() && buffer != null && data != buffer
      requires size <= |Contents()| && size <= data.Length
      modifies this`readPos, data
      ensures Valid() && State() == old(State()).Drop(size)
      ensures Contents() == old(Contents())[size..]
      ensures data[..size] == old(Contents())[..size] == old(Window(buffer[..], readPos, size))
      ensures data[size..] == old(data[size..])
    {
      DropQueue(State(), size);
      WindowPrefix(buffer[..], readPos, size, DataSize());
      CopyOut(data, size);
      readPos := (readPos + size) % capacity;
      assert State() == old(State()).Drop(size);
    }

    method Dequeue(data: array?<Byte>, size: nat) returns (n: nat)
      requires Valid()
      requires data != null ==> size <= data.Length && data != buffer
      modifies this`readPos, data
      ensures Valid()
      ensures n == if data == null || size > |old(Contents())| then 0 else size
      ensures Contents() == old(Contents())[n..]
      ensures data != null ==> data[..n] == old(Contents())[..n] && data[n..] == old(data[n..])
      ensures buffer != null && data != null ==>
        (State(), Reply(n, data[..n])) == DequeueStep(old(State()), size)
    {
      if data == null || size == 0 || buffer == null {
        return 0;
      }
      if DataSize() < size {
        return 0;
      }
      TakeOut(data, size);
      return size;
    }

    method Peek(data: array?<Byte>, size: nat) returns (n: nat)
      requires Valid()
      requires data != null ==> size <= data.Length && data != buffer
      modifies data
      ensures Valid()
      ensures n == if data == null || size > |Contents()| then 0 else size
      ensures data != null ==> data[..n] == Contents()[..n] && data[n..] == old(data[n..])
      ensures buffer != null && data != null ==>
        Reply(n, data[..n]) == PeekStep(State(), size)
    {
      if data == null || size == 0 || buffer == null {
        return 0;
      }
      if DataSize() < size {
        return 0;
      }
      WindowPrefix(buffer[..], readPos, size, DataSize());
      CopyOut(data, size);
      return size;
    }

    method Consume(size: nat) returns (n: nat)
      requires Valid()
      modifies this`readPos
      ensures Valid()
      ensures n == if size > |old(Contents())| then 0 else size
      ensures Contents() == old(Contents())[n..]
      ensures buffer != null ==> (State(), Reply(n, [])) == ConsumeStep(old(State()), size)
    {
      if size == 0 || buffer == null {
        return 0;
      }
      if DataSize() < size {
        return 0;
      }
      DropQueue(State(), size);
      readPos := (readPos + size) % capacity;
      assert State() == old(State()).Drop(size);
      return size;
    }

    method AdvanceBy(size: nat)
      requires Valid() && buffer != null
      modifies this`writePos
      ensures Valid() && State() == old(State()).Advance(size)
    {
      writePos := (writePos + size) % capacity;
    }

    /** Take in `size` bytes the kernel has already written behind the queue. */
    method MoveWritePtr(size: nat) returns (n: nat)
      requires Valid()
      modifies this`writePos
      ensures Valid()
      ensures n == if buffer == null || size > capacity - 1 - |old(Contents())| then 0 else size
      ensures n == 0 ==> Contents() == old(Contents())
      ensures n > 0 ==> Contents() == old(Contents()) + old(Window(buffer[..], writePos, n))
      ensures buffer != null ==> State() == if n == 0 then old(State()) else old(State()).Advance(n)
    {
      if size == 0 || buffer == null {
        return 0;
      }
      if FreeSize() < size {
        return 0;
      }
      AdvanceQueue(State(), size);
      AdvanceBy(size);
      return size;
    }

    method Clear()
      requires Valid()
      modifies this`readPos, this`writePos
      ensures Valid() && Contents() == []
      ensures buffer != null ==> State() == old(State()).Clear()
    {
      if buffer == null {
        return;
      }
      readPos, writePos := 0, 0;
    }

    /** One locked read of the read pointer and both sizes; a ring without a buffer reports zero bytes. */
    method GetSendInfo() returns (info: SendInfo)
      requires Valid()
      ensures info == if buffer == null then SendInfo(0, 0, 0) else State().Snapshot()
      ensures InBounds(SendSegments(info), if buffer == null then 0 else buffer.Length)
      ensures Gather(if buffer == null then [] else buffer[..], SendSegments(info)) == Contents()
    {
      if buffer != null {
        SnapshotSpellsQueue(State());
      }
      var direct := if writePos >= readPos then writePos - readPos else capacity - readPos;
      info := SendInfo(readPos, DataSize(), direct);
    }
  }
}
