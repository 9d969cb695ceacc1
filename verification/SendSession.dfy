/**
 RequestSendMsg, PostSend, ProcessSend and DisconnectSessionInternal as the code
 that changes one session's fields. Each method, when nothing interferes, does
 what its thread does in the transition system of SendProtocol.dfy: the steps
 there are these bodies, cut at every shared access.
 */
module SendSession {
  import opened Bytes
  import opened RingModel
  import opened RingBuffers
  import opened SendProtocol

  /** Every step leads to a smaller rank, so a thread that runs alone finishes. */
  function Rank(pc: Pc): nat {
    match pc
    case ReqCheck(_) => 30
    case ReqEnqueue(_) => 29
    case DoneCheckWorker(_) => 28
    case DoneCheckSend(_) => 27
    case DoneConsume(_) => 26
    case DoneSnapshot => 25
    case DoneSubmit(_) => 24
    case DoneRelease => 24
    case DoneRecheck => 23
    case PostCheck => 22
    case PostExchange => 21
    case PostSnapshot => 20
    case PostEmptyRelease => 19
    case PostSubmit(_) => 19
    case FailRelease => 18
    case DisExchange => 17
    case DisClose => 16
    case DisReset => 15
    case DisPush => 14
    case Finished => 0
  }

  lemma RankFalls(sh: Shared, pc: Pc, accepted: bool)
    requires SharedOk(sh) && pc != Finished
    ensures Rank(ThreadStep(sh, pc, accepted).1) < Rank(pc)
  {
  }

  /** What a thread that starts at `pc` leaves behind when it runs to its end undisturbed. */
  function Alone(sh: Shared, pc: Pc, accepted: bool): (after: Shared)
    requires SharedOk(sh) && InBounds(Submitted(pc), |sh.ring.buf|)
    ensures SharedOk(after) && |after.ring.buf| == |sh.ring.buf|
    decreases Rank(pc)
  {
    if pc == Finished then sh
    else
      RankFalls(sh, pc, accepted);
      ThreadStepOk(sh, pc, accepted);
      var (next, to) := ThreadStep(sh, pc, accepted);
      Alone(next, to, accepted)
  }

  /** Running alone is one of the transition system's runs. */
  lemma {:induction false} AloneIsARun(s: State, t: Tid, accepted: bool) returns (trace: seq<Action>)
    requires WellFormed(s) && t in s.pcs
    ensures InBounds(Submitted(s.pcs[t]), |s.sh.ring.buf|)
    ensures CanRun(s, trace)
    ensures Run(s, trace) == State(Alone(s.sh, s.pcs[t], accepted), s.pcs[t := Finished])
    decreases Rank(s.pcs[t])
  {
    assert InBounds(Submitted(s.pcs[t]), |s.sh.ring.buf|);
    if s.pcs[t] == Finished {
      trace := [];
      assert s.pcs[t := Finished] == s.pcs;
    } else {
      var a := Step(t, accepted);
      NextWellFormed(s, a);
      RankFalls(s.sh, s.pcs[t], accepted);
      var rest := AloneIsARun(Next(s, a), t, accepted);
      trace := [a] + rest;
      assert trace[1..] == rest;
      Again(s.pcs, t, ThreadStep(s.sh, s.pcs[t], accepted).1, Finished);
    }
  }

  // ---------------------------------------------------------------- stretches of a lone thread

  lemma AloneResets(sh: Shared, accepted: bool)
    requires SharedOk(sh)
    ensures Alone(sh, DisReset, accepted) == sh.(sending := false, flagReset := true, closes := sh.closes + 1)
  {
    assert Alone(sh, DisReset, accepted) == Alone(sh.(sending := false, flagReset := true), DisPush, accepted);
  }

  lemma AloneCloses(sh: Shared, accepted: bool)
    requires SharedOk(sh)
    ensures Alone(sh, DisClose, accepted) ==
      sh.(socketOpen := false, sending := false, flagReset := true, closes := sh.closes + 1)
  {
    assert ThreadStep(sh, DisClose, accepted) == (sh.(socketOpen := false), DisReset);
    AloneResets(sh.(socketOpen := false), accepted);
  }

  lemma AloneDisconnects(sh: Shared, accepted: bool)
    requires SharedOk(sh)
    ensures Alone(sh, DisExchange, accepted) ==
      if sh.valid then
        sh.(valid := false, socketOpen := false, sending := false, flagReset := true, closes := sh.closes + 1)
      else sh
  {
    if sh.valid {
      assert ThreadStep(sh, DisExchange, accepted) == (sh.(valid := false), DisClose);
      AloneCloses(sh.(valid := false), accepted);
    }
  }

  /** WSASend and what follows it, in PostSend and in ProcessSend. */
  lemma AloneSubmits(sh: Shared, pc: Pc, accepted: bool)
    requires SharedOk(sh) && (pc.PostSubmit? || pc.DoneSubmit?) && InBounds(pc.segs, |sh.ring.buf|)
    ensures Alone(sh, pc, accepted) ==
      if sh.socketOpen && accepted then sh.(inflight := sh.inflight + [Send(pc.segs, 0)])
      else Alone(sh.(sending := false), DisExchange, accepted)
  {
    if !(sh.socketOpen && accepted) {
      assert Alone(sh, pc, accepted) == Alone(sh, FailRelease, accepted);
    }
  }

  lemma AloneWins(sh: Shared, accepted: bool)
    requires SharedOk(sh) && sh.valid && !sh.sending
    ensures Alone(sh, PostCheck, accepted) ==
      Alone(sh.(sending := true, overtaken := false, won := sh.ring.Queue()), PostSnapshot, accepted)
  {
    assert Alone(sh, PostCheck, accepted) == Alone(sh, PostExchange, accepted);
  }

  lemma AloneStays(sh: Shared, accepted: bool)
    requires SharedOk(sh) && (!sh.valid || sh.sending)
    ensures Alone(sh, PostCheck, accepted) == sh
  {
    if sh.valid {
      assert Alone(sh, PostCheck, accepted) == Alone(sh, PostExchange, accepted);
    }
  }

  lemma AlonePostSnapshot(sh: Shared, accepted: bool)
    requires SharedOk(sh)
    ensures var segs := SendSegments(sh.ring.Snapshot());
      && InBounds(segs, |sh.ring.buf|)
      && Alone(sh, PostSnapshot, accepted) ==
         if sh.ring.DataSize() == 0 then sh.(sending := false, overtaken := false)
         else Alone(sh, PostSubmit(segs), accepted)
  {
    SnapshotSpellsQueue(sh.ring);
    if sh.ring.DataSize() == 0 {
      assert Alone(sh, PostSnapshot, accepted) == Alone(sh, PostEmptyRelease, accepted);
    } else {
      assert ThreadStep(sh, PostSnapshot, accepted) == (sh, PostSubmit(SendSegments(sh.ring.Snapshot())));
    }
  }

  lemma AloneDoneSnapshot(sh: Shared, accepted: bool)
    requires SharedOk(sh)
    ensures var segs := SendSegments(sh.ring.Snapshot());
      && InBounds(segs, |sh.ring.buf|)
      && Alone(sh, DoneSnapshot, accepted) ==
         if sh.ring.DataSize() == 0 then Alone(sh.(sending := false), DoneRecheck, accepted)
         else Alone(sh, DoneSubmit(segs), accepted)
  {
    SnapshotSpellsQueue(sh.ring);
    if sh.ring.DataSize() == 0 {
      assert ThreadStep(sh, DoneSnapshot, accepted) == (sh, DoneRelease);
      assert Alone(sh, DoneSnapshot, accepted) == Alone(sh, DoneRelease, accepted);
    } else {
      assert ThreadStep(sh, DoneSnapshot, accepted) == (sh, DoneSubmit(SendSegments(sh.ring.Snapshot())));
    }
  }

  lemma AloneRequests(sh: Shared, data: seq<Byte>, accepted: bool)
    requires SharedOk(sh) && sh.valid
    ensures Alone(sh, ReqCheck(data), accepted) ==
      if |data| <= sh.ring.FreeSize() then
        Alone(sh.(ring := sh.ring.Enqueue(data), accepted := sh.accepted + data), PostCheck, accepted)
      else Alone(sh, DisExchange, accepted)
  {
    assert Alone(sh, ReqCheck(data), accepted) == Alone(sh, ReqEnqueue(data), accepted);
  }

  lemma AloneConsumes(sh: Shared, n: nat, accepted: bool)
    requires SharedOk(sh)
    ensures Alone(sh, DoneConsume(n), accepted) ==
      if n <= sh.ring.DataSize() then
        Alone(sh.(ring := sh.ring.Consume(n), consumed := sh.consumed + sh.ring.Queue()[..n]), DoneSnapshot, accepted)
      else Alone(sh, DisExchange, accepted)
  {
  }

  lemma AloneChecks(sh: Shared, n: nat, accepted: bool)
    requires SharedOk(sh)
    ensures Alone(sh, DoneCheckSend(n), accepted) ==
      if sh.valid then Alone(sh, DoneConsume(n), accepted) else sh.(completionLost := true)
  {
  }

  class Session {
    const sendQ: RingBuffer
    var valid: bool
    var sending: bool
    var socketOpen: bool
    var inflight: seq<Send>      // what WSASend handed to the kernel
    var handedOver: nat          // pushes to the pending stack and the event queue

    ghost var accepted: seq<Byte>
    ghost var consumed: seq<Byte>
    ghost var wire: seq<Byte>
    ghost var flagReset: bool
    ghost var completionLost: bool
    ghost var overtaken: bool
    ghost var won: seq<Byte>

    ghost predicate Valid()
      reads this, sendQ
    {
      sendQ.Valid() && sendQ.buffer != null &&
      forall i :: 0 <= i < |inflight| ==> InBounds(inflight[i].segs, sendQ.capacity)
    }

    ghost function View(): (sh: Shared)
      reads this, sendQ, sendQ.buffer
      requires Valid()
      ensures SharedOk(sh)
    {
      Shared(valid, sending, socketOpen, sendQ.State(), inflight, accepted, consumed, wire,
             flagReset, completionLost, overtaken, won, handedOver)
    }

    constructor (capacity: nat)
      requires capacity >= 1
      ensures Valid() && fresh(sendQ) && fresh(sendQ.buffer)
      ensures sendQ.capacity == capacity && sendQ.Contents() == []
      ensures View() == Initial(sendQ.State()).sh
    {
      sendQ := new RingBuffer(capacity, true);
      valid, sending, socketOpen, inflight, handedOver := true, false, true, [], 0;
      accepted, consumed, wire, won := [], [], [], [];
      flagReset, completionLost, overtaken := false, false, false;
    }

    /** What the winner of the valid flag does: close the socket, reset the sending flag, hand over. */
    method Close()
      requires Valid()
      modifies this
      ensures Valid()
      ensures View() == old(View()).(valid := false, socketOpen := false, sending := false, flagReset := true,
                                     closes := old(handedOver) + 1)
    {
      valid := false;
      socketOpen := false;
      sending := false;
      flagReset := true;
      handedOver := handedOver + 1;
    }

    /** Exchange the valid flag; the winner closes the socket, resets the sending flag and hands over. */
    method DisconnectSessionInternal(ghost wsaAccepts: bool) returns (won: bool)
      requires Valid()
      modifies this
      ensures Valid() && View() == Alone(old(View()), DisExchange, wsaAccepts)
      ensures won == old(valid)
    {
      AloneDisconnects(View(), wsaAccepts);
      if !valid {
        return false;
      }
      Close();
      return true;
    }

    method ReleaseFlag()
      requires Valid()
      modifies this`sending
      ensures Valid() && View() == old(View()).(sending := false)
    {
      sending := false;
    }

    /** WSASend was refused: release the flag and close the session. */
    method Refused(ghost wsaAccepts: bool)
      requires Valid()
      modifies this
      ensures Valid() && View() == Alone(old(View()).(sending := false), DisExchange, wsaAccepts)
    {
      ReleaseFlag();
      var _ := DisconnectSessionInternal(wsaAccepts);
    }

    /** WSASend of these segments; a refusal releases the flag and closes the session. */
    method Submit(segs: seq<Segment>, pc: Pc, wsaAccepts: bool)
      requires Valid() && InBounds(segs, sendQ.capacity)
      requires pc == PostSubmit(segs) || pc == DoneSubmit(segs)
      modifies this
      ensures Valid() && View() == Alone(old(View()), pc, wsaAccepts)
    {
      AloneSubmits(View(), pc, wsaAccepts);
      if socketOpen && wsaAccepts {
        inflight := inflight + [Send(segs, 0)];
      } else {
        Refused(wsaAccepts);
      }
    }

    /** The WSABUF array of one snapshot. */
    method BuildSegments() returns (dataSize: nat, segs: seq<Segment>)
      requires Valid()
      ensures dataSize == sendQ.State().DataSize() && segs == SendSegments(sendQ.State().Snapshot())
      ensures InBounds(segs, sendQ.capacity)
      ensures segs == [] <==> dataSize == 0
    {
      SnapshotSpellsQueue(sendQ.State());
      var info := sendQ.GetSendInfo();
      dataSize := info.dataSize;
      segs := [];
      if info.directReadSize > 0 {
        segs := [Segment(info.readPtr, info.directReadSize)];
        if info.dataSize > info.directReadSize {
          segs := segs + [Segment(0, info.dataSize - info.directReadSize)];
        }
      }
    }

    /** PostSend after its exchange was won: snapshot the queue and send all of it, or release the flag. */
    method SendQueue(wsaAccepts: bool)
      requires Valid()
      modifies this
      ensures Valid() && View() == Alone(old(View()), PostSnapshot, wsaAccepts)
    {
      AlonePostSnapshot(View(), wsaAccepts);
      var dataSize, segs := BuildSegments();
      if dataSize == 0 {
        sending, overtaken := false, false;
        return;
      }
      Submit(segs, PostSubmit(segs), wsaAccepts);
    }

    /** The exchange of the sending flag, when it was free. */
    method Win()
      requires Valid()
      modifies this`sending, this`overtaken, this`won
      ensures Valid()
      ensures View() == old(View()).(sending := true, overtaken := false, won := old(View()).ring.Queue())
    {
      sending, overtaken, won := true, false, sendQ.Contents();
    }

    method PostSend(wsaAccepts: bool)
      requires Valid()
      modifies this
      ensures Valid() && View() == Alone(old(View()), PostCheck, wsaAccepts)
    {
      if !valid || sending {
        AloneStays(View(), wsaAccepts);
        return;
      }
      AloneWins(View(), wsaAccepts);
      Win();
      SendQueue(wsaAccepts);
    }

    /** The enqueue of RequestSendMsg. */
    method EnqueueMessage(data: array<Byte>, length: nat) returns (ok: bool)
      requires Valid() && length <= data.Length && data != sendQ.buffer
      modifies this`accepted, sendQ`writePos, sendQ.buffer
      ensures Valid() && ok == (length <= old(sendQ.FreeSize()))
      ensures var sh, bytes := old(View()), data[..length];
        View() == if ok then sh.(ring := sh.ring.Enqueue(bytes), accepted := sh.accepted + bytes) else sh
    {
      ghost var bytes := data[..length];
      if length == 0 {
        assert bytes == [];
        PutNothing(sendQ.State());
      }
      var enqueued := sendQ.Enqueue(data, length);
      ok := enqueued == length;
      if ok {
        accepted := accepted + bytes;
      }
    }

    method RequestSendMsg(data: array<Byte>, length: nat, wsaAccepts: bool)
      requires Valid() && length <= data.Length && data != sendQ.buffer
      modifies this, sendQ`writePos, sendQ.buffer
      ensures Valid() && View() == Alone(old(View()), ReqCheck(data[..length]), wsaAccepts)
    {
      if !valid {
        return;
      }
      AloneRequests(View(), data[..length], wsaAccepts);
      var ok := EnqueueMessage(data, length);
      if !ok {
        var _ := DisconnectSessionInternal(wsaAccepts);
        return;
      }
      PostSend(wsaAccepts);
    }

    /** The second look at the ring after the release, for what another thread enqueued meanwhile. */
    method Recheck(wsaAccepts: bool)
      requires Valid()
      modifies this
      ensures Valid() && View() == Alone(old(View()), DoneRecheck, wsaAccepts)
    {
      if sendQ.DataSize() > 0 {
        PostSend(wsaAccepts);
      }
    }

    /** ProcessSend after its consume: send on what is left, or release the flag. */
    method SendRemainder(wsaAccepts: bool)
      requires Valid()
      modifies this
      ensures Valid() && View() == Alone(old(View()), DoneSnapshot, wsaAccepts)
    {
      AloneDoneSnapshot(View(), wsaAccepts);
      var dataSize, segs := BuildSegments();
      if dataSize > 0 {
        Submit(segs, DoneSubmit(segs), wsaAccepts);
        return;
      }
      ReleaseFlag();
      Recheck(wsaAccepts);
    }

    /** Drop what a completed send transmitted. */
    method ConsumeSent(n: nat) returns (ok: bool)
      requires Valid()
      modifies this`consumed, sendQ`readPos
      ensures Valid() && ok == (n <= old(sendQ.DataSize()))
      ensures var sh := old(View());
        View() == if ok then sh.(ring := sh.ring.Consume(n), consumed := sh.consumed + sh.ring.Queue()[..n]) else sh
    {
      if n == 0 {
        DropNone(sendQ.State());
      }
      ghost var q := sendQ.Contents();
      var now := sendQ.Consume(n);
      ok := now == n;
      if ok {
        consumed := consumed + q[..n];
      }
    }

    /** ProcessSend after its check of the session. */
    method ConsumeAndGoOn(n: nat, wsaAccepts: bool)
      requires Valid()
      modifies this, sendQ`readPos
      ensures Valid() && View() == Alone(old(View()), DoneConsume(n), wsaAccepts)
    {
      AloneConsumes(View(), n, wsaAccepts);
      var ok := ConsumeSent(n);
      if !ok {
        var _ := DisconnectSessionInternal(wsaAccepts);
        return;
      }
      SendRemainder(wsaAccepts);
    }

    /** The completion of a send: n of its bytes were transmitted. */
    method ProcessSend(n: nat, wsaAccepts: bool)
      requires Valid()
      modifies this, sendQ`readPos
      ensures Valid() && View() == Alone(old(View()), DoneCheckSend(n), wsaAccepts)
    {
      AloneChecks(View(), n, wsaAccepts);
      if !valid {
        completionLost := true;
        return;
      }
      ConsumeAndGoOn(n, wsaAccepts);
    }
  }
}
