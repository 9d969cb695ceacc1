/** The byte stream of the send protocol: nothing is lost, repeated or reordered on its way to the wire. */
module SendStream {
  import opened Bytes
  import opened RingModel
  import opened SendProtocol
  import opened SendSafety

  /** The segments lie in the ring and spell the front of its queue. */
  ghost predicate Spells(ring: Ring, segs: seq<Segment>)
    requires ring.Valid()
  {
    && InBounds(segs, |ring.buf|)
    && Total(segs) <= ring.DataSize()
    && Touches(segs, ring, ring.DataSize())
    && Gather(ring.buf, segs) == ring.Queue()[..Total(segs)]
  }

  /** How many bytes are on the wire and not yet consumed. */
  function Ahead(sh: Shared): int {
    |sh.wire| - |sh.consumed|
  }

  ghost predicate SendOk(sh: Shared, op: Send)
    requires sh.ring.Valid()
  {
    Spells(sh.ring, op.segs) && 0 < Total(op.segs) && op.done <= Total(op.segs) && op.done == Ahead(sh)
  }

  ghost predicate DataOk(sh: Shared, pc: Pc)
    requires sh.ring.Valid()
  {
    match pc
    case PostSubmit(segs) => sh.flagReset || (Spells(sh.ring, segs) && Total(segs) > 0)
    case DoneSubmit(segs) => sh.flagReset || (Spells(sh.ring, segs) && Total(segs) > 0)
    case DoneCheckWorker(n) => 1 <= n == Ahead(sh) <= sh.ring.DataSize()
    case DoneCheckSend(n) => 1 <= n == Ahead(sh) <= sh.ring.DataSize()
    case DoneConsume(n) => 1 <= n == Ahead(sh) <= sh.ring.DataSize()
    case _ => true
  }

  /** Consumed and queued bytes make up the accepted ones; the wire carries a prefix of them. */
  ghost predicate StreamOk(sh: Shared)
    requires sh.ring.Valid()
  {
    sh.consumed + sh.ring.Queue() == sh.accepted && |sh.consumed| <= |sh.wire| && sh.wire <= sh.accepted
  }

  ghost predicate DataInv(s: State)
    requires WellFormed(s)
  {
    && StreamOk(s.sh)
    && (forall i :: 0 <= i < |s.sh.inflight| ==> SendOk(s.sh, s.sh.inflight[i]))
    && (forall t :: t in s.pcs ==> DataOk(s.sh, s.pcs[t]))
    && (Ahead(s.sh) > 0 ==> s.sh.inflight != [] || Some(s.pcs, IsCarrier) || s.sh.completionLost)
  }

  // ---------------------------------------------------------------- what single steps do to the stream

  lemma SpellsPut(ring: Ring, segs: seq<Segment>, data: seq<Byte>)
    requires ring.Valid() && |data| <= ring.FreeSize() && Spells(ring, segs)
    ensures Spells(ring.Put(data), segs)
  {
    PutQueue(ring, data);
    PutKeepsSegments(ring, segs, data);
  }

  lemma SnapshotSpells(ring: Ring)
    requires ring.Valid()
    ensures Spells(ring, SendSegments(ring.Snapshot()))
    ensures Total(SendSegments(ring.Snapshot())) == ring.DataSize()
    ensures SendSegments(ring.Snapshot()) == [] <==> ring.DataSize() == 0
  {
    SnapshotSpellsQueue(ring);
    SnapshotTouches(ring);
  }

  /** A step that leaves ring, stream and kernel alone. */
  lemma DataQuiet(s: State, t: Tid, sh: Shared, pc: Pc)
    requires WellFormed(s) && DataInv(s)
    requires WellFormed(State(sh, s.pcs[t := pc]))
    requires sh.ring == s.sh.ring && sh.inflight == s.sh.inflight
    requires sh.accepted == s.sh.accepted && sh.consumed == s.sh.consumed && sh.wire == s.sh.wire
    requires s.sh.flagReset ==> sh.flagReset
    requires s.sh.completionLost ==> sh.completionLost
    requires DataOk(sh, pc)
    requires t in s.pcs && IsCarrier(s.pcs[t]) ==> IsCarrier(pc) || sh.completionLost
    ensures DataInv(State(sh, s.pcs[t := pc]))
  {
    MoveThread(s.pcs, t, pc, IsCarrier);
    var pcs := s.pcs[t := pc];
    forall u | u in pcs ensures DataOk(sh, pcs[u]) {
      if u != t { assert DataOk(s.sh, s.pcs[u]); }
    }
    forall i | 0 <= i < |sh.inflight| ensures SendOk(sh, sh.inflight[i]) {
      assert SendOk(s.sh, s.sh.inflight[i]);
    }
  }

  lemma DataOkPut(sh: Shared, after: Shared, pc: Pc, data: seq<Byte>)
    requires sh.ring.Valid() && |data| <= sh.ring.FreeSize() && DataOk(sh, pc)
    requires after.ring == sh.ring.Put(data) && after.flagReset == sh.flagReset
    requires after.wire == sh.wire && after.consumed == sh.consumed
    ensures DataOk(after, pc)
  {
    PutQueue(sh.ring, data);
    if !sh.flagReset && (pc.PostSubmit? || pc.DoneSubmit?) {
      SpellsPut(sh.ring, pc.segs, data);
    }
  }

  lemma SendOkPut(sh: Shared, after: Shared, op: Send, data: seq<Byte>)
    requires sh.ring.Valid() && |data| <= sh.ring.FreeSize() && SendOk(sh, op)
    requires after.ring == sh.ring.Put(data) && after.wire == sh.wire && after.consumed == sh.consumed
    ensures SendOk(after, op)
  {
    SpellsPut(sh.ring, op.segs, data);
  }

  lemma StreamOkPut(sh: Shared, after: Shared, data: seq<Byte>)
    requires sh.ring.Valid() && |data| <= sh.ring.FreeSize() && StreamOk(sh)
    requires after == sh.(ring := sh.ring.Put(data), accepted := sh.accepted + data)
    ensures StreamOk(after)
  {
    PutQueue(sh.ring, data);
    Reassociate(sh.consumed, sh.ring.Queue(), data);
  }

  lemma DataEnqueue(s: State, t: Tid)
    requires WellFormed(s) && DataInv(s) && t in s.pcs && s.pcs[t].ReqEnqueue?
    requires |s.pcs[t].data| <= s.sh.ring.FreeSize()
    ensures WellFormed(Next(s, Step(t, false))) && DataInv(Next(s, Step(t, false)))
  {
    NextWellFormed(s, Step(t, false));
    var data := s.pcs[t].data;
    var after := Next(s, Step(t, false));
    StreamOkPut(s.sh, after.sh, data);
    MoveThread(s.pcs, t, PostCheck, IsCarrier);
    forall u | u in after.pcs ensures DataOk(after.sh, after.pcs[u]) {
      if u != t { DataOkPut(s.sh, after.sh, s.pcs[u], data); }
    }
    forall i | 0 <= i < |after.sh.inflight| ensures SendOk(after.sh, after.sh.inflight[i]) {
      SendOkPut(s.sh, after.sh, s.sh.inflight[i], data);
    }
  }

  /** Dropping n bytes moves them from the queue to the consumed ones. */
  lemma ConsumeStream(sh: Shared, after: Shared, n: nat)
    requires SharedOk(sh) && StreamOk(sh) && n == Ahead(sh) <= sh.ring.DataSize()
    requires after == sh.(ring := sh.ring.Drop(n), consumed := sh.consumed + sh.ring.Queue()[..n])
    ensures StreamOk(after) && Ahead(after) == 0
  {
    DropQueue(sh.ring, n);
    var q := sh.ring.Queue();
    assert q[..n] + q[n..] == q;
    Reassociate(sh.consumed, q[..n], q[n..]);
  }

  /** The data of a thread that neither carries a completion nor holds the flag is not touched by a consume. */
  lemma DataOkElsewhere(sh: Shared, after: Shared, pc: Pc)
    requires sh.ring.Valid() && after.ring.Valid() && DataOk(sh, pc)
    requires !IsCarrier(pc) && (!sh.flagReset ==> !IsHolder(pc)) && after.flagReset == sh.flagReset
    ensures DataOk(after, pc)
  {
  }

  lemma DataConsume(s: State, t: Tid)
    requires WellFormed(s) && DataInv(s) && TokenInv(s) && CarrierInv(s) && t in s.pcs && s.pcs[t].DoneConsume?
    requires WellFormed(Next(s, Step(t, false)))
    ensures Outcome(s, Step(t, false)).1 == DoneSnapshot
    ensures DataInv(Next(s, Step(t, false)))
  {
    assert DataOk(s.sh, s.pcs[t]);
    var after := Next(s, Step(t, false));
    assert Some(s.pcs, IsCarrier) by { assert IsCarrier(s.pcs[t]); }
    assert IsHolder(s.pcs[t]);
    ConsumeStream(s.sh, after.sh, s.pcs[t].n);
    forall u | u in after.pcs ensures DataOk(after.sh, after.pcs[u]) {
      if u != t { DataOkElsewhere(s.sh, after.sh, s.pcs[u]); }
    }
  }

  lemma DataSubmit(s: State, t: Tid)
    requires WellFormed(s) && DataInv(s) && CloseInv(s) && TokenInv(s) && CarrierInv(s)
    requires t in s.pcs && (s.pcs[t].PostSubmit? || s.pcs[t].DoneSubmit?) && s.sh.socketOpen
    ensures WellFormed(Next(s, Step(t, true))) && DataInv(Next(s, Step(t, true)))
  {
    NextWellFormed(s, Step(t, true));
    HoldersAreOne(s, t);
    assert DataOk(s.sh, s.pcs[t]);
    assert Ahead(s.sh) == 0;
    var after := s.sh.(inflight := [Send(Submitted(s.pcs[t]), 0)]);
    assert Next(s, Step(t, true)) == State(after, s.pcs[t := Finished]);
    MoveThread(s.pcs, t, Finished, IsCarrier);
    forall u | u in s.pcs && u != t ensures DataOk(after, s.pcs[u]) {
      DataOkElsewhere(s.sh, after, s.pcs[u]);
    }
  }

  lemma TransmitExtendsPrefix(accepted: seq<Byte>, consumed: seq<Byte>, queue: seq<Byte>,
                              wire: seq<Byte>, bytes: seq<Byte>, n: nat)
    requires accepted == consumed + queue && |consumed| <= |wire| && wire <= accepted
    requires |bytes| <= |queue| && bytes == queue[..|bytes|]
    requires |wire| - |consumed| + n <= |bytes|
    ensures wire + bytes[|wire| - |consumed|..|wire| - |consumed| + n] <= accepted
  {
  }

  lemma TransmitStream(sh: Shared, n: nat)
    requires SharedOk(sh) && StreamOk(sh) && |sh.inflight| == 1 && SendOk(sh, sh.inflight[0])
    requires sh.inflight[0].done + n <= Total(sh.inflight[0].segs)
    ensures var after := Transmitted(sh, 0, n);
      && StreamOk(after) && Ahead(after) == Ahead(sh) + n
      && after.inflight == [sh.inflight[0].(done := sh.inflight[0].done + n)]
  {
    var bytes := Gather(sh.ring.buf, sh.inflight[0].segs);
    TransmitExtendsPrefix(sh.accepted, sh.consumed, sh.ring.Queue(), sh.wire, bytes, n);
  }

  lemma DataTransmit(s: State, i: nat, n: nat)
    requires WellFormed(s) && DataInv(s) && CarrierInv(s)
    requires Enabled(s, Transmit(i, n))
    requires WellFormed(Next(s, Transmit(i, n)))
    ensures DataInv(Next(s, Transmit(i, n)))
  {
    assert SendOk(s.sh, s.sh.inflight[i]) && i == 0;
    TransmitStream(s.sh, n);
    var after := Next(s, Transmit(i, n));
    forall u | u in after.pcs ensures DataOk(after.sh, after.pcs[u]) {
      assert DataOk(s.sh, s.pcs[u]);
      assert !IsCarrier(s.pcs[u]);
    }
  }

  lemma DataOkSame(sh: Shared, after: Shared, pc: Pc)
    requires sh.ring.Valid() && after.ring == sh.ring && after.flagReset == sh.flagReset
    requires after.wire == sh.wire && after.consumed == sh.consumed && DataOk(sh, pc)
    ensures DataOk(after, pc)
  {
  }

  /** The completion of the one outstanding send carries what is on the wire and not yet consumed. */
  lemma CompletedData(sh: Shared, failed: bool)
    requires SharedOk(sh) && StreamOk(sh) && |sh.inflight| == 1 && SendOk(sh, sh.inflight[0])
    ensures var (after, pc) := Completed(sh, 0, failed);
      && after == sh.(inflight := [], completionLost := after.completionLost)
      && StreamOk(after) && DataOk(after, pc) && (IsCarrier(pc) || after.completionLost)
  {
  }

  lemma DataComplete(s: State, i: nat, t: Tid, failed: bool)
    requires WellFormed(s) && DataInv(s) && CarrierInv(s)
    requires Enabled(s, Complete(i, t, failed))
    ensures WellFormed(Next(s, Complete(i, t, failed))) && DataInv(Next(s, Complete(i, t, failed)))
  {
    NextWellFormed(s, Complete(i, t, failed));
    assert |s.sh.inflight| == 1 && i == 0;
    CompletedData(s.sh, failed);
    var (after, pc) := Completed(s.sh, i, failed);
    assert Next(s, Complete(i, t, failed)) == State(after, s.pcs[t := pc]);
    MoveThread(s.pcs, t, pc, IsCarrier);
    forall u | u in s.pcs && u != t ensures DataOk(after, s.pcs[u]) {
      DataOkSame(s.sh, after, s.pcs[u]);
    }
  }

  /** The step is none of an enqueue, a consume or a successful WSASend. */
  predicate IsQuiet(sh: Shared, pc: Pc, accepted: bool)
    requires sh.ring.Valid()
  {
    match pc
    case ReqEnqueue(data) => |data| > sh.ring.FreeSize()
    case DoneConsume(_) => false
    case PostSubmit(_) => !(sh.socketOpen && accepted)
    case DoneSubmit(_) => !(sh.socketOpen && accepted)
    case _ => true
  }

  lemma StreamUntouched(sh: Shared, pc: Pc, accepted: bool)
    requires SharedOk(sh) && IsQuiet(sh, pc, accepted) && DataOk(sh, pc)
    ensures var (after, next) := ThreadStep(sh, pc, accepted);
      && after.ring == sh.ring && after.inflight == sh.inflight
      && after.accepted == sh.accepted && after.consumed == sh.consumed && after.wire == sh.wire
      && (sh.flagReset ==> after.flagReset) && (sh.completionLost ==> after.completionLost)
      && DataOk(after, next)
      && (IsCarrier(pc) ==> IsCarrier(next) || after.completionLost)
  {
    if pc.PostSnapshot? || pc.DoneSnapshot? {
      SnapshotSpells(sh.ring);
    }
  }

  lemma DataThread(s: State, t: Tid, accepted: bool)
    requires WellFormed(s) && Enabled(s, Step(t, accepted))
    requires CloseInv(s) && TokenInv(s) && CarrierInv(s) && DataInv(s)
    requires WellFormed(Next(s, Step(t, accepted)))
    ensures DataInv(Next(s, Step(t, accepted)))
  {
    var pc := s.pcs[t];
    if IsQuiet(s.sh, pc, accepted) {
      assert DataOk(s.sh, pc);
      StreamUntouched(s.sh, pc, accepted);
      var (sh, next) := ThreadStep(s.sh, pc, accepted);
      DataQuiet(s, t, sh, next);
    } else if pc.ReqEnqueue? {
      DataEnqueue(s, t);
    } else if pc.DoneConsume? {
      DataConsume(s, t);
    } else {
      DataSubmit(s, t);
    }
  }

  lemma DataStep(s: State, a: Action)
    requires WellFormed(s) && Enabled(s, a) && CloseInv(s) && TokenInv(s) && CarrierInv(s) && DataInv(s)
    requires WellFormed(Next(s, a))
    ensures DataInv(Next(s, a))
  {
    match a
    case Transmit(i, n) => DataTransmit(s, i, n);
    case Complete(i, t, failed) => DataComplete(s, i, t, failed);
    case CallSend(t, data) => DataQuiet(s, t, s.sh, ReqCheck(data));
    case CallDisconnect(t) => DataQuiet(s, t, s.sh, DisExchange);
    case Step(t, accepted) => DataThread(s, t, accepted);
  }
}
