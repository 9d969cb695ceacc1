/**
 What an open echo session can always still do: its receive worker can post a
 receive behind every incomplete packet, and from rest whatever arrives next can
 be echoed packet by packet.
 */
module EchoProgress {
  import opened Bytes
  import opened RingModel
  import opened Framing
  import opened SendProtocol
  import opened SendTheorems
  import opened SendRuns
  import opened SendProgress
  import opened Echo
  import opened EchoRuns

  /**
   A worker that finds no complete packet goes on to post a receive: from every
   reachable open state, and whatever incomplete packet is left in the ring, a run
   leads to the same state with a receive outstanding.
   */
  lemma IncompletePacketsWait(e: EchoState) returns (n: EchoState)
    requires EchoReachable(e) && e.send.sh.valid && e.rpc == Parsing
    requires EchoOk(e) && Inspect(EchoTest, e.recvRing.Queue()) == NeedMore
    ensures EchoLeads(e, n) && n == e.(rpc := Posted)
  {
    assert EchoCanRun(e, []) && EchoRun(e, []) == e;
    var u := Unused(e.send.pcs.Keys);
    n := RepostLeads(e, e, u);
  }

  // ---------------------------------------------------------------- what closes the session

  /** The session is closed, or its receive worker is about to close it. */
  ghost predicate Doomed(e: EchoState) {
    || !e.send.sh.valid
    || ((e.rpc.Closing? || e.rpc.ClosingBad?) && e.rpc.t in e.send.pcs && e.send.pcs[e.rpc.t] == DisExchange)
  }

  /** Only winning the right to close ends a session's validity. */
  lemma OnlyDisExchangeCloses(sh: Shared, pc: Pc, accepted: bool)
    requires SharedOk(sh)
    ensures ThreadStep(sh, pc, accepted).0.valid <==> sh.valid && pc != DisExchange
  {
  }

  lemma WhatInvalidates(s: State, a: Action)
    requires WellFormed(s) && Enabled(s, a) && !a.CallSend?
    ensures Next(s, a).sh.valid <==> s.sh.valid && !(a.Step? && s.pcs[a.t] == DisExchange)
  {
    if a.Step? { OnlyDisExchangeCloses(s.sh, s.pcs[a.t], a.sendAccepted); }
  }

  lemma DoomedStep(e: EchoState, a: EchoAction)
    requires EchoOk(e) && Doomed(e) && EchoEnabled(e, a)
    ensures Doomed(EchoNext(e, a))
  {
    if a.SendSide? { WhatInvalidates(e.send, a.a); }
  }

  /** No run saves a session whose receive worker has turned to closing it. */
  lemma {:induction false} DoomedForGood(e: EchoState, trace: seq<EchoAction>)
    requires EchoOk(e) && Doomed(e) && EchoCanRun(e, trace)
    ensures Doomed(EchoRun(e, trace))
    decreases |trace|
  {
    if trace != [] {
      DoomedStep(e, trace[0]);
      EchoNextOk(e, trace[0]);
      DoomedForGood(EchoNext(e, trace[0]), trace[1..]);
    }
  }

  /** What goes wrong for the receive worker: a failed receive, a length that is refused, a WSARecv that fails. */
  ghost predicate ReceiveFailure(e: EchoState, a: EchoAction)
    requires e.recvRing.Valid()
  {
    || a.RecvFails?
    || (a.RecvStep? && e.rpc == Parsing && Inspect(EchoTest, e.recvRing.Queue()) == Invalid)
    || (a.RecvStep? && e.rpc == Reposting && !a.accepted)
  }

  /** A thread of the send side wins the right to close. */
  ghost predicate SendSideCloses(e: EchoState, a: EchoAction) {
    a.SendSide? && a.a.Step? && a.a.t in e.send.pcs && e.send.pcs[a.a.t] == DisExchange
  }

  lemma ReceiveDooms(e: EchoState, t: Tid, accepted: bool)
    requires EchoOk(e) && EchoEnabled(e, RecvStep(t, accepted))
    requires e.send.sh.valid && !e.rpc.Closing? && !e.rpc.ClosingBad?
    requires e.rpc.Moving? ==> e.rpc.n <= e.recvRing.FreeSize()
    requires e.rpc.Reposting? ==> e.recvRing.RecvSegments() != []
    ensures Doomed(RecvNext(e, t, accepted)) <==> ReceiveFailure(e, RecvStep(t, accepted))
  {
  }

  lemma WhatDooms(e: EchoState, a: EchoAction)
    requires EchoOk(e) && EchoEnabled(e, a) && e.send.sh.valid && !e.rpc.Closing? && !e.rpc.ClosingBad?
    requires e.rpc.Moving? ==> e.rpc.n <= e.recvRing.FreeSize()
    requires e.rpc.Reposting? ==> e.recvRing.RecvSegments() != []
    ensures Doomed(EchoNext(e, a)) <==> ReceiveFailure(e, a) || SendSideCloses(e, a)
  {
    match a
    case SendSide(b) => WhatInvalidates(e.send, b);
    case RecvStep(t, accepted) => ReceiveDooms(e, t, accepted);
    case Arrive(_) =>
    case RecvFails(_) =>
  }

  /**
   Exactly what closes an open echo session: one of the three receive failures, or
   a thread of the send side that closes. Nothing else the worker meets does.
   */
  lemma WhatClosesEcho(e: EchoState, a: EchoAction)
    requires EchoReachable(e) && !Doomed(e) && EchoOk(e) && EchoEnabled(e, a)
    ensures Doomed(EchoNext(e, a)) <==> ReceiveFailure(e, a) || SendSideCloses(e, a)
  {
    EchoWorkerServes(e);
    EchoReceiveNeverStalls(e);
    WhatDooms(e, a);
  }

  // ---------------------------------------------------------------- echoing what arrives

  /** The send side has nothing to do, and thread numbers from t on are unused. */
  ghost predicate Quiet(s: State, t: Tid) {
    && WellFormed(s) && s.sh.valid && s.sh.socketOpen && !s.sh.sending && s.sh.inflight == []
    && s.sh.ring.Queue() == [] && |s.sh.ring.buf| == DEFAULT_CAPACITY
    && AllFinished(s.pcs) && (forall u :: u in s.pcs ==> u < t)
  }

  /** The front packet is cut, sent and consumed. */
  lemma PacketServed(b: EchoState, e: EchoState, t: Tid, size: nat) returns (n: EchoState)
    requires EchoLeads(b, e) && EchoOk(e) && e.rpc == Parsing && e.cut == [] && Quiet(e.send, t)
    requires Inspect(EchoTest, e.recvRing.Queue()) == Front.Complete(size)
    ensures 0 < size <= |e.recvRing.Queue()|
    ensures EchoOk(n) && EchoLeads(b, n) && n.rpc == Parsing && n.cut == [] && Quiet(n.send, t + 2)
    ensures n.recvRing.Queue() == e.recvRing.Queue()[size..] && n.received == e.received
    ensures n.send.sh.accepted == e.send.sh.accepted + e.recvRing.Queue()[..size]
  {
    SizesAddUp(e.send.sh.ring);
    n := EnqueuedLeads(b, e, t, size);
    OneEnters(e.send.pcs, t);
    LeadsNowhere(n.send, false);
    var s := SentToRest(n.send, n.send, t, false);
    n := SendLeads(b, n, s);
    n := BackLeads(b, n, t, t + 2);
  }

  /** Every complete packet in the ring is echoed, one after the other. */
  lemma {:induction false} PacketsServed(b: EchoState, e: EchoState, t: Tid) returns (n: EchoState, u: Tid)
    requires EchoLeads(b, e) && EchoOk(e) && e.rpc == Parsing && e.cut == [] && Quiet(e.send, t)
    ensures EchoOk(n) && EchoLeads(b, n) && n.rpc == Parsing && n.cut == [] && Quiet(n.send, u)
    ensures n.recvRing.Queue() == ParseAll(EchoTest, e.recvRing.Queue()).rest && n.received == e.received
    ensures n.send.sh.accepted == e.send.sh.accepted + Concat(ParseAll(EchoTest, e.recvRing.Queue()).frames)
    ensures Inspect(EchoTest, n.recvRing.Queue()) ==
      if ParseAll(EchoTest, e.recvRing.Queue()).bad then Invalid else NeedMore
    decreases e.recvRing.DataSize()
  {
    var q := e.recvRing.Queue();
    if !Inspect(EchoTest, q).Complete? {
      n, u := e, t;
      EmptyRight(e.send.sh.accepted);
    } else {
      var size := Inspect(EchoTest, q).size;
      n := PacketServed(b, e, t, size);
      n, u := PacketsServed(b, n, t + 2);
      var rest := ParseAll(EchoTest, q[size..]);
      ConcatCons(q[..size], rest.frames);
      Reassociate(e.send.sh.accepted, q[..size], Concat(rest.frames));
    }
  }

  /** A worker that finds a length it refuses wins the right to close the session. */
  lemma RefusedLeads(b: EchoState, e: EchoState, u: Tid) returns (n: EchoState)
    requires EchoLeads(b, e) && EchoOk(e) && e.rpc == Parsing && e.cut == [] && e.send.sh.valid && u !in e.send.pcs
    requires Inspect(EchoTest, e.recvRing.Queue()) == Invalid
    ensures EchoLeads(b, n)
    ensures n == e.(rpc := ClosingBad(u), send := State(e.send.sh.(valid := false), e.send.pcs[u := DisClose]))
  {
    EchoLeadsOneMore(b, e, RecvStep(u, false));
    n := EchoNext(e, RecvStep(u, false));
    Again(e.send.pcs, u, DisExchange, DisClose);
    LeadsNowhere(n.send, false);
    var s := StepLeads(n.send, n.send, u, false, e.send.sh.(valid := false), DisClose, false);
    n := SendLeads(b, n, s);
  }

  /** Nothing is under way in the open session, and no bytes are stranded. */
  ghost predicate AtRest(e: EchoState) {
    && EchoOk(e) && e.send.sh.valid && e.rpc == Posted && e.send.sh.inflight == [] && AllFinished(e.send.pcs)
    && !e.send.sh.overtaken
  }

  lemma RestIsQuiet(e: EchoState, t: Tid)
    requires EchoInv(e) && AtRest(e) && |e.send.sh.ring.buf| == DEFAULT_CAPACITY
    requires forall u :: u in e.send.pcs ==> u < t
    ensures Quiet(e.send, t) && e.send.sh.wire == e.send.sh.accepted && e.cut == []
  {
    SendAtRest(e.send);
    EmptyRight(e.send.sh.wire);
  }

  /**
   What arrives can be echoed. From every reachable rest of an open session with
   the default send ring, and whatever chunk the posted receive takes in: a run puts
   exactly the frames of the leftover and the chunk on the wire, in order, and
   leaves exactly the rest in the receive ring. It leads to rest again, unless the
   rest begins with an invalid length; then the session is closed, but only after
   every frame before it was echoed.
   */
  lemma ArrivalsCanBeEchoed(e: EchoState, chunk: seq<Byte>) returns (n: EchoState)
    requires EchoReachable(e) && AtRest(e) && |e.send.sh.ring.buf| == DEFAULT_CAPACITY
    requires 1 <= |chunk| <= e.recvRing.FreeSize()
    ensures EchoLeads(e, n) && EchoOk(n) && n.received == e.received + chunk
    ensures var p := ParseAll(EchoTest, e.recvRing.Queue() + chunk);
      && n.send.sh.wire == e.send.sh.wire + Concat(p.frames)
      && n.recvRing.Queue() == p.rest
      && (if p.bad then !n.send.sh.valid && n.rpc.ClosingBad? else AtRest(n))
  {
    EchoReachableInv(e);
    assert EchoCanRun(e, []) && EchoRun(e, []) == e;
    var t := Unused(e.send.pcs.Keys);
    RestIsQuiet(e, t);
    n := ArriveLeads(e, e, t, chunk);
    n, t := PacketsServed(e, n, t);
    var trace :| EchoCanRun(e, trace) && EchoRun(e, trace) == n;
    EchoInvRun(e, trace);
    SendAtRest(n.send);
    EmptyRight(n.send.sh.wire);
    if ParseAll(EchoTest, e.recvRing.Queue() + chunk).bad {
      n := RefusedLeads(e, n, t);
    } else {
      n := RepostLeads(e, n, t);
    }
  }
}
