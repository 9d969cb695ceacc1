/** Runs of an echo session put together from stretches of the receive worker and of the send side. */
module EchoRuns {
  import opened Bytes
  import opened RingModel
  import opened Framing
  import opened SendProtocol
  import opened SendRuns
  import opened Echo

  /** Some run leads from one echo state to the other. */
  ghost predicate EchoLeads(b: EchoState, e: EchoState) {
    EchoOk(b) && exists trace: seq<EchoAction> :: EchoCanRun(b, trace) && EchoRun(b, trace) == e
  }

  lemma {:induction false} EchoRunOneMore(b: EchoState, trace: seq<EchoAction>, a: EchoAction)
    requires EchoOk(b) && EchoCanRun(b, trace) && EchoEnabled(EchoRun(b, trace), a)
    ensures EchoCanRun(b, trace + [a]) && EchoRun(b, trace + [a]) == EchoNext(EchoRun(b, trace), a)
    decreases |trace|
  {
    if trace == [] {
      assert trace + [a] == [a] && [a][1..] == [];
      EchoNextOk(b, a);
    } else {
      EchoNextOk(b, trace[0]);
      EchoRunOneMore(EchoNext(b, trace[0]), trace[1..], a);
      assert (trace + [a])[1..] == trace[1..] + [a];
    }
  }

  lemma EchoLeadsOneMore(b: EchoState, e: EchoState, a: EchoAction)
    requires EchoLeads(b, e) && EchoOk(e) && EchoEnabled(e, a)
    ensures EchoLeads(b, EchoNext(e, a)) && EchoOk(EchoNext(e, a))
  {
    var trace :| EchoCanRun(b, trace) && EchoRun(b, trace) == e;
    EchoRunOneMore(b, trace, a);
    EchoNextOk(e, a);
  }

  /** While no cut packet is on its way, any run of the send side alone is a run of the echo session. */
  lemma {:induction false} EchoLifts(b: EchoState, e: EchoState, trace: seq<Action>)
    requires EchoLeads(b, e) && EchoOk(e) && e.cut == []
    requires CanRun(e.send, trace) && NoCalls(trace)
    ensures EchoLeads(b, e.(send := Run(e.send, trace)))
    decreases |trace|
  {
    if trace == [] {
      assert e.(send := Run(e.send, trace)) == e;
    } else {
      var next := e.(send := Next(e.send, trace[0]));
      EchoLeadsOneMore(b, e, SendSide(trace[0]));
      assert EchoNext(e, SendSide(trace[0])) == next;
      assert NoCalls(trace[1..]);
      EchoLifts(b, next, trace[1..]);
    }
  }

  lemma SendLeads(b: EchoState, e: EchoState, s: State) returns (n: EchoState)
    requires EchoLeads(b, e) && EchoOk(e) && e.cut == []
    requires Leads(e.send, s, false)
    ensures n == e.(send := s) && EchoOk(n) && EchoLeads(b, n)
  {
    var trace :| CanRun(e.send, trace) && Run(e.send, trace) == s && NoCalls(trace);
    EchoLifts(b, e, trace);
    n := e.(send := s);
  }

  // ---------------------------------------------------------------- the receive worker

  /** A valid session that has parsed all it can posts a receive. */
  lemma PostLeads(b: EchoState, e: EchoState, u: Tid) returns (n: EchoState)
    requires EchoLeads(b, e) && EchoOk(e) && e.rpc == Reposting && e.send.sh.valid
    requires e.recvRing.FreeSize() >= 1 && u !in e.send.pcs
    ensures EchoOk(n) && EchoLeads(b, n) && n == e.(rpc := Posted)
  {
    RecvSegmentsCoverFreeSpace(e.recvRing);
    EchoLeadsOneMore(b, e, RecvStep(u, true));
    n := EchoNext(e, RecvStep(u, true));
  }

  /** A worker that finds no complete packet posts a receive behind whatever residue there is. */
  lemma RepostLeads(b: EchoState, e: EchoState, u: Tid) returns (n: EchoState)
    requires EchoLeads(b, e) && EchoOk(e) && e.rpc == Parsing && e.send.sh.valid
    requires Inspect(EchoTest, e.recvRing.Queue()) == NeedMore && u !in e.send.pcs
    ensures EchoOk(n) && EchoLeads(b, n) && n == e.(rpc := Posted)
  {
    SizesAddUp(e.recvRing);
    EchoLeadsOneMore(b, e, RecvStep(u, true));
    n := EchoNext(e, RecvStep(u, true));
    n := PostLeads(b, n, u);
  }

  /** A posted receive completes with a chunk, and the write pointer moves over it. */
  lemma ArriveLeads(b: EchoState, e: EchoState, u: Tid, chunk: seq<Byte>) returns (n: EchoState)
    requires EchoLeads(b, e) && EchoOk(e) && e.rpc == Posted && u !in e.send.pcs
    requires e.send.sh.valid && e.send.sh.socketOpen && 1 <= |chunk| <= e.recvRing.FreeSize()
    ensures EchoOk(n) && EchoLeads(b, n)
    ensures n == e.(rpc := Parsing, recvRing := n.recvRing, received := e.received + chunk)
    ensures n.recvRing.Queue() == e.recvRing.Queue() + chunk
  {
    ZeroCopyIsEnqueue(e.recvRing, chunk);
    EchoLeadsOneMore(b, e, Arrive(chunk));
    n := EchoNext(e, Arrive(chunk));
    EchoLeadsOneMore(b, n, RecvStep(u, true));
    n := n.(rpc := Moving(|chunk|));
    EchoLeadsOneMore(b, n, RecvStep(u, true));
    n := EchoNext(n, RecvStep(u, true));
  }

  /** The worker cuts the front packet and passes RequestSendMsg's check with it. */
  lemma CutLeads(b: EchoState, e: EchoState, t: Tid, size: nat) returns (n: EchoState)
    requires EchoLeads(b, e) && EchoOk(e) && e.rpc == Parsing && t !in e.send.pcs && e.send.sh.valid
    requires Inspect(EchoTest, e.recvRing.Queue()) == Front.Complete(size)
    ensures size <= |e.recvRing.Queue()| && EchoOk(n) && EchoLeads(b, n)
    ensures n.cut == e.recvRing.Queue()[..size] && n.recvRing.Queue() == e.recvRing.Queue()[size..]
    ensures n == e.(rpc := Echoing(t), cut := n.cut, recvRing := n.recvRing,
                    send := State(e.send.sh, e.send.pcs[t := ReqEnqueue(n.cut)]))
  {
    DropQueue(e.recvRing, size);
    EchoLeadsOneMore(b, e, RecvStep(t, true));
    n := EchoNext(e, RecvStep(t, true));
    Again(e.send.pcs, t, ReqCheck(n.cut), ReqEnqueue(n.cut));
    EchoLeadsOneMore(b, n, SendSide(Step(t, false)));
    n := EchoNext(n, SendSide(Step(t, false)));
  }

  /** The packet gets into the send ring. */
  lemma PutLeads(b: EchoState, e: EchoState, t: Tid) returns (n: EchoState)
    requires EchoLeads(b, e) && EchoOk(e) && e.rpc == Echoing(t)
    requires t in e.send.pcs && e.send.pcs[t] == ReqEnqueue(e.cut) && |e.cut| <= e.send.sh.ring.FreeSize()
    ensures EchoOk(n) && EchoLeads(b, n)
    ensures n == e.(send := n.send, cut := []) && n.send.pcs == e.send.pcs[t := PostCheck]
    ensures n.send.sh == e.send.sh.(ring := n.send.sh.ring, accepted := e.send.sh.accepted + e.cut)
    ensures n.send.sh.ring.Queue() == e.send.sh.ring.Queue() + e.cut
    ensures |n.send.sh.ring.buf| == |e.send.sh.ring.buf|
  {
    PutQueue(e.send.sh.ring, e.cut);
    EchoLeadsOneMore(b, e, SendSide(Step(t, false)));
    n := EchoNext(e, SendSide(Step(t, false)));
  }

  /** The front packet goes from the receive ring into the send ring; its thread stands at PostSend. */
  lemma EnqueuedLeads(b: EchoState, e: EchoState, t: Tid, size: nat) returns (n: EchoState)
    requires EchoLeads(b, e) && EchoOk(e) && e.rpc == Parsing && t !in e.send.pcs && e.send.sh.valid
    requires Inspect(EchoTest, e.recvRing.Queue()) == Front.Complete(size) && size <= e.send.sh.ring.FreeSize()
    ensures size <= |e.recvRing.Queue()| && EchoOk(n) && EchoLeads(b, n)
    ensures n == e.(rpc := Echoing(t), cut := [], recvRing := n.recvRing, send := n.send)
    ensures n.send.pcs == e.send.pcs[t := PostCheck] && |n.send.sh.ring.buf| == |e.send.sh.ring.buf|
    ensures n.send.sh == e.send.sh.(ring := n.send.sh.ring, accepted := n.send.sh.accepted)
    ensures var packet := e.recvRing.Queue()[..size];
      && n.send.sh.ring.Queue() == e.send.sh.ring.Queue() + packet && n.send.sh.accepted == e.send.sh.accepted + packet
      && n.recvRing.Queue() == e.recvRing.Queue()[size..]
  {
    n := CutLeads(b, e, t, size);
    n := PutLeads(b, n, t);
    Again(e.send.pcs, t, ReqEnqueue(e.recvRing.Queue()[..size]), PostCheck);
  }

  /** RequestSendMsg returns to the loop of ParsePackets. */
  lemma BackLeads(b: EchoState, e: EchoState, t: Tid, u: Tid) returns (n: EchoState)
    requires EchoLeads(b, e) && EchoOk(e) && e.rpc == Echoing(t) && e.cut == []
    requires t in e.send.pcs && e.send.pcs[t] == Finished && u !in e.send.pcs
    ensures EchoLeads(b, n) && EchoOk(n) && n == e.(rpc := Parsing)
  {
    EchoLeadsOneMore(b, e, RecvStep(u, true));
    n := EchoNext(e, RecvStep(u, true));
  }
}
