/**
 A run of one echo session that ends with a packet received, cut and left in the
 send ring: the exception of EchoAtRest is real although only the receive worker
 requests sends.
 */
module EchoWitness {
  import opened Bytes
  import opened RingModel
  import opened Framing
  import opened SendProtocol
  import opened SendTheorems
  import opened SendRuns
  import opened Echo
  import opened EchoRuns

  // ---------------------------------------------------------------- the packets

  /** The shortest packet of echo mode: no payload. */
  const PACKET: seq<Byte> := [0, 0]

  /** n such packets in a row. */
  function Packets(n: nat): (q: seq<Byte>)
    ensures |q| == 2 * n
  {
    if n == 0 then [] else PACKET + Packets(n - 1)
  }

  lemma FrontPacket(n: nat)
    requires n > 0
    ensures Packets(n)[..2] == PACKET && Packets(n)[2..] == Packets(n - 1)
    ensures Inspect(EchoTest, Packets(n)) == Front.Complete(2)
  {
    assert Packets(n)[0] == PACKET[0] && Packets(n)[1] == PACKET[1];
  }

  /** The session is open, no send is outstanding, and `waiting` packets wait in the receive ring. */
  ghost predicate Stage(e: EchoState, rpc: RecvPc, pcs: map<Tid, Pc>, queued: nat, sending: bool, waiting: nat) {
    && EchoOk(e) && e.rpc == rpc && e.cut == [] && e.send.pcs == pcs
    && e.send.sh.valid && e.send.sh.socketOpen && e.send.sh.inflight == []
    && e.send.sh.sending == sending
    && |e.send.sh.ring.buf| >= 5 && e.send.sh.ring.DataSize() == queued
    && e.recvRing.Queue() == Packets(waiting)
  }

  /** One packet goes from the receive ring into the send ring; its thread stands at PostSend. */
  lemma PacketLeads(b: EchoState, e: EchoState, t: Tid, pcs: map<Tid, Pc>, queued: nat, sending: bool, waiting: nat)
    returns (n: EchoState)
    requires EchoLeads(b, e) && Stage(e, Parsing, pcs, queued, sending, waiting)
    requires t !in pcs && waiting > 0 && queued <= 2
    ensures EchoLeads(b, n) && Stage(n, Echoing(t), pcs[t := PostCheck], queued + 2, sending, waiting - 1)
    ensures n.send.sh.ring.Queue() == e.send.sh.ring.Queue() + PACKET
  {
    SizesAddUp(e.send.sh.ring);
    FrontPacket(waiting);
    n := EnqueuedLeads(b, e, t, 2);
  }

  // ---------------------------------------------------------------- the run

  /** Four packets arrive at once. */
  lemma FourArrive(sendRing: Ring, recvRing: Ring) returns (b: EchoState, n: EchoState)
    requires sendRing.Valid() && sendRing.Queue() == [] && |sendRing.buf| >= 5
    requires recvRing.Valid() && recvRing.Queue() == [] && |recvRing.buf| == DEFAULT_CAPACITY
    ensures b == EchoInitial(sendRing, recvRing) && EchoLeads(b, n)
    ensures Stage(n, Parsing, map[], 0, false, 4) && n.send.sh.ring.Queue() == []
  {
    b := EchoInitial(sendRing, recvRing);
    EchoInvInitial(sendRing, recvRing);
    SizesAddUp(recvRing);
    assert EchoCanRun(b, []) && EchoRun(b, []) == b;
    n := PostLeads(b, b, 0);
    n := ArriveLeads(b, n, 0, Packets(4));
    assert [] + Packets(4) == Packets(4);
  }

  /** Every thread but w has finished, and the numbers from `next` on are unused. */
  ghost predicate Idle(pcs: map<Tid, Pc>, w: Tid, pc: Pc, next: Tid) {
    && w in pcs && pcs[w] == pc
    && forall t :: t in pcs ==> 1 <= t < next && (t == w || pcs[t] == Finished)
  }

  lemma IdleMore(pcs: map<Tid, Pc>)
    requires Idle(pcs, 2, PostCheck, 4)
    ensures var after := pcs[4 := PostCheck][4 := Finished][5 := DoneRelease][5 := Finished];
      Idle(after, 2, PostCheck, 6) && 4 in after
  {
  }

  lemma IdleFirst()
    ensures Idle(map[1 := PostCheck][1 := Finished][2 := DoneRelease], 2, DoneRelease, 3)
  {
  }

  lemma IdleSeen(pcs: map<Tid, Pc>)
    requires Idle(pcs, 2, DoneRelease, 3)
    ensures Idle(pcs[3 := PostCheck][3 := Finished][2 := PostCheck], 2, PostCheck, 4)
  {
  }

  lemma LastFinishes(pcs: map<Tid, Pc>)
    requires Idle(pcs, 2, PostEmptyRelease, 6)
    ensures var last := pcs[6 := PostCheck][6 := Finished][2 := Finished];
      forall t :: t in last ==> 1 <= t && last[t] == Finished
  {
  }

  /** The first packet is sent and consumed; its worker is about to release the flag. */
  lemma FirstSent(b: EchoState, e: EchoState) returns (n: EchoState, pcs: map<Tid, Pc>)
    requires EchoLeads(b, e) && Stage(e, Parsing, map[], 0, false, 4)
    ensures EchoLeads(b, n) && Stage(n, Echoing(1), pcs, 0, true, 3) && Idle(pcs, 2, DoneRelease, 3)
    ensures 1 in pcs
  {
    n := PacketLeads(b, e, 1, map[], 0, false, 4);
    LeadsNowhere(n.send, false);
    var s := SentLeads(n.send, n.send, 1, 2, false);
    n := SendLeads(b, n, s);
    pcs := map[1 := PostCheck][1 := Finished][2 := DoneRelease];
    IdleFirst();
  }

  /** A thread loses the flag to the worker that is about to release it and sees what was enqueued. */
  lemma SeenOnRelease(s: State, pcs: map<Tid, Pc>) returns (n: State)
    requires WellFormed(s) && s.pcs == pcs[3 := PostCheck] && Idle(pcs, 2, DoneRelease, 3)
    requires s.sh.valid && s.sh.sending && s.sh.ring.DataSize() > 0
    ensures Leads(s, n, false)
    ensures n == State(s.sh.(sending := false), pcs[3 := PostCheck][3 := Finished][2 := PostCheck])
  {
    LeadsNowhere(s, false);
    n := LoseLeads(s, s, 3, false);
    n := ReleaseLeads(s, n, 2, false);
  }

  /** The second packet is enqueued, its thread loses the flag, and the worker releases it and sees the packet. */
  lemma SecondSeen(b: EchoState, e: EchoState, was: map<Tid, Pc>) returns (n: EchoState, pcs: map<Tid, Pc>)
    requires EchoLeads(b, e) && Stage(e, Echoing(1), was, 0, true, 3)
    requires Idle(was, 2, DoneRelease, 3) && 1 in was
    ensures EchoLeads(b, n) && Stage(n, Echoing(3), pcs, 2, false, 2)
    ensures Idle(pcs, 2, PostCheck, 4) && 3 in pcs
  {
    n := BackLeads(b, e, 1, 0);
    n := PacketLeads(b, n, 3, was, 0, true, 3);
    var s := SeenOnRelease(n.send, was);
    n := SendLeads(b, n, s);
    pcs := was[3 := PostCheck][3 := Finished][2 := PostCheck];
    IdleSeen(was);
  }

  /** A thread wins the flag and sends all there is; another worker consumes it and releases the flag. */
  lemma SentAndReleased(s: State, pcs: map<Tid, Pc>) returns (n: State)
    requires WellFormed(s) && s.pcs == pcs[4 := PostCheck] && Idle(pcs, 2, PostCheck, 4)
    requires s.sh.valid && s.sh.socketOpen && !s.sh.sending && s.sh.inflight == [] && s.sh.ring.DataSize() > 0
    ensures Leads(s, n, false) && WellFormed(n)
    ensures n.pcs == pcs[4 := PostCheck][4 := Finished][5 := DoneRelease][5 := Finished]
    ensures Idle(n.pcs, 2, PostCheck, 6) && 4 in n.pcs
    ensures n.sh.valid && n.sh.socketOpen && !n.sh.sending && n.sh.inflight == []
    ensures n.sh.ring.DataSize() == 0 && |n.sh.ring.buf| == |s.sh.ring.buf|
  {
    LeadsNowhere(s, false);
    n := SentLeads(s, s, 4, 5, false);
    n := ReleaseLeads(s, n, 5, false);
    IdleMore(pcs);
  }

  /** The third packet's thread wins the flag and sends both; another worker consumes them. */
  lemma ThirdCarries(b: EchoState, e: EchoState, was: map<Tid, Pc>) returns (n: EchoState, pcs: map<Tid, Pc>)
    requires EchoLeads(b, e) && Stage(e, Echoing(3), was, 2, false, 2)
    requires Idle(was, 2, PostCheck, 4) && 3 in was
    ensures EchoLeads(b, n) && Stage(n, Echoing(4), pcs, 0, false, 1)
    ensures Idle(pcs, 2, PostCheck, 6) && 4 in pcs
  {
    n := BackLeads(b, e, 3, 0);
    n := PacketLeads(b, n, 4, was, 2, false, 2);
    var s := SentAndReleased(n.send, was);
    n := SendLeads(b, n, s);
    pcs := s.pcs;
  }

  /** The first worker wins the flag over an empty ring, and the fourth packet is enqueued. */
  lemma FourthQueued(b: EchoState, e: EchoState, was: map<Tid, Pc>) returns (n: EchoState, pcs: map<Tid, Pc>)
    requires EchoLeads(b, e) && Stage(e, Echoing(4), was, 0, false, 1)
    requires Idle(was, 2, PostCheck, 6) && 4 in was
    ensures EchoLeads(b, n) && Stage(n, Echoing(6), pcs[6 := PostCheck], 2, true, 0)
    ensures Idle(pcs, 2, PostEmptyRelease, 6) && n.send.sh.ring.Queue() == PACKET
  {
    LeadsNowhere(e.send, false);
    var s := EmptyWinLeads(e.send, e.send, 2, false);
    n := SendLeads(b, e, s);
    pcs := was[2 := PostEmptyRelease];
    n := BackLeads(b, n, 4, 0);
    assert n.send.sh.ring.Queue() + PACKET == PACKET;
    n := PacketLeads(b, n, 6, pcs, 0, true, 1);
  }

  /** Its thread finds the flag taken, and the worker releases the flag over it. */
  lemma FourthStranded(b: EchoState, e: EchoState, was: map<Tid, Pc>) returns (n: EchoState)
    requires EchoLeads(b, e) && Stage(e, Echoing(6), was[6 := PostCheck], 2, true, 0)
    requires Idle(was, 2, PostEmptyRelease, 6)
    ensures EchoLeads(b, n) && Stage(n, Posted, n.send.pcs, 2, false, 0)
    ensures n.send.sh.overtaken && n.send.sh.ring == e.send.sh.ring
    ensures forall t :: t in n.send.pcs ==> n.send.pcs[t] == Finished
  {
    LeadsNowhere(e.send, false);
    var s := LoseLeads(e.send, e.send, 6, false);
    s := StepLeads(e.send, s, 2, false, e.send.sh.(sending := false, overtaken := true), Finished, false);
    n := SendLeads(b, e, s);
    LastFinishes(was);
    n := BackLeads(b, n, 6, 0);
    n := RepostLeads(b, n, 0);
  }

  lemma StrandingRun(sendRing: Ring, recvRing: Ring) returns (n: EchoState)
    requires sendRing.Valid() && sendRing.Queue() == [] && |sendRing.buf| >= 5
    requires recvRing.Valid() && recvRing.Queue() == [] && |recvRing.buf| == DEFAULT_CAPACITY
    ensures EchoOk(EchoInitial(sendRing, recvRing)) && EchoLeads(EchoInitial(sendRing, recvRing), n)
    ensures Stage(n, Posted, n.send.pcs, 2, false, 0)
    ensures n.send.sh.overtaken && n.send.sh.ring.Queue() == PACKET
    ensures forall t :: t in n.send.pcs ==> n.send.pcs[t] == Finished
  {
    var b, pcs;
    b, n := FourArrive(sendRing, recvRing);
    n, pcs := FirstSent(b, n);
    n, pcs := SecondSeen(b, n, pcs);
    n, pcs := ThirdCarries(b, n, pcs);
    n, pcs := FourthQueued(b, n, pcs);
    n := FourthStranded(b, n, pcs);
  }

  /**
   Echo mode strands bytes, too. Of four packets received at once the first is
   sent; its worker releases the flag, sees the second and is overtaken by the
   third, which carries the second along; the worker then wins the flag over an
   empty ring, and the fourth packet is enqueued before it releases it. At rest,
   that packet is neither sent nor in the receive ring.
   */
  lemma EchoStrandingHappens(sendRing: Ring, recvRing: Ring) returns (n: EchoState)
    requires sendRing.Valid() && sendRing.Queue() == [] && |sendRing.buf| >= 5
    requires recvRing.Valid() && recvRing.Queue() == [] && |recvRing.buf| == DEFAULT_CAPACITY
    ensures EchoReachable(n) && n.send.sh.valid && n.rpc == Posted && n.send.sh.inflight == []
    ensures forall t :: t in n.send.pcs ==> n.send.pcs[t] == Finished
    ensures Stranded(n.send) && n.send.sh.ring.Queue() == PACKET
    ensures n.send.sh.wire + n.recvRing.Queue() != n.received
  {
    n := StrandingRun(sendRing, recvRing);
    var b := EchoInitial(sendRing, recvRing);
    var trace :| EchoCanRun(b, trace) && EchoRun(b, trace) == n;
    assert EchoCanRun(EchoInitial(sendRing, recvRing), trace);
    EchoAtRest(n);
  }

}
