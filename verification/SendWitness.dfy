/**
 Runs that show the exceptions are real: bytes can be stranded, two threads can
 hold the flag after a close, and one later request rescues stranded bytes.
 */
module SendWitness {
  import opened Bytes
  import opened RingModel
  import opened SendProtocol
  import opened SendSafety
  import opened SendTheorems
  import opened SendRuns

  /** Two threads enqueue, the second sends both messages, and a worker consumes them and releases the flag. */
  lemma BothSent(ring: Ring) returns (s: State, n: State)
    requires ring.Valid() && ring.Queue() == [] && |ring.buf| >= 4
    ensures s == Initial(ring) && Leads(s, n, true) && WellFormed(n)
    ensures n.pcs == map[1 := PostCheck, 2 := PostCheck][2 := Finished][4 := DoneRelease][4 := Finished]
    ensures n.sh.valid && !n.sh.sending && n.sh.inflight == []
    ensures n.sh.ring.DataSize() == 0 && n.sh.ring.FreeSize() >= 1
  {
    s := Initial(ring);
    InvInitial(ring);
    LeadsNowhere(s, true);
    n := RequestLeads(s, s, 1, [1]);
    n := RequestLeads(s, n, 2, [2]);
    n := SentLeads(s, n, 2, 4, true);
    n := ReleaseLeads(s, n, 4, true);
  }

  /** An Enqueue slips in before the empty release. */
  lemma OvertakeLeads(s: State, e: State, t: Tid, late: Tid, data: seq<Byte>) returns (n: State)
    requires Leads(s, e, true) && WellFormed(e)
    requires t in e.pcs && e.pcs[t] == PostEmptyRelease && late !in e.pcs
    requires e.sh.valid && e.sh.sending && e.sh.ring.DataSize() == 0 && 0 < |data| <= e.sh.ring.FreeSize()
    ensures WellFormed(n) && Leads(s, n, true)
    ensures n.pcs == e.pcs[late := Finished][t := Finished]
    ensures n.sh.valid && !n.sh.sending && n.sh.overtaken && n.sh.inflight == e.sh.inflight
    ensures n.sh.ring.Queue() == data
  {
    n := RequestLeads(s, e, late, data);
    n := LoseLeads(s, n, late, true);
    Again(e.pcs, late, PostCheck, Finished);
    n := StepLeads(s, n, t, false, n.sh.(sending := false, overtaken := true), Finished, true);
  }

  lemma AllFinished(pcs: map<Tid, Pc>)
    requires pcs == map[1 := PostCheck, 2 := PostCheck][2 := Finished][4 := DoneRelease][4 := Finished]
      [1 := PostEmptyRelease][3 := Finished][1 := Finished]
    ensures forall t :: t in pcs ==> pcs[t] == Finished
  {
  }

  lemma StrandingRun(ring: Ring) returns (s: State, n: State)
    requires ring.Valid() && ring.Queue() == [] && |ring.buf| >= 4
    ensures s == Initial(ring) && Leads(s, n, true)
    ensures n.sh.valid && !n.sh.sending && n.sh.overtaken && n.sh.inflight == [] && n.sh.ring.Valid()
    ensures n.sh.ring.Queue() == [3] && forall t :: t in n.pcs ==> n.pcs[t] == Finished
  {
    s, n := BothSent(ring);
    n := EmptyWinLeads(s, n, 1, true);
    n := OvertakeLeads(s, n, 1, 3, [3]);
    AllFinished(n.pcs);
  }

  /**
   The unconditional claim is false. Two messages go out together in one send;
   the thread whose message was carried along still wins the flag afterwards and
   finds the ring empty; a third message is enqueued before it releases the flag,
   and its own attempt to win fails. Every thread has finished, and the third
   message is left in the ring of an open session.
   */
  lemma StrandingHappens(ring: Ring) returns (n: State)
    requires ring.Valid() && ring.Queue() == [] && |ring.buf| >= 4
    ensures Reachable(n) && Stranded(n) && n.sh.overtaken && n.sh.inflight == []
    ensures forall t :: t in n.pcs ==> n.pcs[t] == Finished
    ensures n.sh.ring.Queue() == [3]
  {
    var s;
    s, n := StrandingRun(ring);
    LeadsReachable(s, n);
  }

  lemma CloseSocketLeads(s: State, e: State, t: Tid, calls: bool) returns (n: State)
    requires Leads(s, e, calls) && WellFormed(e) && t !in e.pcs && e.sh.valid
    ensures WellFormed(n) && Leads(s, n, calls)
    ensures n.pcs == e.pcs[t := DisClose]
    ensures n.sh == e.sh.(valid := false)
  {
    LeadsOneMore(s, e, CallDisconnect(t), calls);
    n := Next(e, CallDisconnect(t));
    Again(e.pcs, t, DisExchange, DisClose);
    n := StepLeads(s, n, t, false, e.sh.(valid := false), DisClose, calls);
  }

  lemma ClosingSteps(sh: Shared)
    requires SharedOk(sh)
    ensures ThreadStep(sh, DisClose, false) == (sh.(socketOpen := false), DisReset)
    ensures ThreadStep(sh, DisReset, false) == (sh.(sending := false, flagReset := true), DisPush)
  {
  }

  /** A thread disconnects the session up to and including the reset of the flag. */
  lemma DisconnectLeads(s: State, e: State, t: Tid, calls: bool) returns (n: State)
    requires Leads(s, e, calls) && WellFormed(e) && t !in e.pcs && e.sh.valid
    ensures WellFormed(n) && Leads(s, n, calls)
    ensures n.pcs == e.pcs[t := DisPush]
    ensures n.sh == e.sh.(valid := false, socketOpen := false, sending := false, flagReset := true)
  {
    n := CloseSocketLeads(s, e, t, calls);
    Again(e.pcs, t, DisClose, DisPush);
    var closed := n.sh.(socketOpen := false);
    ClosingSteps(n.sh);
    ClosingSteps(closed);
    n := StepsLead(s, n, t, false, closed, DisReset, closed.(sending := false, flagReset := true), DisPush, calls);
  }

  /** Two threads can stand behind the flag at once, after a disconnect reset it under the first. */
  lemma TwoHoldersHappen(ring: Ring) returns (n: State, t: Tid, u: Tid)
    requires ring.Valid() && ring.Queue() == [] && |ring.buf| >= 3
    ensures Reachable(n) && t != u && t in n.pcs && u in n.pcs
    ensures IsHolder(n.pcs[t]) && IsHolder(n.pcs[u]) && !n.sh.socketOpen
  {
    var s;
    t, u := 1, 2;
    s, n := FirstHolds(ring);
    n := RequestLeads(s, n, u, [2]);
    n := SecondHolds(s, n, u, true);
    LeadsReachable(s, n);
  }

  lemma FirstHolds(ring: Ring) returns (s: State, n: State)
    requires ring.Valid() && ring.Queue() == [] && |ring.buf| >= 3
    ensures s == Initial(ring) && Leads(s, n, true) && WellFormed(n)
    ensures n.pcs == map[1 := PostSnapshot] && n.sh.valid && n.sh.ring.FreeSize() >= 1
  {
    s := Initial(ring);
    InvInitial(ring);
    LeadsNowhere(s, true);
    n := RequestLeads(s, s, 1, [1]);
    n := WinLeads(s, n, 1, true);
  }

  /** A thread that passed PostSend's check before the disconnect wins the flag after it. */
  lemma SecondHolds(s: State, e: State, u: Tid, calls: bool) returns (n: State)
    requires Leads(s, e, calls) && WellFormed(e) && e.sh.valid
    requires u in e.pcs && e.pcs[u] == PostCheck && 3 !in e.pcs
    ensures WellFormed(n) && Leads(s, n, calls) && !n.sh.socketOpen
    ensures n.pcs == e.pcs[u := PostSnapshot][3 := DisPush]
  {
    n := StepLeads(s, e, u, false, e.sh, PostExchange, calls);
    n := DisconnectLeads(s, n, 3, calls);
    n := StepLeads(s, n, u, false, n.sh.(sending := true, overtaken := false, won := n.sh.ring.Queue()),
                   PostSnapshot, calls);
  }

  /** A thread that enters an open session with the flag free gets everything queued, and its own bytes, to WSASend. */
  lemma RequestSubmits(s: State, t: Tid, data: seq<Byte>) returns (n: State)
    requires WellFormed(s) && t !in s.pcs && s.sh.valid && !s.sh.sending
    requires s.sh.ring.DataSize() > 0 && |data| <= s.sh.ring.FreeSize()
    ensures Leads(s, n, true) && WellFormed(n)
    ensures t in n.pcs && n.pcs[t].PostSubmit? && InBounds(n.pcs[t].segs, |n.sh.ring.buf|)
    ensures Gather(n.sh.ring.buf, n.pcs[t].segs) == s.sh.ring.Queue() + data
  {
    LeadsNowhere(s, true);
    n := RequestLeads(s, s, t, data);
    n := WinLeads(s, n, t, true);
    SnapshotSpellsQueue(n.sh.ring);
    n := StepLeads(s, n, t, false, n.sh, PostSubmit(SendSegments(n.sh.ring.Snapshot())), true);
  }

  /**
   One later request is enough: from any stranded state, a thread that enters
   RequestSendMsg with bytes that fit reaches WSASend with segments that spell
   the stranded bytes followed by its own.
   */
  lemma LaterRequestRescues(s: State, t: Tid, data: seq<Byte>) returns (n: State)
    requires Reachable(s) && Stranded(s) && t !in s.pcs && |data| <= s.sh.ring.FreeSize()
    ensures Leads(s, n, true)
    ensures t in n.pcs && n.pcs[t].PostSubmit? && InBounds(n.pcs[t].segs, |n.sh.ring.buf|)
    ensures Gather(n.sh.ring.buf, n.pcs[t].segs) == s.sh.ring.Queue() + data
  {
    ReachableInv(s);
    n := RequestSubmits(s, t, data);
  }
}
