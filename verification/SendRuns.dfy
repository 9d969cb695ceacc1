/**
 Runs of the send protocol put together from stretches of single threads, the
 kernel and workers: the building blocks of the results that say what some run
 can always still do.
 */
module SendRuns {
  import opened Bytes
  import opened RingModel
  import opened SendProtocol
  import opened SendTheorems

  /** No thread enters RequestSendMsg in this run. */
  ghost predicate NoCalls(trace: seq<Action>) {
    forall k :: 0 <= k < |trace| ==> !trace[k].CallSend?
  }

  /** Some run leads from one state to the other; unless `calls`, one in which no thread enters RequestSendMsg. */
  ghost predicate Leads(s: State, e: State, calls: bool) {
    WellFormed(s) && exists trace: seq<Action> :: CanRun(s, trace) && Run(s, trace) == e && (calls || NoCalls(trace))
  }

  lemma {:induction false} RunOneMore(s: State, trace: seq<Action>, a: Action)
    requires WellFormed(s) && CanRun(s, trace) && Enabled(Run(s, trace), a)
    ensures CanRun(s, trace + [a]) && Run(s, trace + [a]) == Next(Run(s, trace), a)
    decreases |trace|
  {
    if trace == [] {
      assert trace + [a] == [a] && [a][1..] == [];
      NextWellFormed(s, a);
    } else {
      NextWellFormed(s, trace[0]);
      RunOneMore(Next(s, trace[0]), trace[1..], a);
      assert (trace + [a])[1..] == trace[1..] + [a];
    }
  }

  lemma LeadsOneMore(s: State, e: State, a: Action, calls: bool)
    requires Leads(s, e, calls) && WellFormed(e) && Enabled(e, a) && (calls || !a.CallSend?)
    ensures Leads(s, Next(e, a), calls) && WellFormed(Next(e, a))
  {
    var trace :| CanRun(s, trace) && Run(s, trace) == e && (calls || NoCalls(trace));
    RunOneMore(s, trace, a);
    NextWellFormed(e, a);
    assert calls || NoCalls(trace + [a]);
  }

  lemma LeadsNowhere(s: State, calls: bool)
    requires WellFormed(s)
    ensures Leads(s, s, calls)
  {
    assert CanRun(s, []) && Run(s, []) == s;
  }

  lemma LeadsReachable(s: State, e: State)
    requires Leads(s, e, true)
    requires exists ring: Ring :: ring.Valid() && ring.Queue() == [] && s == Initial(ring)
    ensures Reachable(e)
  {
    var ring: Ring :| ring.Valid() && ring.Queue() == [] && s == Initial(ring);
    var trace :| CanRun(s, trace) && Run(s, trace) == e;
    assert CanRun(Initial(ring), trace) && Run(Initial(ring), trace) == e;
  }

  /** One step of a thread, spelled out. */
  lemma StepLeads(s: State, e: State, t: Tid, accepted: bool, sh: Shared, pc: Pc, calls: bool) returns (n: State)
    requires Leads(s, e, calls) && WellFormed(e) && t in e.pcs && e.pcs[t] != Finished
    requires ThreadStep(e.sh, e.pcs[t], accepted) == (sh, pc)
    ensures WellFormed(n) && Leads(s, n, calls) && n == State(sh, e.pcs[t := pc])
  {
    LeadsOneMore(s, e, Step(t, accepted), calls);
    n := Next(e, Step(t, accepted));
  }

  /** Two steps of a thread, the first to `sh1` and `pc1`. */
  lemma StepsLead(s: State, e: State, t: Tid, accepted: bool, sh1: Shared, pc1: Pc, sh2: Shared, pc2: Pc, calls: bool)
    returns (n: State)
    requires Leads(s, e, calls) && WellFormed(e)
    requires t in e.pcs && e.pcs[t] != Finished && pc1 != Finished && SharedOk(sh1)
    requires ThreadStep(e.sh, e.pcs[t], accepted) == (sh1, pc1)
    requires ThreadStep(sh1, pc1, accepted) == (sh2, pc2)
    ensures WellFormed(n) && Leads(s, n, calls) && n == State(sh2, e.pcs[t := pc2])
  {
    n := StepLeads(s, e, t, accepted, sh1, pc1, calls);
    n := StepLeads(s, n, t, accepted, sh2, pc2, calls);
    Again(e.pcs, t, pc1, pc2);
  }

  lemma EnterLeads(s: State, e: State, t: Tid, data: seq<Byte>) returns (n: State)
    requires Leads(s, e, true) && WellFormed(e) && t !in e.pcs && e.sh.valid
    ensures WellFormed(n) && Leads(s, n, true)
    ensures n.sh == e.sh && n.pcs == e.pcs[t := ReqEnqueue(data)]
  {
    LeadsOneMore(s, e, CallSend(t, data), true);
    n := Next(e, CallSend(t, data));
    Again(e.pcs, t, ReqCheck(data), ReqEnqueue(data));
    n := StepLeads(s, n, t, false, e.sh, ReqEnqueue(data), true);
  }

  /** A thread enters RequestSendMsg and gets its bytes into the ring. */
  lemma RequestLeads(s: State, e: State, t: Tid, data: seq<Byte>) returns (n: State)
    requires Leads(s, e, true) && WellFormed(e)
    requires t !in e.pcs && e.sh.valid && |data| <= e.sh.ring.FreeSize()
    ensures WellFormed(n) && Leads(s, n, true)
    ensures n.sh == e.sh.(ring := e.sh.ring.Enqueue(data), accepted := e.sh.accepted + data)
    ensures n.pcs == e.pcs[t := PostCheck]
    ensures n.sh.ring.Queue() == e.sh.ring.Queue() + data
  {
    n := EnterLeads(s, e, t, data);
    Again(e.pcs, t, ReqEnqueue(data), PostCheck);
    n := StepLeads(s, n, t, false,
                   e.sh.(ring := e.sh.ring.Enqueue(data), accepted := e.sh.accepted + data), PostCheck, true);
    PutQueue(e.sh.ring, data);
  }

  /** A thread at PostSend's entry wins the free flag. */
  lemma WinLeads(s: State, e: State, t: Tid, calls: bool) returns (n: State)
    requires Leads(s, e, calls) && WellFormed(e)
    requires t in e.pcs && e.pcs[t] == PostCheck && e.sh.valid && !e.sh.sending
    ensures WellFormed(n) && Leads(s, n, calls)
    ensures n.sh == e.sh.(sending := true, overtaken := false, won := e.sh.ring.Queue())
    ensures n.pcs == e.pcs[t := PostSnapshot]
  {
    n := StepsLead(s, e, t, false, e.sh, PostExchange,
                   e.sh.(sending := true, overtaken := false, won := e.sh.ring.Queue()), PostSnapshot, calls);
  }

  /** A thread at PostSend's entry finds the flag taken and leaves. */
  lemma LoseLeads(s: State, e: State, t: Tid, calls: bool) returns (n: State)
    requires Leads(s, e, calls) && WellFormed(e)
    requires t in e.pcs && e.pcs[t] == PostCheck && e.sh.valid && e.sh.sending
    ensures WellFormed(n) && Leads(s, n, calls)
    ensures n.sh == e.sh && n.pcs == e.pcs[t := Finished]
  {
    n := StepsLead(s, e, t, false, e.sh, PostExchange, e.sh, Finished, calls);
  }

  /** A winner submits the whole queue and the kernel puts it on the wire. */
  lemma SubmitLeads(s: State, e: State, t: Tid, calls: bool) returns (n: State)
    requires Leads(s, e, calls) && WellFormed(e)
    requires t in e.pcs && e.pcs[t] == PostSnapshot
    requires e.sh.socketOpen && e.sh.inflight == [] && e.sh.ring.DataSize() > 0
    ensures WellFormed(n) && Leads(s, n, calls)
    ensures n.pcs == e.pcs[t := Finished]
    ensures n.sh == e.sh.(inflight := n.sh.inflight)
    ensures |n.sh.inflight| == 1
    ensures n.sh.inflight[0] == Send(SendSegments(e.sh.ring.Snapshot()), 0)
    ensures Total(n.sh.inflight[0].segs) == e.sh.ring.DataSize()
  {
    SnapshotSpellsQueue(e.sh.ring);
    var segs := SendSegments(e.sh.ring.Snapshot());
    var submitted := e.sh.(inflight := e.sh.inflight + [Send(segs, 0)]);
    n := StepsLead(s, e, t, true, e.sh, PostSubmit(segs), submitted, Finished, calls);
  }

  /** The kernel puts m more bytes of the outstanding send on the wire. */
  lemma TransmitLeads(s: State, e: State, m: nat, calls: bool) returns (n: State)
    requires Leads(s, e, calls) && WellFormed(e) && e.sh.socketOpen
    requires |e.sh.inflight| == 1 && e.sh.inflight[0].done + m <= Total(e.sh.inflight[0].segs)
    ensures WellFormed(n) && Leads(s, n, calls) && n.pcs == e.pcs
    ensures n.sh == e.sh.(inflight := [Send(e.sh.inflight[0].segs, e.sh.inflight[0].done + m)], wire := n.sh.wire)
    ensures |n.sh.wire| == |e.sh.wire| + m
  {
    LeadsOneMore(s, e, Transmit(0, m), calls);
    n := Next(e, Transmit(0, m));
  }

  /** ... and a worker takes the completion. */
  lemma CompleteLeads(s: State, e: State, worker: Tid, m: nat, calls: bool) returns (n: State)
    requires Leads(s, e, calls) && WellFormed(e) && e.sh.socketOpen && worker !in e.pcs
    requires |e.sh.inflight| == 1 && 0 < e.sh.inflight[0].done + m <= Total(e.sh.inflight[0].segs)
    ensures WellFormed(n) && Leads(s, n, calls)
    ensures n.pcs == e.pcs[worker := DoneCheckWorker(e.sh.inflight[0].done + m)]
    ensures n.sh == e.sh.(inflight := [], wire := n.sh.wire) && |n.sh.wire| == |e.sh.wire| + m
  {
    n := TransmitLeads(s, e, m, calls);
    LeadsOneMore(s, n, Complete(0, worker, false), calls);
    n := Next(n, Complete(0, worker, false));
  }

  /** A worker drops the bytes of a completed send. */
  lemma ConsumeLeads(s: State, e: State, worker: Tid, size: nat, calls: bool) returns (n: State)
    requires Leads(s, e, calls) && WellFormed(e) && e.sh.valid
    requires worker in e.pcs && e.pcs[worker] == DoneCheckWorker(size) && size <= e.sh.ring.DataSize()
    ensures WellFormed(n) && Leads(s, n, calls)
    ensures n == State(e.sh.(ring := e.sh.ring.Drop(size), consumed := e.sh.consumed + e.sh.ring.Queue()[..size]),
                       e.pcs[worker := DoneSnapshot])
    ensures n.sh.ring.Queue() == e.sh.ring.Queue()[size..]
  {
    DropQueue(e.sh.ring, size);
    n := StepsLead(s, e, worker, false, e.sh, DoneCheckSend(size), e.sh, DoneConsume(size), calls);
    Again(e.pcs, worker, DoneConsume(size), DoneSnapshot);
    var after := e.sh.(ring := e.sh.ring.Drop(size), consumed := e.sh.consumed + e.sh.ring.Queue()[..size]);
    n := StepLeads(s, n, worker, false, after, DoneSnapshot, calls);
  }

  /** A worker that finds more bytes queued submits all of them. */
  lemma ResubmitLeads(s: State, e: State, worker: Tid, calls: bool) returns (n: State)
    requires Leads(s, e, calls) && WellFormed(e) && worker in e.pcs && e.pcs[worker] == DoneSnapshot
    requires e.sh.socketOpen && e.sh.inflight == [] && e.sh.ring.DataSize() > 0
    ensures WellFormed(n) && Leads(s, n, calls)
    ensures n == State(e.sh.(inflight := [Send(SendSegments(e.sh.ring.Snapshot()), 0)]), e.pcs[worker := Finished])
  {
    SnapshotSpellsQueue(e.sh.ring);
    var segs := SendSegments(e.sh.ring.Snapshot());
    var submitted := e.sh.(inflight := e.sh.inflight + [Send(segs, 0)]);
    n := StepsLead(s, e, worker, true, e.sh, DoneSubmit(segs), submitted, Finished, calls);
  }

  lemma FindsNothingLeads(s: State, e: State, worker: Tid, calls: bool) returns (n: State)
    requires Leads(s, e, calls) && WellFormed(e) && e.sh.ring.DataSize() == 0
    requires worker in e.pcs && e.pcs[worker] == DoneSnapshot
    ensures WellFormed(n) && Leads(s, n, calls)
    ensures n.pcs == e.pcs[worker := DoneRelease] && n.sh == e.sh
  {
    n := StepLeads(s, e, worker, false, e.sh, DoneRelease, calls);
  }

  /** A thread at PostSend's entry sends the whole queue, and a worker takes the completion. */
  lemma CarriedLeads(s: State, e: State, t: Tid, worker: Tid, calls: bool) returns (n: State)
    requires Leads(s, e, calls) && WellFormed(e)
    requires t in e.pcs && e.pcs[t] == PostCheck && worker !in e.pcs
    requires e.sh.valid && e.sh.socketOpen && !e.sh.sending && e.sh.inflight == [] && e.sh.ring.DataSize() > 0
    ensures WellFormed(n) && Leads(s, n, calls)
    ensures n.pcs == e.pcs[t := Finished][worker := DoneCheckWorker(e.sh.ring.DataSize())]
    ensures n.sh.valid && n.sh.socketOpen && n.sh.sending && n.sh.inflight == [] && n.sh.ring == e.sh.ring
    ensures n.sh.accepted == e.sh.accepted && !n.sh.overtaken
  {
    n := WinLeads(s, e, t, calls);
    n := SubmitLeads(s, n, t, calls);
    Again(e.pcs, t, PostSnapshot, Finished);
    n := CompleteLeads(s, n, worker, e.sh.ring.DataSize(), calls);
  }

  /** ... and consumes it and finds nothing more. */
  lemma SentLeads(s: State, e: State, t: Tid, worker: Tid, calls: bool) returns (n: State)
    requires Leads(s, e, calls) && WellFormed(e)
    requires t in e.pcs && e.pcs[t] == PostCheck && worker !in e.pcs
    requires e.sh.valid && e.sh.socketOpen && !e.sh.sending && e.sh.inflight == [] && e.sh.ring.DataSize() > 0
    ensures WellFormed(n) && Leads(s, n, calls)
    ensures n.pcs == e.pcs[t := Finished][worker := DoneRelease]
    ensures n.sh.valid && n.sh.socketOpen && n.sh.sending && n.sh.inflight == []
    ensures n.sh.ring.Queue() == [] && |n.sh.ring.buf| == |e.sh.ring.buf|
    ensures n.sh.accepted == e.sh.accepted && !n.sh.overtaken
  {
    n := CarriedLeads(s, e, t, worker, calls);
    n := ConsumeLeads(s, n, worker, e.sh.ring.DataSize(), calls);
    n := FindsNothingLeads(s, n, worker, calls);
    Again(e.pcs[t := Finished], worker, DoneCheckWorker(e.sh.ring.DataSize()), DoneSnapshot);
    Again(e.pcs[t := Finished], worker, DoneSnapshot, DoneRelease);
  }

  lemma ReleasingSteps(sh: Shared)
    requires SharedOk(sh)
    ensures ThreadStep(sh, DoneRelease, false) == (sh.(sending := false), DoneRecheck)
    ensures ThreadStep(sh, DoneRecheck, false) == (sh, if sh.ring.DataSize() > 0 then PostCheck else Finished)
  {
  }

  /** A worker releases the flag and looks at the ring again. */
  lemma ReleaseLeads(s: State, e: State, worker: Tid, calls: bool) returns (n: State)
    requires Leads(s, e, calls) && WellFormed(e) && worker in e.pcs && e.pcs[worker] == DoneRelease
    ensures WellFormed(n) && Leads(s, n, calls)
    ensures n == State(e.sh.(sending := false),
                       e.pcs[worker := if e.sh.ring.DataSize() > 0 then PostCheck else Finished])
  {
    var released := e.sh.(sending := false);
    ReleasingSteps(e.sh);
    ReleasingSteps(released);
    n := StepsLead(s, e, worker, false, released, DoneRecheck,
                   released, if e.sh.ring.DataSize() > 0 then PostCheck else Finished, calls);
  }

  /** A winner of the flag over an empty ring stands before the empty release. */
  lemma EmptyWinLeads(s: State, e: State, t: Tid, calls: bool) returns (n: State)
    requires Leads(s, e, calls) && WellFormed(e)
    requires t in e.pcs && e.pcs[t] == PostCheck && e.sh.valid && !e.sh.sending && e.sh.ring.DataSize() == 0
    ensures WellFormed(n) && Leads(s, n, calls)
    ensures n.pcs == e.pcs[t := PostEmptyRelease]
    ensures n.sh == e.sh.(sending := true, overtaken := false, won := e.sh.ring.Queue())
  {
    n := WinLeads(s, e, t, calls);
    Again(e.pcs, t, PostSnapshot, PostEmptyRelease);
    n := StepLeads(s, n, t, false, n.sh, PostEmptyRelease, calls);
  }
}
