/**
 What can always still be done: the invariants say that nothing bad is reached,
 and these results that the good states stay within reach. From every reachable
 state of an open session a partial completion goes on, and a message can get
 all the way to the wire; and only the documented failures close a session.
 */
module SendProgress {
  import opened Bytes
  import opened RingModel
  import opened SendProtocol
  import opened SendSafety
  import opened SendStream
  import opened SendTheorems
  import opened SendRuns
  import opened SendSession

  // ---------------------------------------------------------------- what closes a session

  /** A WSASend that fails, because the socket is closed or the call is refused. */
  ghost predicate SendFails(s: State, a: Action) {
    && a.Step? && a.t in s.pcs && (s.pcs[a.t].PostSubmit? || s.pcs[a.t].DoneSubmit?)
    && !(s.sh.socketOpen && a.sendAccepted)
  }

  lemma StepDisconnects(sh: Shared, pc: Pc, accepted: bool)
    requires SharedOk(sh) && (pc.DoneConsume? ==> pc.n <= sh.ring.DataSize())
    ensures ThreadStep(sh, pc, accepted).1 == DisExchange <==>
      pc.FailRelease? || (pc.ReqEnqueue? && |pc.data| > sh.ring.FreeSize())
    ensures ThreadStep(sh, pc, accepted).1 == FailRelease <==>
      (pc.PostSubmit? || pc.DoneSubmit?) && !(sh.socketOpen && accepted)
  {
  }

  /**
   Exactly what leads a thread to a disconnect: a call of it, a completion that
   failed or carried no bytes, a message that does not fit the send ring, or a
   WSASend that failed; every other completion leads a worker on to ProcessSend.
   */
  lemma WhatDisconnects(s: State, a: Action)
    requires Reachable(s) && Enabled(s, a) && !a.Transmit?
    ensures Next(s, a).pcs[a.t] == DisExchange <==>
      || a.CallDisconnect?
      || (a.Complete? && (a.failed || s.sh.inflight[a.i].done == 0))
      || (a.Step? && (s.pcs[a.t].FailRelease? || (s.pcs[a.t].ReqEnqueue? && |s.pcs[a.t].data| > s.sh.ring.FreeSize())))
    ensures Next(s, a).pcs[a.t] == FailRelease <==> SendFails(s, a)
    ensures a.Complete? && !(a.failed || s.sh.inflight[a.i].done == 0) ==>
      Next(s, a).pcs[a.t] == DoneCheckWorker(s.sh.inflight[a.i].done)
  {
    ReachableInv(s);
    if a.Step? {
      assert DataOk(s.sh, s.pcs[a.t]);
      StepDisconnects(s.sh, s.pcs[a.t], a.sendAccepted);
    }
  }

  // ---------------------------------------------------------------- completions go on

  lemma LeadsInv(b: State, n: State, calls: bool)
    requires Inv(b) && Leads(b, n, calls)
    ensures Inv(n)
  {
    var trace :| CanRun(b, trace) && Run(b, trace) == n && (calls || NoCalls(trace));
    InvRun(b, trace);
  }

  /** What the invariant says of the one outstanding send of an open session. */
  lemma Outstanding(s: State)
    requires Inv(s) && s.sh.valid && s.sh.inflight != []
    ensures |s.sh.inflight| == 1 && s.sh.socketOpen
    ensures var op := s.sh.inflight[0];
      && 0 < Total(op.segs) <= s.sh.ring.DataSize() && op.done <= Total(op.segs)
      && |s.sh.wire| == |s.sh.consumed| + op.done
  {
    assert SendOk(s.sh, s.sh.inflight[0]);
  }

  /** A worker takes the completion of the outstanding send after m more bytes and consumes what was sent. */
  lemma ConsumedLeads(b: State, s: State, t: Tid, m: nat) returns (n: State)
    requires Leads(b, s, false) && WellFormed(s) && s.sh.valid && s.sh.socketOpen && t !in s.pcs
    requires |s.sh.inflight| == 1
    requires 0 < s.sh.inflight[0].done + m <= Total(s.sh.inflight[0].segs) <= s.sh.ring.DataSize()
    ensures WellFormed(n) && Leads(b, n, false) && n.pcs == s.pcs[t := DoneSnapshot]
    ensures var size := s.sh.inflight[0].done + m;
      && n.sh == s.sh.(ring := s.sh.ring.Drop(size), consumed := s.sh.consumed + s.sh.ring.Queue()[..size],
                       wire := n.sh.wire, inflight := [])
      && n.sh.ring.Queue() == s.sh.ring.Queue()[size..] && |n.sh.wire| == |s.sh.wire| + m
  {
    var size := s.sh.inflight[0].done + m;
    n := CompleteLeads(b, s, t, m, false);
    n := ConsumeLeads(b, n, t, size, false);
    Again(s.pcs, t, DoneCheckWorker(size), DoneSnapshot);
  }

  /** ... and then sends on what is left, or releases the flag. */
  lemma WorkedOff(b: State, s: State, t: Tid, m: nat) returns (n: State)
    requires Leads(b, s, false) && WellFormed(s) && s.sh.valid && s.sh.socketOpen && t !in s.pcs
    requires |s.sh.inflight| == 1
    requires 0 < s.sh.inflight[0].done + m <= Total(s.sh.inflight[0].segs) <= s.sh.ring.DataSize()
    ensures WellFormed(n) && Leads(b, n, false) && n.pcs == s.pcs[t := Finished]
    ensures n.sh.valid && n.sh.accepted == s.sh.accepted && n.sh.overtaken == s.sh.overtaken
    ensures |n.sh.ring.buf| == |s.sh.ring.buf| && |n.sh.wire| == |s.sh.wire| + m
    ensures n.sh.consumed == s.sh.consumed + s.sh.ring.Queue()[..s.sh.inflight[0].done + m]
    ensures n.sh.ring.Queue() == s.sh.ring.Queue()[s.sh.inflight[0].done + m..]
    ensures if n.sh.ring.Queue() == [] then n.sh.inflight == []
            else
              && |n.sh.inflight| == 1 && n.sh.inflight[0].done == 0
              && InBounds(n.sh.inflight[0].segs, |n.sh.ring.buf|)
              && Gather(n.sh.ring.buf, n.sh.inflight[0].segs) == n.sh.ring.Queue()
  {
    n := ConsumedLeads(b, s, t, m);
    SnapshotSpellsQueue(n.sh.ring);
    Again(s.pcs, t, DoneSnapshot, Finished);
    if n.sh.ring.DataSize() > 0 {
      n := ResubmitLeads(b, n, t, false);
    } else {
      n := FindsNothingLeads(b, n, t, false);
      Again(s.pcs, t, DoneSnapshot, DoneRelease);
      n := ReleaseLeads(b, n, t, false);
      Again(s.pcs, t, DoneRelease, Finished);
    }
  }

  /**
   A partial completion goes on. From every reachable state of an open session
   with a send outstanding, whatever part of it the kernel has transmitted when a
   worker takes the completion: the worker can consume exactly those bytes in the
   still open session, and if more bytes are queued, submit all of them in one
   send; if none are, nothing is left outstanding.
   */
  lemma PartialCompletionGoesOn(s: State, t: Tid, m: nat) returns (n: State)
    requires Reachable(s) && s.sh.valid && s.sh.inflight != [] && t !in s.pcs
    requires 0 < s.sh.inflight[0].done + m <= Total(s.sh.inflight[0].segs)
    ensures Leads(s, n, false) && n.sh.valid && n.pcs == s.pcs[t := Finished]
    ensures n.sh.consumed == n.sh.wire && |n.sh.wire| == |s.sh.wire| + m
    ensures n.sh.consumed + n.sh.ring.Queue() == s.sh.accepted
    ensures if n.sh.ring.Queue() == [] then n.sh.inflight == []
            else
              && |n.sh.inflight| == 1 && n.sh.inflight[0].done == 0
              && InBounds(n.sh.inflight[0].segs, |n.sh.ring.buf|)
              && Gather(n.sh.ring.buf, n.sh.inflight[0].segs) == n.sh.ring.Queue()
  {
    ReachableInv(s);
    Outstanding(s);
    LeadsNowhere(s, false);
    n := WorkedOff(s, s, t, m);
    LeadsInv(s, n, false);
    SameLength(n.sh);
  }

  /** The wire is a prefix of the accepted bytes, so it is what was consumed if it is as long. */
  lemma SameLength(sh: Shared)
    requires SharedOk(sh) && StreamOk(sh) && |sh.wire| == |sh.consumed|
    ensures sh.consumed == sh.wire
  {
    assert sh.accepted[..|sh.wire|] == sh.wire && sh.accepted[..|sh.consumed|] == sh.consumed;
  }

  // ---------------------------------------------------------------- messages can arrive

  /** A thread that neither brings a new message nor is on its way to close the session. */
  predicate IsCalm(pc: Pc) {
    !pc.ReqCheck? && !pc.ReqEnqueue? && !pc.FailRelease? && !pc.DisExchange? && !IsCloser(pc)
  }

  ghost predicate AllCalm(pcs: map<Tid, Pc>) {
    forall t :: t in pcs ==> IsCalm(pcs[t])
  }

  ghost predicate AllFinished(pcs: map<Tid, Pc>) {
    forall t :: t in pcs ==> pcs[t] == Finished
  }

  lemma CalmStep(sh: Shared, pc: Pc)
    requires SharedOk(sh) && IsCalm(pc) && sh.valid && sh.socketOpen && (pc.DoneConsume? ==> pc.n <= sh.ring.DataSize())
    ensures var (after, next) := ThreadStep(sh, pc, true);
      && IsCalm(next) && after.valid && after.accepted == sh.accepted && |after.ring.buf| == |sh.ring.buf|
      && after.ring.DataSize() <= sh.ring.DataSize()
  {
    if pc.DoneConsume? {
      DropQueue(sh.ring, pc.n);
    }
  }

  /** A calm thread can run to its end, if WSASend accepts, and leaves the session open. */
  lemma {:induction false} FinishThread(b: State, s: State, t: Tid) returns (n: State)
    requires Inv(b) && Leads(b, s, false) && Inv(s) && s.sh.valid && t in s.pcs && IsCalm(s.pcs[t])
    ensures Leads(b, n, false) && Inv(n) && n.sh.valid && n.sh.accepted == s.sh.accepted
    ensures n.pcs == s.pcs[t := Finished]
    ensures |n.sh.ring.buf| == |s.sh.ring.buf| && n.sh.ring.DataSize() <= s.sh.ring.DataSize()
    decreases Rank(s.pcs[t])
  {
    if s.pcs[t] == Finished {
      n := s;
    } else {
      assert DataOk(s.sh, s.pcs[t]);
      CalmStep(s.sh, s.pcs[t]);
      RankFalls(s.sh, s.pcs[t], true);
      InvNext(s, Step(t, true));
      LeadsOneMore(b, s, Step(t, true), false);
      n := FinishThread(b, Next(s, Step(t, true)), t);
      Again(s.pcs, t, ThreadStep(s.sh, s.pcs[t], true).1, Finished);
    }
  }

  lemma OneLessBusy(pcs: map<Tid, Pc>, t: Tid, busy: set<Tid>)
    requires AllCalm(pcs) && forall u :: u in pcs ==> u in busy || pcs[u] == Finished
    ensures AllCalm(pcs[t := Finished])
    ensures forall u :: u in pcs[t := Finished] ==> u in busy - {t} || pcs[t := Finished][u] == Finished
  {
  }

  lemma {:induction false} FinishAll(b: State, s: State, busy: set<Tid>) returns (n: State)
    requires Inv(b) && Leads(b, s, false) && Inv(s) && s.sh.valid && AllCalm(s.pcs)
    requires forall t :: t in s.pcs ==> t in busy || s.pcs[t] == Finished
    ensures Leads(b, n, false) && Inv(n) && n.sh.valid && n.sh.accepted == s.sh.accepted && AllFinished(n.pcs)
    ensures |n.sh.ring.buf| == |s.sh.ring.buf| && n.sh.ring.DataSize() <= s.sh.ring.DataSize()
    decreases |busy|
  {
    if busy == {} {
      n := s;
    } else {
      var t :| t in busy;
      if t in s.pcs {
        n := FinishThread(b, s, t);
        OneLessBusy(s.pcs, t, busy);
        n := FinishAll(b, n, busy - {t});
      } else {
        n := FinishAll(b, s, busy - {t});
      }
    }
  }

  lemma {:induction false} Unused(used: set<Tid>) returns (t: Tid)
    ensures forall u :: u in used ==> u < t
    decreases |used|
  {
    if used == {} {
      t := 0;
    } else {
      var v :| v in used;
      var w := Unused(used - {v});
      t := if v < w then w else v + 1;
      assert forall u :: u in used ==> u == v || u in used - {v};
    }
  }

  /** With every thread finished, the kernel and fresh workers can work off all that is outstanding. */
  lemma {:induction false} Drained(b: State, s: State) returns (n: State)
    requires Inv(b) && Leads(b, s, false) && Inv(s) && s.sh.valid && AllFinished(s.pcs)
    ensures Leads(b, n, false) && Inv(n) && n.sh.valid && n.sh.accepted == s.sh.accepted
    ensures AllFinished(n.pcs) && n.sh.inflight == []
    ensures |n.sh.ring.buf| == |s.sh.ring.buf| && n.sh.ring.DataSize() <= s.sh.ring.DataSize()
    decreases s.sh.ring.DataSize()
  {
    if s.sh.inflight == [] {
      n := s;
    } else {
      Outstanding(s);
      var op := s.sh.inflight[0];
      var t := Unused(s.pcs.Keys);
      n := WorkedOff(b, s, t, Total(op.segs) - op.done);
      LeadsInv(b, n, false);
      n := Drained(b, n);
    }
  }

  /**
   From every reachable state of an open session whose threads are all calm, a run
   leads to rest with the session open: everything accepted is on the wire and
   consumed, unless an Enqueue overtook an empty release.
   */
  lemma RestCanBeReached(s: State) returns (n: State)
    requires Reachable(s) && s.sh.valid && AllCalm(s.pcs)
    ensures Leads(s, n, false) && Inv(n) && n.sh.valid && AllFinished(n.pcs) && n.sh.inflight == []
    ensures n.sh.accepted == s.sh.accepted && (n.sh.wire == n.sh.accepted || n.sh.overtaken)
    ensures |n.sh.ring.buf| == |s.sh.ring.buf| && n.sh.ring.DataSize() <= s.sh.ring.DataSize()
  {
    ReachableInv(s);
    LeadsNowhere(s, false);
    n := FinishAll(s, s, s.pcs.Keys);
    n := Drained(s, n);
    SendAtRest(n);
    if !n.sh.overtaken {
      assert n.sh.ring.Queue() == [];
      EmptyRight(n.sh.wire);
    }
  }

  /** Every thread but t has finished, and the numbers behind t are unused. */
  ghost predicate OnlyLast(pcs: map<Tid, Pc>, t: Tid, pc: Pc) {
    t in pcs && pcs[t] == pc && forall u :: u in pcs ==> u == t || (u < t && pcs[u] == Finished)
  }

  lemma BothFinish(pcs: map<Tid, Pc>, t: Tid)
    requires OnlyLast(pcs, t, PostCheck)
    ensures var after := pcs[t := Finished][t + 1 := DoneRelease][t + 1 := Finished];
      OnlyLast(after, t + 1, Finished) && t in after
  {
  }

  lemma OneEnters(pcs: map<Tid, Pc>, t: Tid)
    requires AllFinished(pcs) && forall u :: u in pcs ==> u < t
    ensures OnlyLast(pcs[t := PostCheck], t, PostCheck)
  {
  }

  /** What the last thread alone has to do is sent and consumed. */
  lemma SentToRest(b: State, s: State, t: Tid, calls: bool) returns (n: State)
    requires Leads(b, s, calls) && WellFormed(s) && OnlyLast(s.pcs, t, PostCheck)
    requires s.sh.valid && s.sh.socketOpen && !s.sh.sending && s.sh.inflight == [] && s.sh.ring.DataSize() > 0
    ensures WellFormed(n) && Leads(b, n, calls) && OnlyLast(n.pcs, t + 1, Finished) && t in n.pcs
    ensures n.sh.valid && n.sh.socketOpen && !n.sh.sending && n.sh.inflight == []
    ensures n.sh.ring.Queue() == [] && |n.sh.ring.buf| == |s.sh.ring.buf| && n.sh.accepted == s.sh.accepted
  {
    n := SentLeads(b, s, t, t + 1, calls);
    n := ReleaseLeads(b, n, t + 1, calls);
    BothFinish(s.pcs, t);
  }

  /** At rest, a new message is sent together with whatever was stranded. */
  lemma DeliveredFromRest(b: State, s: State, t: Tid, data: seq<Byte>) returns (n: State)
    requires Leads(b, s, true) && WellFormed(s)
    requires s.sh.valid && s.sh.socketOpen && !s.sh.sending && s.sh.inflight == [] && AllFinished(s.pcs)
    requires 0 < |data| <= s.sh.ring.FreeSize() && forall u :: u in s.pcs ==> u < t
    ensures WellFormed(n) && Leads(b, n, true) && n.sh.valid && AllFinished(n.pcs) && n.sh.inflight == []
    ensures n.sh.ring.Queue() == [] && n.sh.accepted == s.sh.accepted + data
  {
    OneEnters(s.pcs, t);
    n := RequestLeads(b, s, t, data);
    n := SentToRest(b, n, t, true);
  }

  /**
   Every message can arrive. From every reachable state of an open session whose
   threads are all calm, a message that fits the free space can be accepted and
   a run leads to rest with the session open and every accepted byte, stranded
   ones included, on the wire, the message last.
   */
  lemma EveryMessageCanArrive(s: State, data: seq<Byte>) returns (n: State)
    requires Reachable(s) && s.sh.valid && AllCalm(s.pcs) && 0 < |data| <= s.sh.ring.FreeSize()
    ensures Leads(s, n, true)
    ensures n.sh.valid && AllFinished(n.pcs) && n.sh.inflight == []
    ensures n.sh.wire == n.sh.consumed == n.sh.accepted == s.sh.accepted + data
  {
    ReachableInv(s);
    var r := RestCanBeReached(s);
    SizesAddUp(s.sh.ring);
    SizesAddUp(r.sh.ring);
    SendAtRest(r);
    var t := Unused(r.pcs.Keys);
    var trace :| CanRun(s, trace) && Run(s, trace) == r;
    n := DeliveredFromRest(s, r, t, data);
    LeadsInv(s, n, true);
    SendAtRest(n);
    EmptyRight(n.sh.wire);
  }
}
