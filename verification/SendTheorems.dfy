/** The main results about the send protocol, for every run from a fresh session. */
module SendTheorems {
  import opened Bytes
  import opened RingModel
  import opened SendProtocol
  import opened SendSafety
  import opened SendStream
  import opened SendStranding

  ghost predicate Inv(s: State) {
    && WellFormed(s)
    && CloseInv(s) && TokenInv(s) && CarrierInv(s)
    && DataInv(s) && LiveInv(s) && WonInv(s)
  }

  lemma InvInitial(ring: Ring)
    requires ring.Valid() && ring.Queue() == []
    ensures Inv(Initial(ring))
  {
  }

  lemma InvNext(s: State, a: Action)
    requires Inv(s) && Enabled(s, a)
    ensures Inv(Next(s, a))
  {
    NextWellFormed(s, a);
    CloseStep(s, a);
    TokenStep(s, a);
    CarrierStep(s, a);
    DataStep(s, a);
    LiveStep(s, a);
    WonStep(s, a);
  }

  lemma {:induction false} InvRun(s: State, trace: seq<Action>)
    requires Inv(s) && CanRun(s, trace)
    ensures Inv(Run(s, trace))
    decreases |trace|
  {
    if trace != [] {
      InvNext(s, trace[0]);
      InvRun(Next(s, trace[0]), trace[1..]);
    }
  }

  /** Some run of a fresh session, over a ring of any capacity, ends in this state. */
  ghost predicate Reachable(s: State) {
    exists ring: Ring, trace: seq<Action> ::
      ring.Valid() && ring.Queue() == [] && CanRun(Initial(ring), trace) && Run(Initial(ring), trace) == s
  }

  lemma ReachableInv(s: State)
    requires Reachable(s)
    ensures Inv(s)
  {
    var ring: Ring, trace: seq<Action> :|
      ring.Valid() && ring.Queue() == [] && CanRun(Initial(ring), trace) && Run(Initial(ring), trace) == s;
    InvInitial(ring);
    InvRun(Initial(ring), trace);
  }

  // ---------------------------------------------------------------- one send at a time

  lemma OnlySubmitAdds(sh: Shared, pc: Pc, accepted: bool)
    requires SharedOk(sh) && ((pc.PostSubmit? || pc.DoneSubmit?) ==> !sh.socketOpen)
    ensures ThreadStep(sh, pc, accepted).0.inflight == sh.inflight
  {
    match pc
    case PostSubmit(segs) =>
    case DoneSubmit(segs) =>
    case _ =>
  }

  /**
   At most one WSASend is outstanding, in every interleaving. Two threads stand
   behind the flag at once only when the socket is closed, and then whatever a
   holder does next adds nothing to what the kernel has been given.
   */
  lemma AtMostOneSend(s: State, t: Tid, u: Tid)
    requires Reachable(s)
    ensures |s.sh.inflight| <= 1
    ensures s.sh.socketOpen && t in s.pcs && IsHolder(s.pcs[t]) ==> s.sh.inflight == [] && s.sh.sending
    ensures t != u && t in s.pcs && u in s.pcs && IsHolder(s.pcs[t]) && IsHolder(s.pcs[u]) ==>
      && !s.sh.socketOpen && !s.sh.valid
      && (forall accepted :: ThreadStep(s.sh, s.pcs[t], accepted).0.inflight == s.sh.inflight)
  {
    ReachableInv(s);
    if s.sh.socketOpen && t in s.pcs && IsHolder(s.pcs[t]) {
      HoldersAreOne(s, t);
    }
    if !s.sh.socketOpen && t in s.pcs {
      forall accepted ensures ThreadStep(s.sh, s.pcs[t], accepted).0.inflight == s.sh.inflight {
        OnlySubmitAdds(s.sh, s.pcs[t], accepted);
      }
    }
  }

  /** No action ever gives the kernel a second send: a submission finds none outstanding. */
  lemma SubmitFindsNone(s: State, a: Action)
    requires Reachable(s) && Enabled(s, a)
    ensures |Next(s, a).sh.inflight| > |s.sh.inflight| ==> s.sh.inflight == [] && s.sh.socketOpen && s.sh.sending
  {
    ReachableInv(s);
    if a.Step? {
      if (s.pcs[a.t].PostSubmit? || s.pcs[a.t].DoneSubmit?) && s.sh.socketOpen {
        HoldersAreOne(s, a.t);
      } else {
        OnlySubmitAdds(s.sh, s.pcs[a.t], a.sendAccepted);
      }
    }
  }

  // ---------------------------------------------------------------- the stream

  /**
   Conservation: the bytes consumed and the bytes in the send ring are together
   the accepted messages in lock order, and what the kernel has put on the wire
   is a prefix of them. An outstanding send's segments spell the front of the
   ring, whatever has been enqueued since they were taken.
   */
  lemma SendStreamConservation(s: State)
    requires Reachable(s)
    ensures s.sh.ring.Valid()
    ensures s.sh.consumed + s.sh.ring.Queue() == s.sh.accepted
    ensures s.sh.consumed <= s.sh.wire <= s.sh.accepted
    ensures forall i :: 0 <= i < |s.sh.inflight| ==>
      var op := s.sh.inflight[i];
      && InBounds(op.segs, |s.sh.ring.buf|)
      && Gather(s.sh.ring.buf, op.segs) <= s.sh.ring.Queue()
      && op.done <= Total(op.segs)
      && s.sh.wire == s.sh.consumed + s.sh.ring.Queue()[..op.done]
  {
    ReachableInv(s);
    var sh := s.sh;
    var q := sh.ring.Queue();
    assert sh.wire == sh.accepted[..|sh.wire|];
    assert sh.consumed <= sh.wire;
    if sh.inflight != [] {
      var op := sh.inflight[0];
      assert SendOk(sh, op);
      assert sh.accepted[..|sh.wire|] == sh.consumed + q[..op.done];
    }
  }

  /**
   A worker that is about to consume finds its bytes: they are exactly the ones
   on the wire and not yet consumed, so the mismatch branch (610-616) is dead.
   */
  lemma ConsumeNeverMismatches(s: State, t: Tid)
    requires Reachable(s) && t in s.pcs && s.pcs[t].DoneConsume?
    ensures var n := s.pcs[t].n;
      var (after, pc) := ThreadStep(s.sh, s.pcs[t], false);
      && 0 < n <= s.sh.ring.DataSize()
      && pc == DoneSnapshot
      && after.consumed == s.sh.wire == after.wire
  {
    ReachableInv(s);
    assert DataOk(s.sh, s.pcs[t]);
    var sh, n := s.sh, s.pcs[t].n;
    var q := sh.ring.Queue();
    assert sh.wire == sh.accepted[..|sh.wire|];
    assert sh.accepted[..|sh.wire|] == sh.consumed + q[..n];
  }

  lemma SnapshotSubmits(sh: Shared, pc: Pc, accepted: bool)
    requires SharedOk(sh) && (pc.PostSnapshot? || pc.DoneSnapshot?) && sh.ring.DataSize() > 0
    ensures var next := ThreadStep(sh, pc, accepted).1;
      && (next.PostSubmit? || next.DoneSubmit?)
      && Submitted(next) == SendSegments(sh.ring.Snapshot()) && Submitted(next) != []
      && Submitted(next)[0].len > 0
  {
    SnapshotSpellsQueue(sh.ring);
  }

  /** The defensive branches of PostSend (720-734) and ProcessSend (646) for an empty WSABUF array are dead. */
  lemma SnapshotNeverEmptyHanded(s: State, t: Tid, accepted: bool)
    requires Reachable(s) && t in s.pcs && (s.pcs[t].PostSnapshot? || s.pcs[t].DoneSnapshot?)
    requires s.sh.ring.DataSize() > 0
    ensures var pc := ThreadStep(s.sh, s.pcs[t], accepted).1;
      && (pc.PostSubmit? || pc.DoneSubmit?)
      && Submitted(pc) != [] && Submitted(pc)[0].len > 0
      && InBounds(Submitted(pc), |s.sh.ring.buf|)
      && Gather(s.sh.ring.buf, Submitted(pc)) == s.sh.ring.Queue()
  {
    ReachableInv(s);
    SnapshotSubmits(s.sh, s.pcs[t], accepted);
    SnapshotSpellsQueue(s.sh.ring);
  }

  // ---------------------------------------------------------------- closing

  /** However many threads race to close it, a session is handed over at most once, and exactly once if all finish. */
  lemma ClosedExactlyOnce(s: State)
    requires Reachable(s)
    ensures s.sh.closes <= 1
    ensures (forall t :: t in s.pcs ==> s.pcs[t] == Finished) ==> (s.sh.closes == 1 <==> !s.sh.valid)
    ensures s.sh.flagReset ==> !s.sh.socketOpen
  {
    ReachableInv(s);
  }

  // ---------------------------------------------------------------- stranding

  /** A reset stays, and so does a close. */
  lemma ClosingIsFinal(sh: Shared, pc: Pc, accepted: bool)
    requires SharedOk(sh)
    ensures var after := ThreadStep(sh, pc, accepted).0;
      (sh.flagReset ==> after.flagReset) && (after.valid ==> sh.valid)
  {
  }

  /** Which steps write the records of wins and releases. */
  lemma ThreadHistory(sh: Shared, pc: Pc, accepted: bool)
    requires SharedOk(sh) && !(pc.PostExchange? && !sh.sending)
    ensures var after := ThreadStep(sh, pc, accepted).0;
      after.won == sh.won && (!pc.PostEmptyRelease? ==> after.overtaken == sh.overtaken)
  {
    match pc
    case ReqEnqueue(_) =>
    case PostExchange =>
    case PostEmptyRelease =>
    case PostSubmit(_) =>
    case DoneConsume(_) =>
    case DoneSubmit(_) =>
    case _ =>
  }

  /** Bytes are queued in an open session, and no thread is on its way to send them or to close it. */
  ghost predicate Stranded(s: State) {
    s.sh.ring.Valid() && s.sh.valid && s.sh.ring.DataSize() > 0 && !s.sh.sending && !Some(s.pcs, IsRescuer)
  }

  /**
   Exact no-stranding. In an open session with bytes queued and the flag free,
   some thread is on its way to PostSend's exchange or about to disconnect, or
   an Enqueue overtook the empty release at 694; and with no such thread, bytes
   are stranded exactly when an Enqueue did.
   */
  lemma StrandedExactlyWhenOvertaken(s: State)
    requires Reachable(s)
    ensures s.sh.ring.Valid()
    ensures s.sh.valid && s.sh.ring.DataSize() > 0 && !s.sh.sending ==> Some(s.pcs, IsRescuer) || s.sh.overtaken
    ensures s.sh.valid && !Some(s.pcs, IsRescuer) ==> (Stranded(s) <==> s.sh.overtaken)
  {
    ReachableInv(s);
  }

  /** The record of an overtaking is made by the empty release alone. */
  lemma OnlyTheEmptyReleaseRecords(s: State, a: Action)
    requires WellFormed(s) && Enabled(s, a) && !s.sh.overtaken
    ensures Next(s, a).sh.overtaken ==>
      a.Step? && s.pcs[a.t].PostEmptyRelease? && s.sh.ring.DataSize() > 0
  {
    if a.Step? && !(s.pcs[a.t].PostExchange? && !s.sh.sending) {
      ThreadHistory(s.sh, s.pcs[a.t], a.sendAccepted);
    }
  }

  /** Once bytes were overtaken, whoever is on the way stays on the way, wins the flag or closes the session. */
  lemma RescuerStays(sh: Shared, pc: Pc, accepted: bool)
    requires SharedOk(sh) && sh.valid && !sh.sending && sh.ring.DataSize() > 0 && IsRescuer(pc)
    ensures var (after, next) := ThreadStep(sh, pc, accepted);
      IsRescuer(next) || after.sending || !after.valid
  {
  }

  lemma OvertakenIsNotStrandedLater(s: State, a: Action)
    requires WellFormed(s) && CloseInv(s) && LiveInv(s) && Enabled(s, a) && s.sh.overtaken && !Stranded(s)
    ensures !Stranded(Next(s, a))
  {
    var n := Next(s, a);
    if a.Step? {
      ClosingIsFinal(s.sh, s.pcs[a.t], a.sendAccepted);
    }
    if n.sh.valid {
      var t :| t in s.pcs && IsRescuer(s.pcs[t]);
      assert t in n.pcs;
      if a.Step? && a.t == t {
        RescuerStays(s.sh, s.pcs[t], a.sendAccepted);
      }
      assert IsRescuer(n.pcs[t]) || n.sh.sending;
    }
  }

  lemma EmptyReleaseStrands(s: State, t: Tid, accepted: bool)
    requires WellFormed(s) && t in s.pcs && s.pcs[t].PostEmptyRelease?
    ensures Stranded(Next(s, Step(t, accepted))) <==>
      s.sh.ring.DataSize() > 0 && s.sh.valid && !Some(s.pcs, IsRescuer)
  {
    MoveThread(s.pcs, t, Finished, IsRescuer);
  }

  /**
   The one action that strands bytes is the empty release at 694, when it runs
   after bytes were enqueued and nobody else is on the way to send them.
   */
  lemma OnlyTheEmptyReleaseStrands(s: State, a: Action)
    requires Reachable(s) && Enabled(s, a) && !Stranded(s)
    ensures Stranded(Next(s, a)) <==>
      && a.Step? && s.pcs[a.t].PostEmptyRelease?
      && s.sh.ring.DataSize() > 0 && s.sh.valid && !Some(s.pcs, IsRescuer)
  {
    ReachableInv(s);
    InvNext(s, a);
    if a.Step? && s.pcs[a.t].PostEmptyRelease? {
      EmptyReleaseStrands(s, a.t, a.sendAccepted);
    } else if s.sh.overtaken {
      OvertakenIsNotStrandedLater(s, a);
    } else if Stranded(Next(s, a)) {
      OnlyTheEmptyReleaseRecords(s, a);
      assert false;
    }
  }

  lemma SendAtRest(s: State)
    requires Inv(s) && s.sh.valid && s.sh.inflight == []
    requires forall t :: t in s.pcs ==> s.pcs[t] == Finished
    ensures !s.sh.sending && s.sh.consumed == s.sh.wire
    ensures s.sh.wire + s.sh.ring.Queue() == s.sh.accepted
    ensures s.sh.ring.DataSize() > 0 <==> s.sh.overtaken
  {
    var sh := s.sh;
    assert !Some(s.pcs, IsHolder) && !Some(s.pcs, IsRescuer) && !Some(s.pcs, IsCarrier);
    assert !Some(s.pcs, IsDisconnecting);
    assert |sh.wire| == |sh.consumed|;
    assert sh.accepted[..|sh.wire|] == sh.wire && sh.accepted[..|sh.consumed|] == sh.consumed;
  }

  /**
   When everything has come to rest in an open session, either all accepted
   bytes are on the wire and consumed, or an Enqueue overtook the empty release.
   */
  lemma RestMeansDelivered(s: State)
    requires Reachable(s) && s.sh.valid && s.sh.inflight == []
    requires forall t :: t in s.pcs ==> s.pcs[t] == Finished
    ensures !s.sh.sending
    ensures s.sh.consumed == s.sh.wire
    ensures s.sh.wire == s.sh.accepted <==> !s.sh.overtaken
  {
    ReachableInv(s);
    SendAtRest(s);
    assert |s.sh.accepted| == |s.sh.wire| + s.sh.ring.DataSize();
    EmptyRight(s.sh.wire);
  }

  // ---------------------------------------------------------------- what rescues stranded bytes

  /** The action wins the sending flag in PostSend. */
  ghost predicate Wins(s: State, a: Action) {
    a.Step? && a.t in s.pcs && s.pcs[a.t].PostExchange? && !s.sh.sending
  }

  /** Nothing in this run wins the flag. */
  ghost predicate NobodyWins(s: State, trace: seq<Action>)
    requires WellFormed(s) && CanRun(s, trace)
    decreases |trace|
  {
    trace == [] || (!Wins(s, trace[0]) && (NextWellFormed(s, trace[0]); NobodyWins(Next(s, trace[0]), trace[1..])))
  }

  /** Who neither holds the flag nor wins it only adds to the queue. */
  lemma OnlyHoldersTake(sh: Shared, pc: Pc, accepted: bool)
    requires SharedOk(sh) && !IsHolder(pc) && !(pc.PostExchange? && !sh.sending)
    ensures sh.ring.Queue() <= ThreadStep(sh, pc, accepted).0.ring.Queue()
  {
    match pc
    case ReqEnqueue(data) => if |data| <= sh.ring.FreeSize() { PutQueue(sh.ring, data); }
    case _ =>
  }

  lemma OvertakenWaits(s: State, a: Action)
    requires WellFormed(s) && TokenInv(s) && LiveInv(s) && s.sh.overtaken && Enabled(s, a) && !Wins(s, a)
    ensures WellFormed(Next(s, a))
    ensures !Next(s, a).sh.flagReset ==>
      Next(s, a).sh.overtaken && s.sh.ring.Queue() <= Next(s, a).sh.ring.Queue()
  {
    NextWellFormed(s, a);
    if a.Step? && s.sh.flagReset {
      ClosingIsFinal(s.sh, s.pcs[a.t], a.sendAccepted);
    } else if a.Step? {
      assert IsHolder(s.pcs[a.t]) ==> Some(s.pcs, IsHolder);
      ThreadHistory(s.sh, s.pcs[a.t], a.sendAccepted);
      OnlyHoldersTake(s.sh, s.pcs[a.t], a.sendAccepted);
    }
  }

  /** Until somebody wins the flag or the session is closed, stranded bytes stay at the front of the queue. */
  lemma {:induction false} StrandedBytesWait(s: State, trace: seq<Action>)
    requires Inv(s) && s.sh.overtaken && CanRun(s, trace) && NobodyWins(s, trace)
    ensures !Run(s, trace).sh.flagReset ==>
      Run(s, trace).sh.overtaken && s.sh.ring.Queue() <= Run(s, trace).sh.ring.Queue()
    decreases |trace|
  {
    if trace != [] {
      var next := Next(s, trace[0]);
      InvNext(s, trace[0]);
      OvertakenWaits(s, trace[0]);
      if next.sh.flagReset {
        ResetStays(next, trace[1..]);
      } else {
        StrandedBytesWait(next, trace[1..]);
      }
    }
  }

  lemma {:induction false} ResetStays(s: State, trace: seq<Action>)
    requires WellFormed(s) && s.sh.flagReset && CanRun(s, trace)
    ensures Run(s, trace).sh.flagReset
    decreases |trace|
  {
    if trace != [] {
      NextWellFormed(s, trace[0]);
      if trace[0].Step? {
        ClosingIsFinal(s.sh, s.pcs[trace[0].t], trace[0].sendAccepted);
      }
      ResetStays(Next(s, trace[0]), trace[1..]);
    }
  }

  lemma {:induction false} WonStaysAll(s: State, trace: seq<Action>)
    requires WellFormed(s) && CanRun(s, trace) && NobodyWins(s, trace)
    ensures Run(s, trace).sh.won == s.sh.won
    decreases |trace|
  {
    if trace != [] {
      NextWellFormed(s, trace[0]);
      if trace[0].Step? {
        ThreadHistory(s.sh, s.pcs[trace[0].t], trace[0].sendAccepted);
      }
      WonStaysAll(Next(s, trace[0]), trace[1..]);
    }
  }

  /** What the invariant says of a thread that won the flag for these bytes. */
  lemma WinnerHasThem(end: State, t: Tid, front: seq<Byte>)
    requires WellFormed(end) && WonInv(end) && !end.sh.flagReset
    requires t in end.pcs && front != [] && front <= end.sh.won
    ensures !end.pcs[t].PostEmptyRelease?
    ensures end.pcs[t].PostSubmit? ==>
      && InBounds(end.pcs[t].segs, |end.sh.ring.buf|)
      && front <= Gather(end.sh.ring.buf, end.pcs[t].segs)
  {
    assert WonOk(end.sh, end.pcs[t]);
  }

  /** Whoever wins the flag after bytes were stranded wins it for all of them. */
  lemma WonForThem(s: State, before: seq<Action>, win: Action)
    requires Inv(s) && s.sh.overtaken && CanRun(s, before) && NobodyWins(s, before)
    requires Enabled(Run(s, before), win) && Wins(Run(s, before), win)
    ensures var won := Next(Run(s, before), win);
      Inv(won) && (!won.sh.flagReset ==> s.sh.ring.Queue() != [] && s.sh.ring.Queue() <= won.sh.won)
  {
    InvRun(s, before);
    InvNext(Run(s, before), win);
    StrandedBytesWait(s, before);
    if s.sh.flagReset {
      ResetStays(s, before);
    }
  }

  /**
   The next PostSend to win the flag sends all the stranded bytes. From a state
   where bytes were overtaken, let nobody win for a while, then one thread win,
   then nobody else: unless the session was closed meanwhile, the winner cannot
   reach the empty release, and the segments it hands to WSASend begin with
   every byte that was stranded.
   */
  lemma NextWinnerSendsStrandedBytes(s: State, before: seq<Action>, win: Action, after: seq<Action>, t: Tid)
    requires Reachable(s) && s.sh.overtaken
    requires CanRun(s, before) && NobodyWins(s, before)
    requires Enabled(Run(s, before), win) && Wins(Run(s, before), win) && win.t == t
    requires WellFormed(Next(Run(s, before), win))
    requires CanRun(Next(Run(s, before), win), after) && NobodyWins(Next(Run(s, before), win), after)
    requires !Run(Next(Run(s, before), win), after).sh.flagReset
    ensures var end := Run(Next(Run(s, before), win), after);
      t in end.pcs ==>
        && !end.pcs[t].PostEmptyRelease?
        && (end.pcs[t].PostSubmit? ==>
              && InBounds(end.pcs[t].segs, |end.sh.ring.buf|)
              && s.sh.ring.Queue() <= Gather(end.sh.ring.buf, end.pcs[t].segs))
  {
    ReachableInv(s);
    WonForThem(s, before, win);
    var won := Next(Run(s, before), win);
    var end := Run(won, after);
    InvRun(won, after);
    WonStaysAll(won, after);
    if won.sh.flagReset {
      ResetStays(won, after);
    } else if t in end.pcs {
      WinnerHasThem(end, t, s.sh.ring.Queue());
    }
  }
}
