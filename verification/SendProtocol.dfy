/**
 The send-once protocol of one session life as a transition system: any number
 of threads run RequestSendMsg, ProcessSend and DisconnectSessionInternal of
 MO_MiniGames_Server/IOCPServer.cpp at once, and the kernel transmits and
 completes. One atomic access, one locked ring call or one socket call is one
 step; `pcs` says where every thread stands.
 */
module SendProtocol {
  import opened Bytes
  import opened RingModel

  /** The next thing a thread does, with the source line it stands on. */
  datatype Pc =
    // RequestSendMsg
    | ReqCheck(data: seq<Byte>)     // 753: is the session valid
    | ReqEnqueue(data: seq<Byte>)   // 759: enqueue, all or nothing
    // PostSend
    | PostCheck                     // 680: is the session valid
    | PostExchange                  // 686: try to win the sending flag
    | PostSnapshot                  // 690: GetSendInfo
    | PostEmptyRelease              // 694: nothing to send, release the flag
    | PostSubmit(segs: seq<Segment>)   // 736: WSASend
    // WorkerThread and ProcessSend, for a completion of n bytes
    | DoneCheckWorker(n: nat)       // 409: is the session valid
    | DoneCheckSend(n: nat)         // 603: is the session valid
    | DoneConsume(n: nat)           // 609: drop what was sent
    | DoneSnapshot                  // 619: GetSendInfo
    | DoneSubmit(segs: seq<Segment>)   // 649: WSASend for the remainder
    | DoneRelease                   // 664: nothing left, release the flag
    | DoneRecheck                   // 668: did somebody enqueue meanwhile
    // a failed WSASend, 656 and 743
    | FailRelease
    // DisconnectSessionInternal
    | DisExchange                   // 802: try to win the right to close
    | DisClose                      // 806-810: closesocket
    | DisReset                      // 812: reset the sending flag
    | DisPush                       // 815-826: hand over to the accept thread and the game
    | Finished

  /** A WSASend the kernel still owns: the buffers it was given and how much of them is on the wire. */
  datatype Send = Send(segs: seq<Segment>, done: nat)

  type Tid = nat

  /**
   What the threads share: the session's fields and the kernel's outstanding
   sends. The fields from `accepted` on are history: they record the run, and
   no step reads them.
   */
  datatype Shared = Shared(
    valid: bool,
    sending: bool,
    socketOpen: bool,
    ring: Ring,
    inflight: seq<Send>,
    accepted: seq<Byte>,     // every enqueued message, in the order the ring lock was taken
    consumed: seq<Byte>,     // what ProcessSend dropped
    wire: seq<Byte>,         // what the kernel transmitted
    flagReset: bool,         // line 812 was executed
    completionLost: bool,    // a completion failed or was ignored, so its bytes are never consumed
    overtaken: bool,         // the last release of the flag was 694, with bytes in the ring
    won: seq<Byte>,          // the queue at the moment the flag was last won in PostSend
    closes: nat              // how often line 815 was executed
  )

  datatype State = State(sh: Shared, pcs: map<Tid, Pc>)

  function Initial(ring: Ring): State {
    State(Shared(true, false, true, ring, [], [], [], [], false, false, false, [], 0), map[])
  }

  /** What the environment or a thread does next. */
  datatype Action =
    | CallSend(t: Tid, data: seq<Byte>)           // some thread enters RequestSendMsg
    | CallDisconnect(t: Tid)                      // some thread enters DisconnectSessionInternal
    | Transmit(i: nat, n: nat)                    // the kernel reads n bytes of an outstanding send
    | Complete(i: nat, t: Tid, failed: bool)      // a worker takes the completion of an outstanding send
    | Step(t: Tid, sendAccepted: bool)            // a thread takes its next step; WSASend's answer if it is one

  function Submitted(pc: Pc): seq<Segment> {
    match pc
    case PostSubmit(segs) => segs
    case DoneSubmit(segs) => segs
    case _ => []
  }

  /** Every WSABUF points into the ring's buffer. */
  ghost predicate SharedOk(sh: Shared) {
    && sh.ring.Valid()
    && (forall i :: 0 <= i < |sh.inflight| ==> InBounds(sh.inflight[i].segs, |sh.ring.buf|))
  }

  ghost predicate WellFormed(s: State) {
    && SharedOk(s.sh)
    && (forall t :: t in s.pcs ==> InBounds(Submitted(s.pcs[t]), |s.sh.ring.buf|))
  }

  function Without<T>(q: seq<T>, i: nat): seq<T>
    requires i < |q|
  {
    q[..i] + q[i + 1..]
  }

  /** WSASend on the session's socket: it fails on a closed socket and may fail on an open one. */
  function Submit(sh: Shared, segs: seq<Segment>, accepted: bool): (Shared, Pc) {
    if sh.socketOpen && accepted then (sh.(inflight := sh.inflight + [Send(segs, 0)]), Finished)
    else (sh, FailRelease)
  }

  /** One step of a thread that stands at `pc`: what it does to the shared state and where it goes. */
  function ThreadStep(sh: Shared, pc: Pc, sendAccepted: bool): (Shared, Pc)
    requires SharedOk(sh)
  {
    match pc
    case ReqCheck(data) => (sh, if sh.valid then ReqEnqueue(data) else Finished)
    case ReqEnqueue(data) =>
      if |data| <= sh.ring.FreeSize() then
        (sh.(ring := sh.ring.Enqueue(data), accepted := sh.accepted + data), PostCheck)
      else (sh, DisExchange)
    case PostCheck => (sh, if sh.valid then PostExchange else Finished)
    case PostExchange =>
      if sh.sending then (sh, Finished)
      else (sh.(sending := true, overtaken := false, won := sh.ring.Queue()), PostSnapshot)
    case PostSnapshot =>
      var info := sh.ring.Snapshot();
      var segs := SendSegments(info);
      (sh, if info.dataSize == 0 || segs == [] then PostEmptyRelease else PostSubmit(segs))
    case PostEmptyRelease => (sh.(sending := false, overtaken := sh.ring.DataSize() > 0), Finished)
    case PostSubmit(segs) => Submit(sh, segs, sendAccepted)
    case DoneCheckWorker(n) =>
      if sh.valid then (sh, DoneCheckSend(n)) else (sh.(completionLost := true), Finished)
    case DoneCheckSend(n) =>
      if sh.valid then (sh, DoneConsume(n)) else (sh.(completionLost := true), Finished)
    case DoneConsume(n) =>
      if n <= sh.ring.DataSize() then
        (sh.(ring := sh.ring.Consume(n), consumed := sh.consumed + sh.ring.Queue()[..n]), DoneSnapshot)
      else (sh, DisExchange)
    case DoneSnapshot =>
      var info := sh.ring.Snapshot();
      var segs := SendSegments(info);
      (sh, if info.dataSize > 0 && segs != [] then DoneSubmit(segs) else DoneRelease)
    case DoneSubmit(segs) => Submit(sh, segs, sendAccepted)
    case DoneRelease => (sh.(sending := false), DoneRecheck)
    case DoneRecheck => (sh, if sh.ring.DataSize() > 0 then PostCheck else Finished)
    case FailRelease => (sh.(sending := false), DisExchange)
    case DisExchange => if sh.valid then (sh.(valid := false), DisClose) else (sh, Finished)
    case DisClose => (sh.(socketOpen := false), DisReset)
    case DisReset => (sh.(sending := false, flagReset := true), DisPush)
    case DisPush => (sh.(closes := sh.closes + 1), Finished)
    case Finished => (sh, Finished)
  }

  /** The kernel puts n more bytes of an outstanding send on the wire, reading them from the ring's buffer now. */
  function Transmitted(sh: Shared, i: nat, n: nat): Shared
    requires SharedOk(sh) && i < |sh.inflight| && sh.inflight[i].done + n <= Total(sh.inflight[i].segs)
  {
    var op := sh.inflight[i];
    sh.(inflight := sh.inflight[i := op.(done := op.done + n)],
        wire := sh.wire + Gather(sh.ring.buf, op.segs)[op.done..op.done + n])
  }

  /** A worker takes a completion: a failure or zero bytes means disconnect (line 385). */
  function Completed(sh: Shared, i: nat, failed: bool): (Shared, Pc)
    requires i < |sh.inflight|
  {
    var op := sh.inflight[i];
    var rest := sh.(inflight := Without(sh.inflight, i));
    if failed || op.done == 0 then (rest.(completionLost := true), DisExchange)
    else (rest, DoneCheckWorker(op.done))
  }

  ghost predicate Enabled(s: State, a: Action) {
    match a
    case CallSend(t, _) => t !in s.pcs
    case CallDisconnect(t) => t !in s.pcs
    case Transmit(i, n) =>
      i < |s.sh.inflight| && s.sh.socketOpen && s.sh.inflight[i].done + n <= Total(s.sh.inflight[i].segs)
    case Complete(i, t, _) => i < |s.sh.inflight| && t !in s.pcs
    case Step(t, _) => t in s.pcs && s.pcs[t] != Finished
  }

  /** Where an action leaves the shared state, and the thread it moved, if any. */
  function Outcome(s: State, a: Action): (Shared, Pc)
    requires WellFormed(s) && Enabled(s, a)
  {
    match a
    case CallSend(_, data) => (s.sh, ReqCheck(data))
    case CallDisconnect(_) => (s.sh, DisExchange)
    case Transmit(i, n) => (Transmitted(s.sh, i, n), Finished)
    case Complete(i, _, failed) => Completed(s.sh, i, failed)
    case Step(t, sendAccepted) => ThreadStep(s.sh, s.pcs[t], sendAccepted)
  }

  /** The state after one action. */
  function Next(s: State, a: Action): State
    requires WellFormed(s) && Enabled(s, a)
  {
    var (sh, pc) := Outcome(s, a);
    State(sh, if a.Transmit? then s.pcs else s.pcs[a.t := pc])
  }

  lemma ThreadStepShared(sh: Shared, pc: Pc, sendAccepted: bool)
    requires SharedOk(sh) && InBounds(Submitted(pc), |sh.ring.buf|)
    ensures var after := ThreadStep(sh, pc, sendAccepted).0;
      SharedOk(after) && |after.ring.buf| == |sh.ring.buf|
  {
    match pc
    case ReqEnqueue(_) =>
    case PostSubmit(_) =>
    case DoneConsume(_) =>
    case DoneSubmit(_) =>
    case _ =>
  }

  lemma ThreadStepSubmitted(sh: Shared, pc: Pc, sendAccepted: bool)
    requires SharedOk(sh)
    ensures InBounds(Submitted(ThreadStep(sh, pc, sendAccepted).1), |sh.ring.buf|)
  {
    if pc.PostSnapshot? || pc.DoneSnapshot? {
      SnapshotSpellsQueue(sh.ring);
    }
  }

  lemma ThreadStepOk(sh: Shared, pc: Pc, sendAccepted: bool)
    requires SharedOk(sh) && InBounds(Submitted(pc), |sh.ring.buf|)
    ensures var (after, next) := ThreadStep(sh, pc, sendAccepted);
      SharedOk(after) && |after.ring.buf| == |sh.ring.buf| && InBounds(Submitted(next), |sh.ring.buf|)
  {
    ThreadStepShared(sh, pc, sendAccepted);
    ThreadStepSubmitted(sh, pc, sendAccepted);
  }

  lemma OutcomeWellFormed(s: State, a: Action)
    requires WellFormed(s) && Enabled(s, a)
    ensures var (sh, pc) := Outcome(s, a);
      SharedOk(sh) && |sh.ring.buf| == |s.sh.ring.buf| && InBounds(Submitted(pc), |sh.ring.buf|)
  {
    if a.Step? {
      assert InBounds(Submitted(s.pcs[a.t]), |s.sh.ring.buf|);
      ThreadStepOk(s.sh, s.pcs[a.t], a.sendAccepted);
    }
  }

  lemma NextWellFormed(s: State, a: Action)
    requires WellFormed(s) && Enabled(s, a)
    ensures WellFormed(Next(s, a)) && |Next(s, a).sh.ring.buf| == |s.sh.ring.buf|
  {
    OutcomeWellFormed(s, a);
  }

  /** A trace each of whose actions is possible where it stands. */
  ghost predicate CanRun(s: State, trace: seq<Action>)
    requires WellFormed(s)
    decreases |trace|
  {
    trace == [] ||
    (Enabled(s, trace[0]) && (NextWellFormed(s, trace[0]); CanRun(Next(s, trace[0]), trace[1..])))
  }

  ghost function Run(s: State, trace: seq<Action>): (r: State)
    requires WellFormed(s) && CanRun(s, trace)
    ensures WellFormed(r)
    decreases |trace|
  {
    if trace == [] then s
    else
      NextWellFormed(s, trace[0]);
      Run(Next(s, trace[0]), trace[1..])
  }

  // ---------------------------------------------------------------- counting threads

  ghost predicate Some(pcs: map<Tid, Pc>, p: Pc -> bool) {
    exists t :: t in pcs && p(pcs[t])
  }

  ghost predicate AtMostOne(pcs: map<Tid, Pc>, p: Pc -> bool) {
    forall t, u :: t in pcs && u in pcs && p(pcs[t]) && p(pcs[u]) ==> t == u
  }

  /** Moving one thread: what is left of, and what is added to, the threads with a property. */
  lemma MoveThread(pcs: map<Tid, Pc>, t: Tid, pc: Pc, p: Pc -> bool)
    ensures Some(pcs[t := pc], p) ==> p(pc) || Some(pcs, p)
    ensures p(pc) ==> Some(pcs[t := pc], p)
    ensures Some(pcs, p) && (t !in pcs || !p(pcs[t])) ==> Some(pcs[t := pc], p)
    ensures AtMostOne(pcs, p) && t in pcs && p(pcs[t]) && !p(pc) ==> !Some(pcs[t := pc], p)
    ensures AtMostOne(pcs, p) && (p(pc) ==> (t in pcs && p(pcs[t])) || !Some(pcs, p)) ==> AtMostOne(pcs[t := pc], p)
  {
    var after := pcs[t := pc];
    assert p(pc) ==> p(after[t]);
    assert forall u :: u in pcs && u != t ==> after[u] == pcs[u];
  }

  lemma Again(pcs: map<Tid, Pc>, t: Tid, p: Pc, q: Pc)
    ensures pcs[t := p][t := q] == pcs[t := q]
  {
  }
}
