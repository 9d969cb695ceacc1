/**
 Echo mode end to end: the receive path of one session and the send protocol
 run together. The receive worker parses its ring and, for every packet it cuts,
 runs RequestSendMsg as one of the send protocol's threads, while completions
 and disconnects go on around it.
 */
module Echo {
  import opened Bytes
  import opened RingModel
  import opened Framing
  import opened SendProtocol
  import opened SendSafety
  import opened SendTheorems

  /** CSession's rings are built with the default capacity. */
  const DEFAULT_CAPACITY: nat := 65536

  /** Where the one receive of the session stands. */
  datatype RecvPc =
    | Posted                 // WSARecv is outstanding
    | Arrived(n: nat)        // 409: a worker took the completion of n bytes
    | Moving(n: nat)         // 448: MoveWritePtr
    | Parsing                // 528: head of the ParsePackets loop
    | Echoing(t: Tid)        // 581: inside RequestSendMsg, as thread t of the send protocol
    | ClosingBad(t: Tid)     // 557: inside DisconnectSessionInternal, as thread t, then on to PostRecv
    | Reposting              // 468: PostRecv
    | Closing(t: Tid)        // 392, 453, 508, 521: inside DisconnectSessionInternal, as thread t
    | Stopped

  /**
   The last three fields are history: what the kernel received, the packet that
   was cut and is not yet in the send ring, and whether received bytes were
   given up.
   */
  datatype EchoState = EchoState(
    send: State,
    recvRing: Ring,
    rpc: RecvPc,
    received: seq<Byte>,
    cut: seq<Byte>,
    dropped: bool
  )

  datatype EchoAction =
    | SendSide(a: Action)                    // any action of the send protocol but a new RequestSendMsg
    | Arrive(chunk: seq<Byte>)               // the kernel fills the posted segments and completes
    | RecvFails(t: Tid)                      // the receive completes with an error or zero bytes
    | RecvStep(t: Tid, accepted: bool)       // the receive worker's next step; t names the thread of a call it makes

  /** ProcessAccept (367) ends with the first PostRecv, on two empty rings. */
  function EchoInitial(sendRing: Ring, recvRing: Ring): EchoState {
    EchoState(Initial(sendRing), recvRing, Reposting, [], [], false)
  }

  ghost predicate EchoOk(e: EchoState) {
    WellFormed(e.send) && e.recvRing.Valid() && |e.recvRing.buf| == DEFAULT_CAPACITY
  }

  ghost predicate EchoEnabled(e: EchoState, a: EchoAction)
    requires EchoOk(e)
  {
    match a
    case SendSide(b) => !b.CallSend? && Enabled(e.send, b)
    case Arrive(chunk) => e.rpc == Posted && 1 <= |chunk| <= e.recvRing.FreeSize() && e.send.sh.socketOpen
    case RecvFails(t) => e.rpc == Posted && t !in e.send.pcs
    case RecvStep(t, _) =>
      && t !in e.send.pcs
      && e.rpc != Posted && e.rpc != Stopped
      && ((e.rpc.Echoing? || e.rpc.ClosingBad? || e.rpc.Closing?) ==>
            e.rpc.t in e.send.pcs && e.send.pcs[e.rpc.t] == Finished)
  }

  /** The receive worker calls into the send protocol and waits for the call to return. */
  function Call(e: EchoState, a: Action, rpc: RecvPc): EchoState
    requires EchoOk(e) && Enabled(e.send, a)
  {
    e.(send := Next(e.send, a), rpc := rpc)
  }

  function RecvNext(e: EchoState, t: Tid, accepted: bool): EchoState
    requires EchoOk(e) && EchoEnabled(e, RecvStep(t, accepted))
  {
    var valid := e.send.sh.valid;
    match e.rpc
    case Arrived(n) => if valid then e.(rpc := Moving(n)) else e.(rpc := Stopped, dropped := true)
    case Moving(n) =>
      if n <= e.recvRing.FreeSize() then e.(recvRing := e.recvRing.Advance(n), rpc := Parsing)
      else Call(e, CallDisconnect(t), Closing(t))
    case Parsing =>
      (match Inspect(EchoTest, e.recvRing.Queue())
       case NeedMore => e.(rpc := Reposting)
       case Invalid => Call(e, CallDisconnect(t), ClosingBad(t))
       case Complete(size) =>
         var packet := e.recvRing.Queue()[..size];
         Call(e, CallSend(t, packet), Echoing(t)).(recvRing := e.recvRing.Drop(size), cut := packet))
    case Echoing(_) => e.(rpc := Parsing, cut := [], dropped := e.dropped || e.cut != [])
    case ClosingBad(_) => e.(rpc := Reposting)
    case Closing(_) => e.(rpc := Stopped)
    case Reposting =>
      if !valid then e.(rpc := Stopped)
      else if e.recvRing.RecvSegments() == [] || !accepted then Call(e, CallDisconnect(t), Closing(t))
      else e.(rpc := Posted)
    case _ => e
  }

  /** The packet the receive worker is echoing gets into the send ring by this action. */
  predicate PutsCut(e: EchoState, a: Action)
    requires e.send.sh.ring.Valid()
  {
    a.Step? && e.rpc == Echoing(a.t) && a.t in e.send.pcs && e.send.pcs[a.t].ReqEnqueue? &&
    |e.send.pcs[a.t].data| <= e.send.sh.ring.FreeSize()
  }

  function EchoNext(e: EchoState, a: EchoAction): EchoState
    requires EchoOk(e) && EchoEnabled(e, a)
  {
    match a
    case SendSide(b) => e.(send := Next(e.send, b), cut := if PutsCut(e, b) then [] else e.cut)
    case Arrive(chunk) =>
      e.(recvRing := KernelFill(e.recvRing, chunk), rpc := Arrived(|chunk|), received := e.received + chunk)
    case RecvFails(t) => Call(e, CallDisconnect(t), Closing(t))
    case RecvStep(t, accepted) => RecvNext(e, t, accepted)
  }

  lemma RecvNextOk(e: EchoState, t: Tid, accepted: bool)
    requires EchoOk(e) && EchoEnabled(e, RecvStep(t, accepted))
    ensures EchoOk(RecvNext(e, t, accepted))
  {
    NextWellFormed(e.send, CallDisconnect(t));
    if e.rpc.Parsing? && Inspect(EchoTest, e.recvRing.Queue()).Complete? {
      NextWellFormed(e.send, CallSend(t, e.recvRing.Queue()[..Inspect(EchoTest, e.recvRing.Queue()).size]));
    }
  }

  lemma EchoNextOk(e: EchoState, a: EchoAction)
    requires EchoOk(e) && EchoEnabled(e, a)
    ensures EchoOk(EchoNext(e, a))
  {
    match a
    case SendSide(b) => NextWellFormed(e.send, b);
    case Arrive(_) =>
    case RecvFails(t) => NextWellFormed(e.send, CallDisconnect(t));
    case RecvStep(t, accepted) => RecvNextOk(e, t, accepted);
  }

  // ---------------------------------------------------------------- the invariant

  /** Bytes the kernel wrote behind the queue that MoveWritePtr has not taken in yet. */
  function Fresh(e: EchoState): seq<Byte>
    requires e.recvRing.Valid()
  {
    match e.rpc
    case Arrived(n) => if n <= |e.recvRing.buf| then Window(e.recvRing.buf, e.recvRing.writePos, n) else []
    case Moving(n) => if n <= |e.recvRing.buf| then Window(e.recvRing.buf, e.recvRing.writePos, n) else []
    case _ => []
  }

  /** Every received byte is in exactly one place, in order, until some are given up. */
  ghost predicate Balance(e: EchoState)
    requires EchoOk(e)
  {
    && e.send.sh.accepted <= e.received
    && (!e.dropped ==> e.received == e.send.sh.accepted + e.cut + e.recvRing.Queue() + Fresh(e))
  }

  /** Only the receive worker runs RequestSendMsg, and only for the packet it cut. */
  ghost predicate OneEchoer(e: EchoState) {
    forall u :: u in e.send.pcs && (e.send.pcs[u].ReqCheck? || e.send.pcs[u].ReqEnqueue?) ==>
      e.rpc == Echoing(u) && e.send.pcs[u].data == e.cut && (e.send.pcs[u].ReqEnqueue? ==> !e.dropped)
  }

  /** What is left to do with a packet that was cut and is not in the send ring. */
  predicate CutPending(pc: Pc, cut: seq<Byte>, valid: bool) {
    pc == ReqCheck(cut) || pc == ReqEnqueue(cut) || pc.DisExchange? || (!valid && (IsCloser(pc) || pc.Finished?))
  }

  ghost predicate PositionInv(e: EchoState)
    requires EchoOk(e)
  {
    var sh := e.send.sh;
    && (e.dropped ==> !sh.valid)
    && (!e.rpc.Echoing? ==> e.cut == [])
    && (match e.rpc
        case Posted => e.recvRing.FreeSize() >= 1 && Inspect(EchoTest, e.recvRing.Queue()) == NeedMore
        case Arrived(n) => 1 <= n <= e.recvRing.FreeSize()
        case Moving(n) => 1 <= n <= e.recvRing.FreeSize()
        case Reposting => sh.valid ==> Inspect(EchoTest, e.recvRing.Queue()) == NeedMore
        case Echoing(t) => t in e.send.pcs && (e.cut != [] ==> CutPending(e.send.pcs[t], e.cut, sh.valid))
        case ClosingBad(t) => t in e.send.pcs && (e.send.pcs[t].DisExchange? || !sh.valid)
        case Closing(t) => t in e.send.pcs && (e.send.pcs[t].DisExchange? || !sh.valid)
        case Stopped => !sh.valid
        case Parsing => true)
  }

  /** What holds of the receive worker and its packet. */
  ghost predicate WorkerInv(e: EchoState) {
    EchoOk(e) && Balance(e) && OneEchoer(e) && PositionInv(e)
  }

  ghost predicate EchoInv(e: EchoState) {
    Inv(e.send) && WorkerInv(e)
  }

  lemma EchoInvInitial(sendRing: Ring, recvRing: Ring)
    requires sendRing.Valid() && sendRing.Queue() == []
    requires recvRing.Valid() && recvRing.Queue() == [] && |recvRing.buf| == DEFAULT_CAPACITY
    ensures EchoInv(EchoInitial(sendRing, recvRing))
  {
    InvInitial(sendRing);
    SizesAddUp(recvRing);
  }

  /** What one step of a send thread means for the echoed packet. */
  ghost predicate Echoes(sh: Shared, pc: Pc, after: Shared, next: Pc)
    requires sh.ring.Valid()
  {
    && (after.valid ==> sh.valid)
    && after.accepted ==
       (if pc.ReqEnqueue? && |pc.data| <= sh.ring.FreeSize() then sh.accepted + pc.data else sh.accepted)
    && !next.ReqCheck?
    && (next.ReqEnqueue? ==> sh.valid && pc == ReqCheck(next.data))
    && (pc.DisExchange? ==> !after.valid && (IsCloser(next) || next.Finished?))
    && (IsCloser(pc) ==> IsCloser(next) || next.Finished?)
    && (pc.ReqEnqueue? && |pc.data| > sh.ring.FreeSize() ==> next == DisExchange)
    && (pc.ReqCheck? ==> next == if sh.valid then ReqEnqueue(pc.data) else Finished)
  }

  /** Steps of PostSend and ProcessSend are none of the receive worker's business. */
  lemma ElsewhereEchoes(sh: Shared, pc: Pc, accepted: bool)
    requires SharedOk(sh)
    requires !pc.ReqCheck? && !pc.ReqEnqueue? && !pc.DisExchange? && !IsCloser(pc)
    ensures var (after, next) := ThreadStep(sh, pc, accepted);
      after.valid == sh.valid && after.accepted == sh.accepted && !next.ReqCheck? && !next.ReqEnqueue?
  {
    match pc
    case PostSubmit(_) =>
    case DoneConsume(_) =>
    case DoneSubmit(_) =>
    case _ =>
  }

  lemma ThreadEchoes(sh: Shared, pc: Pc, accepted: bool)
    requires SharedOk(sh)
    ensures var (after, next) := ThreadStep(sh, pc, accepted);
      Echoes(sh, pc, after, next)
  {
    match pc
    case ReqCheck(_) =>
    case ReqEnqueue(_) =>
    case DisExchange =>
    case DisClose =>
    case DisReset =>
    case DisPush =>
    case _ => ElsewhereEchoes(sh, pc, accepted);
  }

  /** A step of any send thread, seen from the receive worker. */
  lemma EchoThreadMove(e: EchoState, n: EchoState, t: Tid, sh: Shared, pc: Pc)
    requires WorkerInv(e) && EchoOk(n)
    requires t in e.send.pcs && e.send.pcs[t] != Finished && Echoes(e.send.sh, e.send.pcs[t], sh, pc)
    requires n == e.(send := State(sh, e.send.pcs[t := pc]), cut := n.cut)
    requires n.cut == if PutsCut(e, Step(t, false)) then [] else e.cut
    ensures WorkerInv(n)
  {
    if PutsCut(e, Step(t, false)) {
      assert e.send.sh.accepted + e.cut + [] == e.send.sh.accepted + e.cut;
    }
  }

  lemma EchoThreadStep(e: EchoState, t: Tid, accepted: bool)
    requires WorkerInv(e) && EchoEnabled(e, SendSide(Step(t, accepted)))
    ensures WorkerInv(EchoNext(e, SendSide(Step(t, accepted))))
  {
    EchoNextOk(e, SendSide(Step(t, accepted)));
    ThreadEchoes(e.send.sh, e.send.pcs[t], accepted);
    var (sh, pc) := ThreadStep(e.send.sh, e.send.pcs[t], accepted);
    EchoThreadMove(e, EchoNext(e, SendSide(Step(t, accepted))), t, sh, pc);
  }

  /** A completion, a transmission or a new disconnect touches nothing the receive worker relies on. */
  lemma EchoOtherMove(e: EchoState, n: EchoState)
    requires WorkerInv(e) && EchoOk(n)
    requires n == e.(send := n.send)
    requires n.send.sh.valid == e.send.sh.valid && n.send.sh.accepted == e.send.sh.accepted
    requires forall u :: u in e.send.pcs ==> u in n.send.pcs && n.send.pcs[u] == e.send.pcs[u]
    requires forall u :: u in n.send.pcs && u !in e.send.pcs ==> !n.send.pcs[u].ReqCheck? && !n.send.pcs[u].ReqEnqueue?
    ensures WorkerInv(n)
  {
  }

  lemma OtherSendKeeps(s: State, a: Action)
    requires WellFormed(s) && Enabled(s, a) && !a.Step? && !a.CallSend?
    ensures var n := Next(s, a);
      && n.sh.valid == s.sh.valid && n.sh.accepted == s.sh.accepted
      && (forall u :: u in s.pcs ==> u in n.pcs && n.pcs[u] == s.pcs[u])
      && (forall u :: u in n.pcs && u !in s.pcs ==> !n.pcs[u].ReqCheck? && !n.pcs[u].ReqEnqueue?)
  {
    match a
    case Transmit(_, _) =>
    case Complete(_, _, _) =>
    case CallDisconnect(_) =>
  }

  lemma EchoOtherSend(e: EchoState, a: Action)
    requires WorkerInv(e) && EchoEnabled(e, SendSide(a)) && !a.Step?
    ensures WorkerInv(EchoNext(e, SendSide(a)))
  {
    EchoNextOk(e, SendSide(a));
    OtherSendKeeps(e.send, a);
    EchoOtherMove(e, EchoNext(e, SendSide(a)));
  }

  /** The filled segments spell the bytes that arrived, in order, behind the queue. */
  lemma FillShowsBytes(s: Ring, data: seq<Byte>)
    requires s.Valid() && |data| <= s.FreeSize()
    ensures Window(KernelFill(s, data).buf, s.writePos, |data|) == data
    ensures KernelFill(s, data).Queue() == s.Queue()
  {
    RecvSegmentsCoverFreeSpace(s);
    ScatterIsOverwrite(s, data);
    OverwriteKeepsAndSets(s.buf, s.writePos, data);
    ZeroCopyIsEnqueue(s, data);
  }

  lemma EchoArrive(e: EchoState, chunk: seq<Byte>)
    requires WorkerInv(e) && EchoEnabled(e, Arrive(chunk))
    ensures WorkerInv(EchoNext(e, Arrive(chunk)))
  {
    FillShowsBytes(e.recvRing, chunk);
    SizesAddUp(e.recvRing);
    var n := EchoNext(e, Arrive(chunk));
    assert Fresh(e) == [] && Fresh(n) == chunk;
    EmptyRight(e.send.sh.accepted + e.cut + e.recvRing.Queue());
  }

  /** The receive worker enters DisconnectSessionInternal. */
  lemma EchoCallsDisconnect(e: EchoState, t: Tid, rpc: RecvPc)
    requires WorkerInv(e) && t !in e.send.pcs && e.cut == [] && Fresh(e) == [] && !e.rpc.Echoing?
    requires rpc == ClosingBad(t) || rpc == Closing(t)
    ensures WorkerInv(Call(e, CallDisconnect(t), rpc))
  {
    NextWellFormed(e.send, CallDisconnect(t));
  }

  lemma EchoCutBalance(e: EchoState, n: EchoState, size: nat)
    requires EchoOk(e) && Balance(e) && EchoOk(n) && e.cut == [] && Fresh(e) == [] && Fresh(n) == []
    requires size <= e.recvRing.DataSize()
    requires n.recvRing == e.recvRing.Drop(size) && n.cut == e.recvRing.Queue()[..size]
    requires n.send.sh == e.send.sh && n.received == e.received && n.dropped == e.dropped
    ensures Balance(n)
  {
    DropQueue(e.recvRing, size);
    var head, q := e.send.sh.accepted, e.recvRing.Queue();
    assert q[..size] + q[size..] == q;
    Reassociate(head, q[..size], q[size..]);
    EmptyRight(head);
  }

  lemma EchoCutPosition(e: EchoState, n: EchoState, t: Tid)
    requires EchoOk(e) && OneEchoer(e) && PositionInv(e) && e.rpc.Parsing? && EchoOk(n)
    requires t !in e.send.pcs && n.rpc == Echoing(t) && n.dropped == e.dropped
    requires n.send == State(e.send.sh, e.send.pcs[t := ReqCheck(n.cut)])
    ensures OneEchoer(n) && PositionInv(n)
  {
  }

  /** The worker cuts a packet and enters RequestSendMsg with it. */
  lemma EchoCuts(e: EchoState, t: Tid, accepted: bool)
    requires WorkerInv(e) && EchoEnabled(e, RecvStep(t, accepted))
    requires e.rpc.Parsing? && Inspect(EchoTest, e.recvRing.Queue()).Complete?
    ensures WorkerInv(RecvNext(e, t, accepted))
  {
    var q := e.recvRing.Queue();
    var size := Inspect(EchoTest, q).size;
    EchoNextOk(e, RecvStep(t, accepted));
    var n := RecvNext(e, t, accepted);
    EchoCutBalance(e, n, size);
    EchoCutPosition(e, n, t);
  }

  lemma EchoMoves(e: EchoState, t: Tid, accepted: bool)
    requires WorkerInv(e) && EchoEnabled(e, RecvStep(t, accepted)) && e.rpc.Moving?
    ensures WorkerInv(RecvNext(e, t, accepted))
  {
    var n := e.rpc.n;
    SizesAddUp(e.recvRing);
    AdvanceQueue(e.recvRing, n);
    var head, w := e.send.sh.accepted + e.cut, Window(e.recvRing.buf, e.recvRing.writePos, n);
    Reassociate(head, e.recvRing.Queue(), w);
    EmptyRight(head + (e.recvRing.Queue() + w));
  }

  lemma EchoReposts(e: EchoState, t: Tid, accepted: bool)
    requires WorkerInv(e) && EchoEnabled(e, RecvStep(t, accepted)) && e.rpc.Reposting?
    ensures WorkerInv(RecvNext(e, t, accepted))
  {
    SizesAddUp(e.recvRing);
    RecvSegmentsCoverFreeSpace(e.recvRing);
    if e.send.sh.valid && !(e.recvRing.RecvSegments() != [] && accepted) {
      EchoCallsDisconnect(e, t, Closing(t));
    }
  }

  /** A call returns, or a completion comes too late and is dropped with the bytes it brought. */
  lemma EchoReturns(e: EchoState, t: Tid, accepted: bool)
    requires WorkerInv(e) && EchoEnabled(e, RecvStep(t, accepted))
    requires e.rpc.Arrived? || e.rpc.Echoing? || e.rpc.ClosingBad? || e.rpc.Closing?
    ensures WorkerInv(RecvNext(e, t, accepted))
  {
    assert e.rpc.Echoing? && e.cut == [] && !e.dropped ==> RecvNext(e, t, accepted) == e.(rpc := Parsing);
  }

  lemma EchoRecvStep(e: EchoState, t: Tid, accepted: bool)
    requires WorkerInv(e) && EchoEnabled(e, RecvStep(t, accepted))
    ensures WorkerInv(RecvNext(e, t, accepted))
  {
    match e.rpc
    case Moving(_) => EchoMoves(e, t, accepted);
    case Parsing =>
      if Inspect(EchoTest, e.recvRing.Queue()).Complete? {
        EchoCuts(e, t, accepted);
      } else if Inspect(EchoTest, e.recvRing.Queue()).Invalid? {
        EchoCallsDisconnect(e, t, ClosingBad(t));
      }
    case Reposting => EchoReposts(e, t, accepted);
    case _ => EchoReturns(e, t, accepted);
  }

  /** Whatever the worker does to the send side is an action of the send protocol. */
  lemma EchoSendSide(e: EchoState, a: EchoAction) returns (b: Action)
    requires EchoOk(e) && EchoEnabled(e, a)
    ensures EchoNext(e, a).send == e.send || (Enabled(e.send, b) && EchoNext(e, a).send == Next(e.send, b))
  {
    match a
    case SendSide(c) => b := c;
    case RecvStep(t, _) =>
      if e.rpc.Parsing? && Inspect(EchoTest, e.recvRing.Queue()).Complete? {
        b := CallSend(t, e.recvRing.Queue()[..Inspect(EchoTest, e.recvRing.Queue()).size]);
      } else {
        b := CallDisconnect(t);
      }
    case RecvFails(t) => b := CallDisconnect(t);
    case Arrive(_) => b := CallDisconnect(0);
  }

  lemma EchoSendInv(e: EchoState, a: EchoAction)
    requires EchoOk(e) && Inv(e.send) && EchoEnabled(e, a)
    ensures Inv(EchoNext(e, a).send)
  {
    var b := EchoSendSide(e, a);
    if EchoNext(e, a).send != e.send {
      InvNext(e.send, b);
    }
  }

  lemma EchoInvNext(e: EchoState, a: EchoAction)
    requires EchoInv(e) && EchoEnabled(e, a)
    ensures EchoInv(EchoNext(e, a))
  {
    EchoSendInv(e, a);
    match a
    case SendSide(b) =>
      if b.Step? { EchoThreadStep(e, b.t, b.sendAccepted); } else { EchoOtherSend(e, b); }
    case Arrive(chunk) => EchoArrive(e, chunk);
    case RecvFails(t) => EchoCallsDisconnect(e, t, Closing(t));
    case RecvStep(t, accepted) => EchoRecvStep(e, t, accepted);
  }

  // ---------------------------------------------------------------- whole runs

  ghost predicate EchoCanRun(e: EchoState, trace: seq<EchoAction>)
    requires EchoOk(e)
    decreases |trace|
  {
    trace == [] ||
    (EchoEnabled(e, trace[0]) && (EchoNextOk(e, trace[0]); EchoCanRun(EchoNext(e, trace[0]), trace[1..])))
  }

  ghost function EchoRun(e: EchoState, trace: seq<EchoAction>): (r: EchoState)
    requires EchoOk(e) && EchoCanRun(e, trace)
    ensures EchoOk(r)
    decreases |trace|
  {
    if trace == [] then e
    else
      EchoNextOk(e, trace[0]);
      EchoRun(EchoNext(e, trace[0]), trace[1..])
  }

  lemma {:induction false} EchoInvRun(e: EchoState, trace: seq<EchoAction>)
    requires EchoInv(e) && EchoCanRun(e, trace)
    ensures EchoInv(EchoRun(e, trace))
    decreases |trace|
  {
    if trace != [] {
      EchoInvNext(e, trace[0]);
      EchoInvRun(EchoNext(e, trace[0]), trace[1..]);
    }
  }

  /** Some run of a fresh echo session ends in this state. */
  ghost predicate EchoReachable(e: EchoState) {
    exists sendRing: Ring, recvRing: Ring, trace: seq<EchoAction> ::
      && sendRing.Valid() && sendRing.Queue() == []
      && recvRing.Valid() && recvRing.Queue() == [] && |recvRing.buf| == DEFAULT_CAPACITY
      && EchoCanRun(EchoInitial(sendRing, recvRing), trace)
      && EchoRun(EchoInitial(sendRing, recvRing), trace) == e
  }

  lemma EchoReachableInv(e: EchoState)
    requires EchoReachable(e)
    ensures EchoInv(e)
  {
    var sendRing: Ring, recvRing: Ring, trace: seq<EchoAction> :|
      && sendRing.Valid() && sendRing.Queue() == []
      && recvRing.Valid() && recvRing.Queue() == [] && |recvRing.buf| == DEFAULT_CAPACITY
      && EchoCanRun(EchoInitial(sendRing, recvRing), trace)
      && EchoRun(EchoInitial(sendRing, recvRing), trace) == e;
    EchoInvInitial(sendRing, recvRing);
    EchoInvRun(EchoInitial(sendRing, recvRing), trace);
  }

  /**
   Echo end to end: in every run, what was sent is a prefix of what was
   received, also across an overflow or a disconnect. While the session is
   valid every received byte is accounted for, in order: sent and consumed, in
   the send ring, cut but not yet enqueued, in the receive ring, or just written
   by the kernel.
   */
  lemma EchoEndToEnd(e: EchoState)
    requires EchoReachable(e)
    ensures EchoOk(e)
    ensures e.send.sh.wire <= e.received
    ensures e.send.sh.valid ==>
      e.send.sh.consumed + e.send.sh.ring.Queue() + e.cut + e.recvRing.Queue() + Fresh(e) == e.received
  {
    EchoReachableInv(e);
    assert e.send.sh.wire <= e.send.sh.accepted <= e.received;
  }

  /** The overflow branch at 449 and the full-ring branch at 504 are dead in every echo run. */
  lemma EchoReceiveNeverStalls(e: EchoState)
    requires EchoReachable(e)
    ensures EchoOk(e)
    ensures e.rpc.Moving? ==> e.rpc.n <= e.recvRing.FreeSize()
    ensures e.rpc.Reposting? && e.send.sh.valid ==>
      e.recvRing.DataSize() <= 65534 && e.recvRing.RecvSegments() != []
  {
    EchoReachableInv(e);
    SizesAddUp(e.recvRing);
    RecvSegmentsCoverFreeSpace(e.recvRing);
  }

  /**
   The receive worker of an open session never stops for good: until the session
   is closed a receive is outstanding or the worker is at work.
   */
  lemma EchoWorkerServes(e: EchoState)
    requires EchoReachable(e)
    ensures e.send.sh.valid ==> e.rpc != Stopped
    ensures e.send.sh.valid && (e.rpc.Closing? || e.rpc.ClosingBad?) ==>
      e.rpc.t in e.send.pcs && e.send.pcs[e.rpc.t] == DisExchange
  {
    EchoReachableInv(e);
  }

  lemma RestBalance(e: EchoState)
    requires EchoInv(e) && e.send.sh.valid && e.rpc == Posted && e.send.sh.inflight == []
    requires forall t :: t in e.send.pcs ==> e.send.pcs[t] == Finished
    ensures e.send.sh.wire + e.recvRing.Queue() == e.received <==> !e.send.sh.overtaken
  {
    SendAtRest(e.send);
    var sh, tail := e.send.sh, e.recvRing.Queue();
    EmptyRight(sh.accepted);
    EmptyRight(sh.accepted + tail);
    assert e.received == sh.accepted + tail;
    assert |e.received| == |sh.wire| + sh.ring.DataSize() + |tail|;
    EmptyRight(sh.wire);
  }

  /**
   At rest in a valid session, waiting for more input with no send thread left:
   what was sent and the tail in the receive ring make up everything received if
   and only if no Enqueue overtook an empty release. The tail never holds a
   complete packet.
   */
  lemma EchoAtRest(e: EchoState)
    requires EchoReachable(e) && e.send.sh.valid && e.rpc == Posted && e.send.sh.inflight == []
    requires forall t :: t in e.send.pcs ==> e.send.pcs[t] == Finished
    ensures EchoOk(e)
    ensures e.send.sh.wire + e.recvRing.Queue() == e.received <==> !e.send.sh.overtaken
    ensures Inspect(EchoTest, e.recvRing.Queue()) == NeedMore
  {
    EchoReachableInv(e);
    RestBalance(e);
  }
}
