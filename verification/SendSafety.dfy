/** What every interleaving of the send protocol keeps. */
module SendSafety {
  import opened SendProtocol

  // ---------------------------------------------------------------- kinds of threads

  /** Inside DisconnectSessionInternal, past its exchange. */
  predicate IsCloser(pc: Pc) {
    pc.DisClose? || pc.DisReset? || pc.DisPush?
  }

  /** Won the sending flag, in PostSend or as the worker of a completed send, and has not released it yet. */
  predicate IsHolder(pc: Pc) {
    pc.PostSnapshot? || pc.PostEmptyRelease? || pc.PostSubmit? ||
    IsCarrier(pc) || pc.DoneSnapshot? || pc.DoneSubmit? || pc.DoneRelease? || pc.FailRelease?
  }

  /** A worker that still has to drop the bytes of a completed send. */
  predicate IsCarrier(pc: Pc) {
    pc.DoneCheckWorker? || pc.DoneCheckSend? || pc.DoneConsume?
  }

  /** On its way to PostSend's exchange, or about to disconnect. */
  predicate IsRescuer(pc: Pc) {
    pc.PostCheck? || pc.PostExchange? || pc.DoneRecheck? || pc.DisExchange?
  }

  predicate IsDisconnecting(pc: Pc) {
    pc.DisExchange?
  }

  // ---------------------------------------------------------------- the invariants

  /** The socket is closed before the flag is reset, and one thread does both and the hand-over. */
  ghost predicate CloseInv(s: State) {
    var sh := s.sh;
    && (sh.flagReset ==> !sh.socketOpen)
    && (!sh.socketOpen ==> !sh.valid)
    && AtMostOne(s.pcs, IsCloser)
    && (forall t :: t in s.pcs ==> CloserOk(sh, s.pcs[t]))
    && (sh.closes != 0 ==> sh.closes == 1 && !sh.valid && sh.flagReset)
    && (!sh.valid ==> sh.closes == 1 || Some(s.pcs, IsCloser))
  }

  predicate CloserOk(sh: Shared, pc: Pc) {
    match pc
    case DisClose => !sh.valid && !sh.flagReset && sh.closes == 0
    case DisReset => !sh.socketOpen && !sh.flagReset && sh.closes == 0
    case DisPush => sh.flagReset && sh.closes == 0
    case _ => true
  }

  /** Until a disconnect resets the flag, at most one thread or outstanding send stands behind it. */
  ghost predicate TokenInv(s: State) {
    var sh := s.sh;
    !sh.flagReset ==>
      && AtMostOne(s.pcs, IsHolder)
      && (sh.inflight != [] ==> !Some(s.pcs, IsHolder))
      && (sh.inflight != [] || Some(s.pcs, IsHolder) || sh.completionLost ==> sh.sending)
      && (sh.completionLost ==> !Some(s.pcs, IsHolder))
  }

  /** At all times at most one send is outstanding or completed and not yet consumed. */
  ghost predicate CarrierInv(s: State) {
    && |s.sh.inflight| <= 1
    && AtMostOne(s.pcs, IsCarrier)
    && (s.sh.inflight != [] || s.sh.completionLost ==> !Some(s.pcs, IsCarrier))
    && (s.sh.completionLost ==> s.sh.inflight == [])
  }

  /** A move that leaves the closing fields alone and is not part of a disconnect. */
  lemma CloseQuiet(s: State, t: Tid, sh: Shared, pc: Pc)
    requires CloseInv(s)
    requires sh.valid == s.sh.valid && sh.socketOpen == s.sh.socketOpen
    requires sh.flagReset == s.sh.flagReset && sh.closes == s.sh.closes
    requires !IsCloser(pc) && (t in s.pcs ==> !IsCloser(s.pcs[t]))
    ensures CloseInv(State(sh, s.pcs[t := pc]))
  {
    MoveThread(s.pcs, t, pc, IsCloser);
  }

  /** The kernel transmits. */
  lemma CloseTransmit(s: State, i: nat, n: nat)
    requires WellFormed(s) && Enabled(s, Transmit(i, n)) && CloseInv(s)
    ensures CloseInv(State(Transmitted(s.sh, i, n), s.pcs))
  {
  }

  lemma CloseMove(s: State, t: Tid)
    requires WellFormed(s) && CloseInv(s) && t in s.pcs
    requires s.pcs[t].DisExchange? || IsCloser(s.pcs[t])
    ensures var (sh, pc) := ThreadStep(s.sh, s.pcs[t], false);
      CloseInv(State(sh, s.pcs[t := pc]))
  {
    MoveThread(s.pcs, t, ThreadStep(s.sh, s.pcs[t], false).1, IsCloser);
  }

  lemma CloseUntouched(sh: Shared, pc: Pc, accepted: bool)
    requires SharedOk(sh) && !pc.DisExchange? && !IsCloser(pc)
    ensures var (after, next) := ThreadStep(sh, pc, accepted);
      && after.valid == sh.valid && after.socketOpen == sh.socketOpen
      && after.flagReset == sh.flagReset && after.closes == sh.closes && !IsCloser(next)
  {
    match pc
    case ReqEnqueue(_) =>
    case PostSubmit(_) =>
    case DoneConsume(_) =>
    case DoneSubmit(_) =>
    case _ =>
  }

  lemma CloseStep(s: State, a: Action)
    requires WellFormed(s) && Enabled(s, a) && CloseInv(s)
    ensures CloseInv(Next(s, a))
  {
    match a
    case Step(t, accepted) =>
      if s.pcs[t].DisExchange? || IsCloser(s.pcs[t]) {
        CloseMove(s, t);
      } else {
        CloseUntouched(s.sh, s.pcs[t], accepted);
        var (sh, pc) := ThreadStep(s.sh, s.pcs[t], accepted);
        CloseQuiet(s, t, sh, pc);
      }
    case Transmit(i, n) => CloseTransmit(s, i, n);
    case _ =>
      var (sh, pc) := Outcome(s, a);
      CloseQuiet(s, a.t, sh, pc);
  }

  lemma HoldersAreOne(s: State, t: Tid)
    requires TokenInv(s) && !s.sh.flagReset && t in s.pcs && IsHolder(s.pcs[t])
    ensures Some(s.pcs, IsHolder) && s.sh.inflight == [] && s.sh.sending && !s.sh.completionLost
    ensures !IsCarrier(s.pcs[t]) ==> !Some(s.pcs, IsCarrier)
  {
    assert Some(s.pcs, IsHolder);
    if Some(s.pcs, IsCarrier) {
      var u :| u in s.pcs && IsCarrier(s.pcs[u]);
      assert IsHolder(s.pcs[u]);
    }
  }

  /** A thread that neither wins, releases nor passes on the flag. */
  lemma TokenQuiet(s: State, t: Tid, sh: Shared, pc: Pc)
    requires TokenInv(s)
    requires sh.flagReset == s.sh.flagReset && sh.sending == s.sh.sending
    requires sh.inflight == s.sh.inflight && sh.completionLost == s.sh.completionLost
    requires IsHolder(pc) ==> t in s.pcs && IsHolder(s.pcs[t])
    ensures TokenInv(State(sh, s.pcs[t := pc]))
  {
    MoveThread(s.pcs, t, pc, IsHolder);
    if t in s.pcs && IsHolder(s.pcs[t]) && !s.sh.flagReset {
      HoldersAreOne(s, t);
    }
  }

  /** A holder gives the flag up: it releases it, or leaves it to the kernel or to a disconnect. */
  lemma TokenGivenUp(s: State, t: Tid, sh: Shared, pc: Pc)
    requires TokenInv(s) && t in s.pcs && IsHolder(s.pcs[t]) && !IsHolder(pc)
    requires sh.flagReset == s.sh.flagReset
    requires !s.sh.flagReset && sh.inflight != [] ==> sh.sending
    requires !s.sh.flagReset && sh.completionLost ==> sh.sending
    ensures TokenInv(State(sh, s.pcs[t := pc]))
  {
    MoveThread(s.pcs, t, pc, IsHolder);
  }

  /** A holder keeps the flag, or gives it up with nothing left behind it unless it is still set. */
  lemma HolderStep(sh: Shared, pc: Pc, accepted: bool)
    requires SharedOk(sh) && IsHolder(pc)
    ensures var (after, next) := ThreadStep(sh, pc, accepted);
      && after.flagReset == sh.flagReset
      && (IsHolder(next) ==>
            after.sending == sh.sending && after.inflight == sh.inflight && after.completionLost == sh.completionLost)
      && (!IsHolder(next) && sh.sending && sh.inflight == [] && !sh.completionLost ==>
            after.sending || (after.inflight == [] && !after.completionLost))
  {
    match pc
    case PostSnapshot =>
    case PostEmptyRelease =>
    case PostSubmit(_) =>
    case DoneCheckWorker(_) =>
    case DoneCheckSend(_) =>
    case DoneConsume(_) =>
    case DoneSnapshot =>
    case DoneSubmit(_) =>
    case DoneRelease =>
    case FailRelease =>
  }

  lemma TokenHolderMove(s: State, t: Tid, accepted: bool)
    requires WellFormed(s) && CloseInv(s) && TokenInv(s) && t in s.pcs && IsHolder(s.pcs[t])
    ensures var (sh, pc) := ThreadStep(s.sh, s.pcs[t], accepted);
      TokenInv(State(sh, s.pcs[t := pc]))
  {
    var (sh, pc) := ThreadStep(s.sh, s.pcs[t], accepted);
    HolderStep(s.sh, s.pcs[t], accepted);
    if !s.sh.flagReset {
      HoldersAreOne(s, t);
    }
    if IsHolder(pc) {
      TokenQuiet(s, t, sh, pc);
    } else {
      TokenGivenUp(s, t, sh, pc);
    }
  }

  /** Who does not stand behind the flag leaves it alone, but for PostSend's exchange and the reset. */
  lemma BystanderStep(sh: Shared, pc: Pc, accepted: bool)
    requires SharedOk(sh) && !IsHolder(pc) && !pc.PostExchange? && !pc.DisReset?
    ensures var (after, next) := ThreadStep(sh, pc, accepted);
      && after.flagReset == sh.flagReset && after.sending == sh.sending
      && after.inflight == sh.inflight && after.completionLost == sh.completionLost && !IsHolder(next)
  {
    match pc
    case ReqCheck(_) =>
    case ReqEnqueue(_) =>
    case PostCheck =>
    case DoneRecheck =>
    case DisExchange =>
    case DisClose =>
    case DisPush =>
    case Finished =>
  }

  lemma TokenMove(s: State, t: Tid, accepted: bool)
    requires WellFormed(s) && CloseInv(s) && TokenInv(s) && t in s.pcs && !IsHolder(s.pcs[t])
    ensures var (sh, pc) := ThreadStep(s.sh, s.pcs[t], accepted);
      TokenInv(State(sh, s.pcs[t := pc]))
  {
    var (sh, pc) := ThreadStep(s.sh, s.pcs[t], accepted);
    if s.pcs[t].PostExchange? || s.pcs[t].DisReset? {
      MoveThread(s.pcs, t, pc, IsHolder);
    } else {
      BystanderStep(s.sh, s.pcs[t], accepted);
      TokenQuiet(s, t, sh, pc);
    }
  }

  lemma TokenStep(s: State, a: Action)
    requires WellFormed(s) && Enabled(s, a) && CloseInv(s) && TokenInv(s) && CarrierInv(s)
    ensures TokenInv(Next(s, a))
  {
    match a
    case Step(t, accepted) =>
      if IsHolder(s.pcs[t]) { TokenHolderMove(s, t, accepted); } else { TokenMove(s, t, accepted); }
    case Complete(i, t, failed) => MoveThread(s.pcs, t, Outcome(s, a).1, IsHolder);
    case Transmit(_, _) =>
    case _ => TokenQuiet(s, a.t, s.sh, Outcome(s, a).1);
  }

  /** A thread that neither takes over nor drops a completion. */
  lemma CarrierQuiet(s: State, t: Tid, sh: Shared, pc: Pc)
    requires CarrierInv(s)
    requires sh.inflight == s.sh.inflight && sh.completionLost == s.sh.completionLost
    requires IsCarrier(pc) ==> t in s.pcs && IsCarrier(s.pcs[t])
    ensures CarrierInv(State(sh, s.pcs[t := pc]))
  {
    MoveThread(s.pcs, t, pc, IsCarrier);
  }

  lemma CarrierUntouched(sh: Shared, pc: Pc, accepted: bool)
    requires SharedOk(sh) && !IsCarrier(pc) && !pc.PostSubmit? && !pc.DoneSubmit?
    ensures var (after, next) := ThreadStep(sh, pc, accepted);
      after.inflight == sh.inflight && after.completionLost == sh.completionLost && !IsCarrier(next)
  {
    if !IsHolder(pc) && !pc.PostExchange? && !pc.DisReset? {
      BystanderStep(sh, pc, accepted);
    }
  }

  /** A submission by whoever stands behind the flag. */
  lemma CarrierSubmit(s: State, t: Tid, accepted: bool)
    requires WellFormed(s) && CloseInv(s) && TokenInv(s) && CarrierInv(s)
    requires t in s.pcs && (s.pcs[t].PostSubmit? || s.pcs[t].DoneSubmit?)
    ensures var (sh, pc) := Submit(s.sh, s.pcs[t].segs, accepted);
      CarrierInv(State(sh, s.pcs[t := pc]))
  {
    MoveThread(s.pcs, t, Submit(s.sh, s.pcs[t].segs, accepted).1, IsCarrier);
    if !s.sh.flagReset {
      HoldersAreOne(s, t);
    }
  }

  lemma CarrierMove(s: State, t: Tid, accepted: bool)
    requires WellFormed(s) && CloseInv(s) && TokenInv(s) && CarrierInv(s) && t in s.pcs
    ensures var (sh, pc) := ThreadStep(s.sh, s.pcs[t], accepted);
      CarrierInv(State(sh, s.pcs[t := pc]))
  {
    var (sh, pc) := ThreadStep(s.sh, s.pcs[t], accepted);
    if s.pcs[t].PostSubmit? || s.pcs[t].DoneSubmit? {
      CarrierSubmit(s, t, accepted);
    } else if IsCarrier(s.pcs[t]) {
      assert Some(s.pcs, IsCarrier);
      MoveThread(s.pcs, t, pc, IsCarrier);
    } else {
      CarrierUntouched(s.sh, s.pcs[t], accepted);
      CarrierQuiet(s, t, sh, pc);
    }
  }

  lemma CarrierStep(s: State, a: Action)
    requires WellFormed(s) && Enabled(s, a) && CloseInv(s) && TokenInv(s) && CarrierInv(s)
    ensures CarrierInv(Next(s, a))
  {
    match a
    case Step(t, accepted) => CarrierMove(s, t, accepted);
    case Complete(i, t, failed) => MoveThread(s.pcs, t, Outcome(s, a).1, IsCarrier);
    case Transmit(_, _) =>
    case _ => CarrierQuiet(s, a.t, s.sh, Outcome(s, a).1);
  }
}
