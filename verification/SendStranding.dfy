/**
 When queued bytes can be left without anybody to send them. The unconditional
 claim that this never happens is false: PostSend's empty branch (line 694)
 releases the flag without looking at the ring again. These invariants say that
 it is the only way.
 */
module SendStranding {
  import opened RingModel
  import opened SendProtocol
  import opened SendSafety
  import opened SendStream

  ghost predicate LiveInv(s: State)
    requires WellFormed(s)
  {
    var sh := s.sh;
    && (sh.valid && sh.sending ==>
          Some(s.pcs, IsHolder) || sh.inflight != [] || Some(s.pcs, IsDisconnecting))
    && (sh.valid && !sh.sending && sh.ring.DataSize() > 0 ==> sh.overtaken || Some(s.pcs, IsRescuer))
    && (!sh.flagReset && sh.overtaken ==> !sh.sending && sh.ring.DataSize() > 0)
  }

  /** What a thread that won the flag in PostSend still knows about the bytes it won it for. */
  ghost predicate WonOk(sh: Shared, pc: Pc)
    requires sh.ring.Valid()
  {
    match pc
    case PostSnapshot => sh.won <= sh.ring.Queue()
    case PostEmptyRelease => sh.won == []
    case PostSubmit(segs) => InBounds(segs, |sh.ring.buf|) && sh.won <= Gather(sh.ring.buf, segs)
    case _ => true
  }

  ghost predicate WonInv(s: State)
    requires WellFormed(s)
  {
    !s.sh.flagReset ==> forall t :: t in s.pcs ==> WonOk(s.sh, s.pcs[t])
  }

  // ---------------------------------------------------------------- LiveInv is kept

  /** A step that does not touch the flag or the ring and keeps its thread's part. */
  lemma LiveQuiet(s: State, t: Tid, sh: Shared, pc: Pc)
    requires WellFormed(s) && LiveInv(s) && WellFormed(State(sh, s.pcs[t := pc]))
    requires sh.valid ==> s.sh.valid
    requires sh.sending == s.sh.sending && sh.ring == s.sh.ring && sh.overtaken == s.sh.overtaken
    requires s.sh.inflight != [] ==> sh.inflight != []
    requires s.sh.flagReset ==> sh.flagReset
    requires sh.valid && t in s.pcs && IsHolder(s.pcs[t]) ==> IsHolder(pc) || sh.inflight != [] || IsDisconnecting(pc)
    requires sh.valid && t in s.pcs && IsDisconnecting(s.pcs[t]) ==> IsDisconnecting(pc)
    requires sh.valid && !sh.sending && sh.ring.DataSize() > 0 && t in s.pcs && IsRescuer(s.pcs[t]) ==> IsRescuer(pc)
    ensures LiveInv(State(sh, s.pcs[t := pc]))
  {
    MoveThread(s.pcs, t, pc, IsHolder);
    MoveThread(s.pcs, t, pc, IsDisconnecting);
    MoveThread(s.pcs, t, pc, IsRescuer);
  }

  /** The steps that write the flag, the ring or the validity. */
  predicate IsLoud(pc: Pc) {
    pc.ReqEnqueue? || pc.PostExchange? || pc.PostEmptyRelease? || pc.DoneConsume? || pc.DoneRelease? ||
    pc.FailRelease? || pc.DisExchange? || pc.DisReset?
  }

  lemma Arrives(pcs: map<Tid, Pc>, t: Tid, pc: Pc, p: Pc -> bool)
    requires p(pc)
    ensures Some(pcs[t := pc], p)
  {
    assert p(pcs[t := pc][t]);
  }

  /** A thread that held nothing has enqueued, or failed to, and is now on the way to send or to disconnect. */
  lemma LiveRescuer(s: State, t: Tid, sh: Shared, pc: Pc)
    requires WellFormed(s) && LiveInv(s) && WellFormed(State(sh, s.pcs[t := pc]))
    requires t in s.pcs && !IsHolder(s.pcs[t]) && !IsDisconnecting(s.pcs[t]) && IsRescuer(pc)
    requires sh == s.sh.(ring := sh.ring, accepted := sh.accepted)
    requires sh.ring.DataSize() >= s.sh.ring.DataSize()
    ensures LiveInv(State(sh, s.pcs[t := pc]))
  {
    MoveThread(s.pcs, t, pc, IsHolder);
    MoveThread(s.pcs, t, pc, IsDisconnecting);
    Arrives(s.pcs, t, pc, IsRescuer);
  }

  lemma LiveEnqueue(s: State, t: Tid, accepted: bool)
    requires WellFormed(s) && LiveInv(s) && t in s.pcs && s.pcs[t].ReqEnqueue?
    requires WellFormed(Next(s, Step(t, accepted)))
    ensures LiveInv(Next(s, Step(t, accepted)))
  {
    var (sh, pc) := ThreadStep(s.sh, s.pcs[t], accepted);
    if |s.pcs[t].data| <= s.sh.ring.FreeSize() {
      PutQueue(s.sh.ring, s.pcs[t].data);
    }
    LiveRescuer(s, t, sh, pc);
  }

  /** What a holder's loud step does to the flag and the record, and where it leads. */
  lemma LoudHolderStep(sh: Shared, pc: Pc, accepted: bool)
    requires SharedOk(sh) && IsLoud(pc) && IsHolder(pc)
    ensures var (after, next) := ThreadStep(sh, pc, accepted);
      && after.valid == sh.valid && after.flagReset == sh.flagReset
      && after.overtaken == (if pc.PostEmptyRelease? then sh.ring.DataSize() > 0 else sh.overtaken)
      && (if pc.PostEmptyRelease? then !after.sending && after.ring == sh.ring
          else if IsHolder(next) then after.sending == sh.sending
          else IsRescuer(next) && (after.sending ==> IsDisconnecting(next)))
  {
    match pc
    case PostEmptyRelease =>
    case DoneConsume(_) =>
    case DoneRelease =>
    case FailRelease =>
  }

  lemma LiveHolder(s: State, t: Tid, accepted: bool)
    requires WellFormed(s) && CloseInv(s) && TokenInv(s) && LiveInv(s)
    requires t in s.pcs && IsLoud(s.pcs[t]) && IsHolder(s.pcs[t])
    requires WellFormed(Next(s, Step(t, accepted)))
    ensures LiveInv(Next(s, Step(t, accepted)))
  {
    LoudHolderStep(s.sh, s.pcs[t], accepted);
    var (sh, pc) := ThreadStep(s.sh, s.pcs[t], accepted);
    if !s.sh.flagReset {
      HoldersAreOne(s, t);
    }
    LiveGivenUp(s, t, sh, pc);
  }

  lemma LiveGivenUp(s: State, t: Tid, sh: Shared, pc: Pc)
    requires WellFormed(s) && WellFormed(State(sh, s.pcs[t := pc]))
    requires sh.flagReset == s.sh.flagReset && (sh.flagReset ==> !sh.valid)
    requires !s.sh.flagReset ==> s.sh.sending && !s.sh.overtaken
    requires !s.sh.flagReset ==>
      if sh.sending then (IsHolder(pc) || IsDisconnecting(pc)) && !sh.overtaken
      else (sh.overtaken <==> sh.ring.DataSize() > 0) || (IsRescuer(pc) && !sh.overtaken)
    ensures LiveInv(State(sh, s.pcs[t := pc]))
  {
    if IsRescuer(pc) {
      Arrives(s.pcs, t, pc, IsRescuer);
    }
    if IsDisconnecting(pc) {
      Arrives(s.pcs, t, pc, IsDisconnecting);
    } else if IsHolder(pc) {
      Arrives(s.pcs, t, pc, IsHolder);
    }
  }

  lemma LiveExchange(s: State, t: Tid, accepted: bool)
    requires WellFormed(s) && LiveInv(s) && t in s.pcs && s.pcs[t].PostExchange?
    requires WellFormed(Next(s, Step(t, accepted)))
    ensures LiveInv(Next(s, Step(t, accepted)))
  {
    var pc := ThreadStep(s.sh, s.pcs[t], accepted).1;
    MoveThread(s.pcs, t, pc, IsHolder);
    MoveThread(s.pcs, t, pc, IsDisconnecting);
  }

  lemma LiveClose(s: State, t: Tid, accepted: bool)
    requires WellFormed(s) && CloseInv(s) && LiveInv(s)
    requires t in s.pcs && (s.pcs[t].DisExchange? || s.pcs[t].DisReset?)
    requires WellFormed(Next(s, Step(t, accepted)))
    ensures LiveInv(Next(s, Step(t, accepted)))
  {
  }

  lemma LiveUntouched(sh: Shared, pc: Pc, accepted: bool)
    requires SharedOk(sh) && !IsLoud(pc)
    ensures var after := ThreadStep(sh, pc, accepted).0;
      && after.valid == sh.valid && after.sending == sh.sending && after.ring == sh.ring
      && after.overtaken == sh.overtaken && after.flagReset == sh.flagReset
      && (sh.inflight != [] ==> after.inflight != [])
  {
    match pc
    case ReqEnqueue(_) =>
    case DoneConsume(_) =>
    case PostSubmit(_) =>
    case DoneSubmit(_) =>
    case _ =>
  }

  lemma LiveThreadStays(sh: Shared, pc: Pc, accepted: bool)
    requires SharedOk(sh) && !IsLoud(pc)
    ensures var (after, next) := ThreadStep(sh, pc, accepted);
      && (sh.valid && IsHolder(pc) ==> IsHolder(next) || after.inflight != [])
      && (sh.valid && sh.ring.DataSize() > 0 && IsRescuer(pc) ==> IsRescuer(next))
  {
  }

  lemma LiveThread(s: State, t: Tid, accepted: bool)
    requires WellFormed(s) && Enabled(s, Step(t, accepted)) && CloseInv(s) && TokenInv(s) && LiveInv(s)
    requires WellFormed(Next(s, Step(t, accepted)))
    ensures LiveInv(Next(s, Step(t, accepted)))
  {
    if !IsLoud(s.pcs[t]) {
      LiveUntouched(s.sh, s.pcs[t], accepted);
      LiveThreadStays(s.sh, s.pcs[t], accepted);
      var (sh, pc) := ThreadStep(s.sh, s.pcs[t], accepted);
      LiveQuiet(s, t, sh, pc);
    } else if s.pcs[t].ReqEnqueue? {
      LiveEnqueue(s, t, accepted);
    } else if IsHolder(s.pcs[t]) {
      LiveHolder(s, t, accepted);
    } else if s.pcs[t].PostExchange? {
      LiveExchange(s, t, accepted);
    } else {
      LiveClose(s, t, accepted);
    }
  }

  lemma LiveStep(s: State, a: Action)
    requires WellFormed(s) && Enabled(s, a) && CloseInv(s) && TokenInv(s) && CarrierInv(s) && LiveInv(s)
    requires WellFormed(Next(s, a))
    ensures LiveInv(Next(s, a))
  {
    match a
    case Transmit(i, n) =>
    case Complete(i, t, failed) =>
      var pc := Outcome(s, a).1;
      MoveThread(s.pcs, t, pc, IsHolder);
      MoveThread(s.pcs, t, pc, IsDisconnecting);
      MoveThread(s.pcs, t, pc, IsRescuer);
    case CallSend(t, data) => LiveQuiet(s, t, s.sh, ReqCheck(data));
    case CallDisconnect(t) => LiveQuiet(s, t, s.sh, DisExchange);
    case Step(t, accepted) => LiveThread(s, t, accepted);
  }

  // ---------------------------------------------------------------- WonInv is kept

  /** A step that leaves the ring and the record of the win alone. */
  lemma WonQuiet(s: State, t: Tid, sh: Shared, pc: Pc)
    requires WellFormed(s) && WonInv(s) && WellFormed(State(sh, s.pcs[t := pc]))
    requires sh.ring == s.sh.ring && sh.won == s.sh.won
    requires s.sh.flagReset ==> sh.flagReset
    requires !s.sh.flagReset ==> WonOk(sh, pc)
    ensures WonInv(State(sh, s.pcs[t := pc]))
  {
    var pcs := s.pcs[t := pc];
    if !sh.flagReset {
      forall u | u in pcs ensures WonOk(sh, pcs[u]) {
        if u != t { assert WonOk(s.sh, s.pcs[u]); }
      }
    }
  }

  lemma WonEnqueue(s: State, t: Tid)
    requires WellFormed(s) && DataInv(s) && WonInv(s) && t in s.pcs && s.pcs[t].ReqEnqueue?
    requires |s.pcs[t].data| <= s.sh.ring.FreeSize()
    ensures WellFormed(Next(s, Step(t, false))) && WonInv(Next(s, Step(t, false)))
  {
    NextWellFormed(s, Step(t, false));
    var data := s.pcs[t].data;
    var after := Next(s, Step(t, false));
    PutQueue(s.sh.ring, data);
    if !s.sh.flagReset {
      forall u | u in after.pcs ensures WonOk(after.sh, after.pcs[u]) {
        if u != t {
          assert WonOk(s.sh, s.pcs[u]) && DataOk(s.sh, s.pcs[u]);
          if s.pcs[u].PostSubmit? {
            SpellsPut(s.sh.ring, s.pcs[u].segs, data);
            PutKeepsSegments(s.sh.ring, s.pcs[u].segs, data);
          }
        }
      }
    }
  }

  lemma WonAlone(s: State, t: Tid, sh: Shared, pc: Pc)
    requires WellFormed(s) && TokenInv(s) && WellFormed(State(sh, s.pcs[t := pc]))
    requires !s.sh.flagReset ==> forall u :: u in s.pcs && u != t ==> !IsHolder(s.pcs[u])
    requires s.sh.flagReset ==> sh.flagReset
    requires WonOk(sh, pc)
    ensures WonInv(State(sh, s.pcs[t := pc]))
  {
    var pcs := s.pcs[t := pc];
    if !sh.flagReset {
      forall u | u in pcs ensures WonOk(sh, pcs[u]) {
        if u != t { assert !IsHolder(s.pcs[u]); }
      }
    }
  }

  lemma NobodyElseHolds(s: State, t: Tid)
    requires TokenInv(s) && !s.sh.flagReset && t in s.pcs
    requires IsHolder(s.pcs[t]) || !s.sh.sending
    ensures forall u :: u in s.pcs && u != t ==> !IsHolder(s.pcs[u])
  {
    forall u | u in s.pcs && u != t ensures !IsHolder(s.pcs[u]) {
      if IsHolder(s.pcs[u]) {
        HoldersAreOne(s, u);
      }
    }
  }

  /** The steps that change the queue or the record of the win. */
  predicate IsWonRelevant(sh: Shared, pc: Pc)
    requires sh.ring.Valid()
  {
    (pc.ReqEnqueue? && |pc.data| <= sh.ring.FreeSize()) || pc.DoneConsume? || (pc.PostExchange? && !sh.sending)
  }

  lemma WonUntouched(sh: Shared, pc: Pc, accepted: bool)
    requires SharedOk(sh) && !IsWonRelevant(sh, pc)
    ensures var (after, next) := ThreadStep(sh, pc, accepted);
      && after.ring == sh.ring && after.won == sh.won && (sh.flagReset ==> after.flagReset)
      && (WonOk(sh, pc) ==> WonOk(after, next))
  {
    if pc.PostSnapshot? {
      SnapshotSpellsQueue(sh.ring);
    }
  }

  lemma WonThread(s: State, t: Tid, accepted: bool)
    requires WellFormed(s) && Enabled(s, Step(t, accepted)) && TokenInv(s) && DataInv(s) && WonInv(s)
    requires WellFormed(Next(s, Step(t, accepted)))
    ensures WonInv(Next(s, Step(t, accepted)))
  {
    var (sh, pc) := ThreadStep(s.sh, s.pcs[t], accepted);
    if !IsWonRelevant(s.sh, s.pcs[t]) {
      WonUntouched(s.sh, s.pcs[t], accepted);
      WonQuiet(s, t, sh, pc);
    } else if s.pcs[t].ReqEnqueue? {
      WonEnqueue(s, t);
    } else {
      if !s.sh.flagReset {
        NobodyElseHolds(s, t);
      }
      WonAlone(s, t, sh, pc);
    }
  }

  lemma WonStep(s: State, a: Action)
    requires WellFormed(s) && Enabled(s, a) && TokenInv(s) && DataInv(s) && WonInv(s)
    requires WellFormed(Next(s, a))
    ensures WonInv(Next(s, a))
  {
    match a
    case Step(t, accepted) => WonThread(s, t, accepted);
    case Transmit(i, n) =>
      if !s.sh.flagReset {
        forall u | u in s.pcs ensures WonOk(Next(s, a).sh, s.pcs[u]) {
          assert WonOk(s.sh, s.pcs[u]);
        }
      }
    case _ =>
      var (sh, pc) := Outcome(s, a);
      WonQuiet(s, a.t, sh, pc);
  }
}
