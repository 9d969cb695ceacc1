/**
 Centralized mode end to end: the byte streams of the sessions and the event
 queue together. The receive path of each session parses its stream one turn of
 the ParsePackets loop at a time, between any other actions of the server, and
 every packet it cuts becomes a RECEIVED event.
 */
module CentralStream {
  import opened Bytes
  import opened Framing
  import opened SessionId
  import opened Lifecycle
  import opened GameView
  import opened GameTheorems

  /** Where a session's receive path stands. */
  datatype Progress =
    | Waiting   // a receive is posted, or none has been asked for yet
    | Parsing   // inside the loop of ParsePackets
    | Refused   // 557: an invalid length was met

  /** The receive ring's content, and as history every byte that was received. */
  datatype Stream = Stream(received: seq<Byte>, rest: seq<Byte>, progress: Progress)

  datatype Central = Central(world: World, streams: map<Int64, Stream>)

  datatype CentralAction =
    | Game(a: WorldAction)                // any action of the server but the delivery of a packet
    | Arrive(i: nat, chunk: seq<Byte>)    // 437-455: a receive completes on slot i's session
    | Turn(i: nat)                        // 528-597: one turn of the loop on slot i's session

  /** CSession's receive ring is built with the default capacity and keeps one slot empty. */
  const RECV_ROOM: nat := 65535

  function StreamOf(c: Central, id: Int64): Stream {
    if id in c.streams then c.streams[id] else Stream([], [], Waiting)
  }

  function CentralStarted(maxClients: nat): Central {
    Central(World(Started(maxClients), map[]), map[])
  }

  ghost predicate CentralEnabled(c: Central, a: CentralAction) {
    var net := c.world.net;
    match a
    case Game(b) => !b.Deliver? && WorldEnabled(c.world, b)
    case Arrive(i, chunk) =>
      && i < |net.slots| && net.slots[i].id in net.published && net.slots[i].valid
      && StreamOf(c, net.slots[i].id).progress == Waiting
      && 1 <= |chunk| && |StreamOf(c, net.slots[i].id).rest| + |chunk| <= RECV_ROOM
    case Turn(i) =>
      && i < |net.slots| && net.slots[i].id in net.published
      && StreamOf(c, net.slots[i].id).progress == Parsing
  }

  /** What a turn of the loop does to the server, if anything. */
  function TurnAction(c: Central, i: nat): Option<WorldAction>
    requires i < |c.world.net.slots|
  {
    var rest := StreamOf(c, c.world.net.slots[i].id).rest;
    match Inspect(Centralized, rest)
    case NeedMore => None
    case Invalid => Some(Disconnect(i))
    case Complete(size) => Some(Deliver(i, rest[..size]))
  }

  /** What it does to the session's stream. */
  function Turned(s: Stream): Stream {
    match Inspect(Centralized, s.rest)
    case NeedMore => s.(progress := Waiting)
    case Invalid => s.(progress := Refused)
    case Complete(size) => s.(rest := s.rest[size..])
  }

  lemma TurnEnabled(c: Central, i: nat)
    requires CentralEnabled(c, Turn(i)) && TurnAction(c, i).Some?
    ensures WorldEnabled(c.world, TurnAction(c, i).value)
  {
    var rest := StreamOf(c, c.world.net.slots[i].id).rest;
    if Inspect(Centralized, rest).Complete? {
      FrameAlone(Centralized, rest);
    }
  }

  function CentralNext(c: Central, a: CentralAction): Central
    requires FreeInRange(c.world.net) && CentralEnabled(c, a)
  {
    match a
    case Game(b) => c.(world := WorldNext(c.world, b))
    case Arrive(i, chunk) =>
      var id := c.world.net.slots[i].id;
      var s := StreamOf(c, id);
      c.(streams := c.streams[id := Stream(s.received + chunk, s.rest + chunk, Parsing)])
    case Turn(i) =>
      var id := c.world.net.slots[i].id;
      var streams := c.streams[id := Turned(StreamOf(c, id))];
      match TurnAction(c, i)
      case None => Central(c.world, streams)
      case Some(b) =>
        TurnEnabled(c, i);
        Central(WorldNext(c.world, b), streams)
  }

  // ---------------------------------------------------------------- payloads

  /** What the RECEIVED events of one id carry, in order. */
  function Payloads(log: seq<Event>, id: Int64): seq<seq<Byte>> {
    if log == [] then []
    else
      var before, e := Payloads(log[..|log| - 1], id), log[|log| - 1];
      if e.Received? && e.id == id then before + [e.data] else before
  }

  lemma PayloadsOneMore(log: seq<Event>, e: Event, id: Int64)
    ensures Payloads(log + [e], id) ==
      if e.Received? && e.id == id then Payloads(log, id) + [e.data] else Payloads(log, id)
  {
    assert (log + [e])[..|log|] == log;
  }

  lemma DeliveredExactly(net: Net, i: nat, data: seq<Byte>)
    requires i < |net.slots|
    ensures Log(Delivered(net, i, data)) == Log(net) + [Received(net.slots[i].id, data)]
  {
    Reassociate(net.past, net.queue, [Received(net.slots[i].id, data)]);
  }

  lemma ClosedExactly(net: Net, i: nat)
    requires IdsInv(net) && SlotsInv(net) && LogInv(net)
    requires i < |net.slots| && net.slots[i].id in net.published
    ensures var id, after := net.slots[i].id, Closed(net, i);
      && Log(after) == Log(net) + (if IsLiveId(net, id) then [Disconnected(id)] else [])
      && !IsLiveId(after, id) && Disconnected(id) in Log(after)
      && |after.slots| == |net.slots| && after.slots[i].id == id && after.published == net.published
  {
    PublishedSlot(net, i);
    assert SlotOk(net, i);
    if net.slots[i].valid {
      ClosedLog(net, i);
    } else {
      EmptyRight(Log(net));
    }
  }

  /** What an action of the server appends to the log. */
  lemma WorldLog(w: World, a: WorldAction) returns (news: seq<Event>)
    requires WorldInv(w) && WorldEnabled(w, a)
    ensures Log(WorldNext(w, a).net) == Log(w.net) + news
    ensures if a.Deliver? then news == [Received(w.net.slots[a.i].id, a.data)]
            else news == [] || (|news| == 1 && !news[0].Received?)
  {
    var net := w.net;
    news := [];
    match a
    case Accept(bindOk) =>
      if net.free != [] && bindOk {
        AcceptedLog(net);
        news := [Connected(NextId(net))];
      } else if net.free != [] {
        RefusedLog(net);
      }
    case Disconnect(i) =>
      ClosedExactly(net, i);
      if IsLiveId(net, net.slots[i].id) { news := [Disconnected(net.slots[i].id)]; }
    case RequestDisconnect(id) =>
      if Find(net.slots, id).Some? {
        FindMeansCurrent(net, id);
        ClosedExactly(net, Find(net.slots, id).value);
        if IsLiveId(net, id) { news := [Disconnected(id)]; }
      }
    case Release => ReleasedInv(net);
    case Deliver(i, data) =>
      news := [Received(net.slots[i].id, data)];
      DeliveredExactly(net, i, data);
    case Dispatch => MovesToPast(net.past, net.queue);
    if news == [] { EmptyRight(Log(net)); }
  }

  // ---------------------------------------------------------------- the invariant

  /** What was received parses into what was announced, followed by what the ring still holds. */
  ghost predicate StreamOk(s: Stream, payloads: seq<seq<Byte>>) {
    var more := ParseAll(Centralized, s.rest);
    && ParseAll(Centralized, s.received) == Parse(payloads + more.frames, more.rest, more.bad)
    && (s.progress == Waiting ==> Inspect(Centralized, s.rest) == NeedMore)
    && (s.progress == Refused ==> Inspect(Centralized, s.rest) == Invalid)
  }

  ghost predicate CentralInv(c: Central) {
    && WorldReachable(c.world)
    && (forall id: Int64 :: StreamOk(StreamOf(c, id), Payloads(Log(c.world.net), id)))
    && (forall id: Int64 :: StreamOf(c, id).progress == Refused ==> Disconnected(id) in Log(c.world.net))
  }

  lemma {:induction false} WorldRunOneMore(w: World, trace: seq<WorldAction>, a: WorldAction)
    requires WorldCanRun(w, trace) && FreeInRange(WorldRun(w, trace).net) && WorldEnabled(WorldRun(w, trace), a)
    ensures WorldCanRun(w, trace + [a]) && WorldRun(w, trace + [a]) == WorldNext(WorldRun(w, trace), a)
    decreases |trace|
  {
    if trace == [] {
      assert trace + [a] == [a] && [a][1..] == [];
    } else {
      WorldRunOneMore(WorldNext(w, trace[0]), trace[1..], a);
      assert (trace + [a])[1..] == trace[1..] + [a];
    }
  }

  lemma WorldReachesNext(w: World, a: WorldAction)
    requires WorldReachable(w) && WorldEnabled(w, a)
    ensures WorldInv(w) && WorldReachable(WorldNext(w, a))
  {
    WorldReachableInv(w);
    var maxClients: nat, trace: seq<WorldAction> :|
      maxClients <= 65535 && WorldCanRun(World(Started(maxClients), map[]), trace) &&
      WorldRun(World(Started(maxClients), map[]), trace) == w;
    WorldRunOneMore(World(Started(maxClients), map[]), trace, a);
  }

  /** Bytes arrive at a session that has parsed all it can. */
  lemma ArriveStream(s: Stream, payloads: seq<seq<Byte>>, chunk: seq<Byte>)
    requires StreamOk(s, payloads) && s.progress == Waiting
    ensures StreamOk(Stream(s.received + chunk, s.rest + chunk, Parsing), payloads)
  {
    EmptyRight(payloads);
    ParseContinues(Centralized, s.received, chunk);
  }

  /** One turn of the loop takes the front packet over to the announced ones, or stops. */
  lemma TurnStream(s: Stream, payloads: seq<seq<Byte>>)
    requires StreamOk(s, payloads) && s.progress == Parsing
    ensures StreamOk(Turned(s), match Inspect(Centralized, s.rest)
                                case Complete(size) => payloads + [s.rest[..size]]
                                case _ => payloads)
  {
    match Inspect(Centralized, s.rest)
    case Complete(size) =>
      Reassociate(payloads, [s.rest[..size]], ParseAll(Centralized, s.rest[size..]).frames);
    case _ =>
  }

  lemma CentralGame(c: Central, b: WorldAction)
    requires CentralInv(c) && CentralEnabled(c, Game(b))
    ensures FreeInRange(c.world.net) && CentralInv(CentralNext(c, Game(b)))
  {
    WorldReachesNext(c.world, b);
    var n := CentralNext(c, Game(b));
    var news := WorldLog(c.world, b);
    forall id: Int64
      ensures StreamOk(StreamOf(n, id), Payloads(Log(n.world.net), id))
      ensures StreamOf(n, id).progress == Refused ==> Disconnected(id) in Log(n.world.net)
    {
      assert StreamOk(StreamOf(c, id), Payloads(Log(c.world.net), id));
      SilentNews(Log(c.world.net), news, id);
    }
  }

  lemma SilentNews(log: seq<Event>, news: seq<Event>, id: Int64)
    requires news == [] || (|news| == 1 && !news[0].Received?)
    ensures Payloads(log + news, id) == Payloads(log, id)
  {
    if news == [] {
      EmptyRight(log);
    } else {
      assert news == [news[0]];
      PayloadsOneMore(log, news[0], id);
    }
  }

  lemma CentralArrive(c: Central, i: nat, chunk: seq<Byte>)
    requires CentralInv(c) && CentralEnabled(c, Arrive(i, chunk))
    ensures FreeInRange(c.world.net) && CentralInv(CentralNext(c, Arrive(i, chunk)))
  {
    WorldReachableInv(c.world);
    var n := CentralNext(c, Arrive(i, chunk));
    var own := c.world.net.slots[i].id;
    forall id: Int64 ensures StreamOk(StreamOf(n, id), Payloads(Log(n.world.net), id)) {
      assert StreamOk(StreamOf(c, id), Payloads(Log(c.world.net), id));
      if id == own {
        ArriveStream(StreamOf(c, own), Payloads(Log(c.world.net), own), chunk);
      }
    }
  }

  /** The events a turn of the loop brings about for the id it parses. */
  function TurnEvents(c: Central, i: nat): seq<Event>
    requires i < |c.world.net.slots|
  {
    var own := c.world.net.slots[i].id;
    var rest := StreamOf(c, own).rest;
    match Inspect(Centralized, rest)
    case NeedMore => []
    case Invalid => if IsLiveId(c.world.net, own) then [Disconnected(own)] else []
    case Complete(size) => [Received(own, rest[..size])]
  }

  lemma TurnReaches(c: Central, i: nat)
    requires WorldReachable(c.world) && CentralEnabled(c, Turn(i))
    ensures FreeInRange(c.world.net) && WorldReachable(CentralNext(c, Turn(i)).world)
  {
    WorldReachableInv(c.world);
    if TurnAction(c, i).Some? {
      TurnEnabled(c, i);
      WorldReachesNext(c.world, TurnAction(c, i).value);
    }
  }

  /**
   A turn announces exactly the packet it cut, or that the session is gone if it
   met an invalid length and the session was still live; it ends no life
   otherwise, and after an invalid length the session is not live.
   */
  lemma TurnLog(c: Central, i: nat)
    requires WorldReachable(c.world) && CentralEnabled(c, Turn(i)) && FreeInRange(c.world.net)
    ensures var own, net := c.world.net.slots[i].id, CentralNext(c, Turn(i)).world.net;
      && Log(net) == Log(c.world.net) + TurnEvents(c, i)
      && |net.slots| == |c.world.net.slots| && net.slots[i].id == own && net.published == c.world.net.published
      && (if Inspect(Centralized, StreamOf(c, own).rest) == Invalid
          then Disconnected(own) in Log(net) && !IsLiveId(net, own)
          else net.slots == c.world.net.slots)
  {
    var net := c.world.net;
    var rest := StreamOf(c, net.slots[i].id).rest;
    match Inspect(Centralized, rest)
    case NeedMore => EmptyRight(Log(net));
    case Invalid =>
      WorldReachableInv(c.world);
      ClosedExactly(net, i);
    case Complete(size) => DeliveredExactly(net, i, rest[..size]);
  }

  lemma TurnKeepsStream(c: Central, i: nat, id: Int64)
    requires CentralInv(c) && CentralEnabled(c, Turn(i)) && FreeInRange(c.world.net)
    ensures var n := CentralNext(c, Turn(i));
      && StreamOk(StreamOf(n, id), Payloads(Log(n.world.net), id))
      && (StreamOf(n, id).progress == Refused ==> Disconnected(id) in Log(n.world.net))
  {
    var own, log := c.world.net.slots[i].id, Log(c.world.net);
    var n, news := CentralNext(c, Turn(i)), TurnEvents(c, i);
    assert n.streams == c.streams[own := Turned(StreamOf(c, own))];
    assert StreamOk(StreamOf(c, id), Payloads(log, id));
    TurnLog(c, i);
    if Inspect(Centralized, StreamOf(c, own).rest).Complete? {
      PayloadsOneMore(log, news[0], id);
    } else {
      SilentNews(log, news, id);
    }
    if id == own {
      TurnStream(StreamOf(c, own), Payloads(log, own));
    }
  }

  lemma CentralTurn(c: Central, i: nat)
    requires CentralInv(c) && CentralEnabled(c, Turn(i))
    ensures FreeInRange(c.world.net) && CentralInv(CentralNext(c, Turn(i)))
  {
    TurnReaches(c, i);
    var n := CentralNext(c, Turn(i));
    forall id: Int64
      ensures StreamOk(StreamOf(n, id), Payloads(Log(n.world.net), id))
      ensures StreamOf(n, id).progress == Refused ==> Disconnected(id) in Log(n.world.net)
    {
      TurnKeepsStream(c, i, id);
    }
  }

  lemma CentralInvNext(c: Central, a: CentralAction)
    requires CentralInv(c) && CentralEnabled(c, a)
    ensures FreeInRange(c.world.net) && CentralInv(CentralNext(c, a))
  {
    match a
    case Game(b) => CentralGame(c, b);
    case Arrive(i, chunk) => CentralArrive(c, i, chunk);
    case Turn(i) => CentralTurn(c, i);
  }

  // ---------------------------------------------------------------- whole runs

  ghost predicate CentralCanRun(c: Central, trace: seq<CentralAction>)
    decreases |trace|
  {
    trace == [] ||
    (FreeInRange(c.world.net) && CentralEnabled(c, trace[0]) && CentralCanRun(CentralNext(c, trace[0]), trace[1..]))
  }

  ghost function CentralRun(c: Central, trace: seq<CentralAction>): Central
    requires CentralCanRun(c, trace)
    decreases |trace|
  {
    if trace == [] then c else CentralRun(CentralNext(c, trace[0]), trace[1..])
  }

  /** Some run of a freshly started server ends here. */
  ghost predicate CentralReachable(c: Central) {
    exists maxClients: nat, trace: seq<CentralAction> ::
      maxClients <= 65535 && CentralCanRun(CentralStarted(maxClients), trace) &&
      CentralRun(CentralStarted(maxClients), trace) == c
  }

  lemma {:induction false} CentralInvRun(c: Central, trace: seq<CentralAction>)
    requires CentralInv(c) && CentralCanRun(c, trace)
    ensures CentralInv(CentralRun(c, trace))
    decreases |trace|
  {
    if trace != [] {
      CentralInvNext(c, trace[0]);
      CentralInvRun(CentralNext(c, trace[0]), trace[1..]);
    }
  }

  lemma CentralReachableInv(c: Central)
    requires CentralReachable(c)
    ensures CentralInv(c)
  {
    var maxClients: nat, trace: seq<CentralAction> :|
      maxClients <= 65535 && CentralCanRun(CentralStarted(maxClients), trace) &&
      CentralRun(CentralStarted(maxClients), trace) == c;
    var w := World(Started(maxClients), map[]);
    assert WorldCanRun(w, []) && WorldRun(w, []) == w;
    CentralInvRun(CentralStarted(maxClients), trace);
  }

  /**
   Received events are the stream: in every run of the whole server, what the
   RECEIVED events of an id carry, in order, followed by the frames still in its
   receive ring, are the frames of one parse of all bytes received for it. With
   the loop at rest they are exactly those frames; a session was refused only
   when its stream holds an invalid length, and never waits for more behind one.
   */
  lemma ReceivedEventsAreTheStream(c: Central, id: Int64)
    requires CentralReachable(c)
    ensures var s, payloads := StreamOf(c, id), Payloads(Log(c.world.net), id);
      var whole, more := ParseAll(Centralized, s.received), ParseAll(Centralized, s.rest);
      && payloads + more.frames == whole.frames
      && (s.progress != Parsing ==> payloads == whole.frames && whole.bad == (s.progress == Refused))
      && (s.progress == Waiting ==> s.rest == whole.rest && |s.rest| < RECV_ROOM)
  {
    CentralReachableInv(c);
    var s, payloads := StreamOf(c, id), Payloads(Log(c.world.net), id);
    assert StreamOk(s, payloads);
    EmptyRight(payloads);
  }

  /** A session whose stream held an invalid length is closed: announced as gone, and not live any more. */
  lemma RefusedIsClosed(c: Central, id: Int64)
    requires CentralReachable(c) && StreamOf(c, id).progress == Refused
    ensures Disconnected(id) in Log(c.world.net) && !IsLiveId(c.world.net, id)
  {
    CentralReachableInv(c);
    WorldReachableInv(c.world);
    DisconnectedWasConnected(Log(c.world.net), id);
  }

  /** Packets of one id as its events. */
  function Announced(id: Int64, frames: seq<seq<Byte>>): seq<Event> {
    if frames == [] then [] else [Received(id, frames[0])] + Announced(id, frames[1..])
  }

  lemma AnnouncedOneMore(log: seq<Event>, id: Int64, head: seq<Byte>, frames: seq<seq<Byte>>, tail: seq<Event>)
    ensures log + [Received(id, head)] + Announced(id, frames) + tail == log + Announced(id, [head] + frames) + tail
  {
    assert ([head] + frames)[1..] == frames;
    Reassociate(log, [Received(id, head)], Announced(id, frames));
  }

  /**
   ParsePackets comes to an end: from every state inside the loop, its turns
   alone lead out of it. They announce exactly the frames the ring holds, in
   order, and then, if an invalid length follows them and the session is still
   live, that it is gone; the loop then waits for more, or is refused for good.
   */
  lemma {:induction false} TurnsFinish(c: Central, i: nat) returns (trace: seq<CentralAction>)
    requires WorldReachable(c.world) && CentralEnabled(c, Turn(i))
    ensures CentralCanRun(c, trace) && forall k :: 0 <= k < |trace| ==> trace[k] == Turn(i)
    ensures var own, n := c.world.net.slots[i].id, CentralRun(c, trace);
      var p := ParseAll(Centralized, StreamOf(c, own).rest);
      && StreamOf(n, own).progress == (if p.bad then Refused else Waiting) && StreamOf(n, own).rest == p.rest
      && Log(n.world.net) == Log(c.world.net) + Announced(own, p.frames) +
           (if p.bad && IsLiveId(c.world.net, own) then [Disconnected(own)] else [])
    decreases |StreamOf(c, c.world.net.slots[i].id).rest|
  {
    var own, log := c.world.net.slots[i].id, Log(c.world.net);
    var rest := StreamOf(c, own).rest;
    TurnReaches(c, i);
    TurnLog(c, i);
    var n := CentralNext(c, Turn(i));
    if Inspect(Centralized, rest).Complete? {
      var size := Inspect(Centralized, rest).size;
      var more := TurnsFinish(n, i);
      trace := [Turn(i)] + more;
      assert trace[1..] == more;
      var p := ParseAll(Centralized, rest[size..]);
      AnnouncedOneMore(log, own, rest[..size], p.frames,
                       if p.bad && IsLiveId(n.world.net, own) then [Disconnected(own)] else []);
    } else {
      trace := [Turn(i)];
      assert trace[1..] == [];
      EmptyRight(log);
    }
  }

  /**
   Every run of the server with its byte streams is, seen from slots, events and
   players, one of the runs of Lifecycle.dfy: the deliveries it makes are of
   frames because the parser cut them.
   */
  lemma CentralRunsAreWorldRuns(c: Central)
    requires CentralReachable(c)
    ensures WorldReachable(c.world)
  {
    CentralReachableInv(c);
  }
}
