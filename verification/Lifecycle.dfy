/**
 The session slots of the network layer and what the game layer sees of them:
 the free-index queue, the stack of sessions waiting to be released, the ids,
 the event queue and the player map. Server.dfy holds the code; this module
 says what each operation does to the whole state and proves what every run of
 them keeps.
 */
module Lifecycle {
  import opened Bytes
  import opened Framing
  import opened SessionId

  datatype Option<T> = None | Some(value: T)

  /** The fields of a CSession that decide its life. */
  datatype Slot = Slot(id: Int64, valid: bool, socketOpen: bool)

  datatype Event =
    | Connected(id: Int64)
    | Disconnected(id: Int64)
    | Received(id: Int64, data: seq<Byte>)

  /** CPlayer, as far as the dispatcher looks at it. */
  datatype Player = Player(sessionId: Int64)

  /** The last three fields are history: dispatched events, ids given out, ids announced to the game. */
  datatype Net = Net(
    slots: seq<Slot>,
    free: seq<nat>,          // _availableIndices, front first
    pending: seq<Int64>,     // _pendingDisconStack, top last
    counter: Int64,
    queue: seq<Event>,
    past: seq<Event>,
    issued: seq<Int64>,
    published: set<Int64>
  )

  function Started(maxClients: nat): Net {
    Net(seq(maxClients, _ => Slot(0, true, false)), seq(maxClients, i => i), [], 1, [], [], [], {})
  }

  lemma StartedIs(net: Net, maxClients: nat)
    requires |net.slots| == |net.free| == maxClients
    requires forall i :: 0 <= i < maxClients ==> net.slots[i] == Slot(0, true, false) && net.free[i] == i
    requires net.pending == [] && net.counter == 1
    requires net.queue == [] && net.past == [] && net.issued == [] && net.published == {}
    ensures net == Started(maxClients)
  {
    assert net.slots == Started(maxClients).slots && net.free == Started(maxClients).free;
  }

  /** The index of the slot whose session carries this id now: the index bits pick it, the counter bits must agree. */
  function Find(slots: seq<Slot>, id: Int64): (i: Option<nat>)
    ensures i.Some? ==> i.value == ExtractIndex(id) < |slots|
  {
    var index := ExtractIndex(id);
    if index >= |slots| then None
    else if ExtractUniqueId(slots[index].id) == ExtractUniqueId(id) then Some(index)
    else None
  }

  /** Every index in the free queue names a slot, and an index fits 16 bits. */
  predicate FreeInRange(net: Net) {
    |net.slots| <= 65535 && forall k :: 0 <= k < |net.free| ==> net.free[k] < |net.slots|
  }

  /** The id the next accepted session gets. */
  function NextId(net: Net): Int64
    requires FreeInRange(net) && net.free != []
  {
    MakeSessionId(net.free[0], net.counter % TWO48)
  }

  /** The first half of ProcessAccept: take the front index and start a new life in its slot. */
  function Begun(net: Net): Net
    requires FreeInRange(net) && net.free != [] && net.counter < TWO63 - 1
  {
    net.(slots := net.slots[net.free[0] := Slot(NextId(net), true, true)],
         free := net.free[1..], counter := net.counter + 1, issued := net.issued + [NextId(net)])
  }

  /** Close the socket of slot i and put its index at the back of the free queue. */
  function GivenBack(net: Net, i: nat): Net
    requires i < |net.slots|
  {
    net.(slots := net.slots[i := net.slots[i].(socketOpen := false)], free := net.free + [i])
  }

  /** ProcessAccept: begin a life, and publish it if the socket could be bound. */
  function Accepted(net: Net, bindOk: bool): Net
    requires FreeInRange(net) && net.counter < TWO63 - 1
  {
    if net.free == [] then net
    else if bindOk then
      Begun(net).(queue := net.queue + [Connected(NextId(net))], published := net.published + {NextId(net)})
    else GivenBack(Begun(net), net.free[0])
  }

  /** DisconnectSessionInternal on the session in slot i. */
  function Closed(net: Net, i: nat): Net
    requires i < |net.slots|
  {
    var slot := net.slots[i];
    if !slot.valid then net
    else net.(slots := net.slots[i := Slot(slot.id, false, false)],
              pending := net.pending + [slot.id],
              queue := net.queue + [Disconnected(slot.id)])
  }

  /** RequestDisconnectSession. */
  function ClosedById(net: Net, id: Int64): Net {
    match Find(net.slots, id)
    case Some(i) => Closed(net, i)
    case None => net
  }

  /** One turn of ReleaseSession's loop: pop the top of the stack and give its index back if its slot still has it. */
  function ReleasedTop(net: Net): Net
    requires net.pending != []
  {
    var id := net.pending[|net.pending| - 1];
    var popped := net.(pending := net.pending[..|net.pending| - 1]);
    match Find(net.slots, id)
    case Some(i) => GivenBack(popped, i)
    case None => popped
  }

  /** ReleaseSession. */
  function Released(net: Net): Net
    decreases |net.pending|
  {
    if net.pending == [] then net else Released(ReleasedTop(net))
  }

  /** A packet is parsed on slot i's session. */
  function Delivered(net: Net, i: nat, data: seq<Byte>): Net
    requires i < |net.slots|
  {
    net.(queue := net.queue + [Received(net.slots[i].id, data)])
  }

  // ---------------------------------------------------------------- the game layer

  datatype Outcome = Added | Removed | UnknownPlayer | TooShort | SizeMismatch | Handled

  /** What one event does to the player map, and which branch of the dispatcher it takes. */
  function Dispatched(players: map<Int64, Player>, e: Event): (map<Int64, Player>, Outcome) {
    match e
    case Connected(id) => (players[id := Player(id)], Added)
    case Disconnected(id) => if id in players then (players - {id}, Removed) else (players, UnknownPlayer)
    case Received(id, data) =>
      (players,
       if id !in players then UnknownPlayer
       else if |data| < HEADER_SIZE then TooShort
       else if SizeField(data) != |data| then SizeMismatch
       else Handled)
  }

  datatype World = World(net: Net, players: map<Int64, Player>)

  /** TryPop and one turn of the dispatch loop. */
  function DispatchedOne(w: World): World
    requires w.net.queue != []
  {
    var e := w.net.queue[0];
    World(w.net.(queue := w.net.queue[1..], past := w.net.past + [e]), Dispatched(w.players, e).0)
  }

  /** The inner loop of GameLogicThread: dispatch until the queue is empty. */
  function DispatchedAll(w: World): World
    decreases |w.net.queue|
  {
    if w.net.queue == [] then w else DispatchedAll(DispatchedOne(w))
  }

  datatype WorldAction =
    | Accept(bindOk: bool)
    | Disconnect(i: nat)
    | RequestDisconnect(id: Int64)
    | Release
    | Deliver(i: nat, data: seq<Byte>)
    | Dispatch

  /**
   Fewer than 2^48 accepts; disconnects and receives concern sessions that were
   bound and published; delivered packets are frames, as the parser guarantees.
   */
  ghost predicate WorldEnabled(w: World, a: WorldAction) {
    match a
    case Accept(_) => w.net.counter < TWO48
    case Disconnect(i) => i < |w.net.slots| && w.net.slots[i].id in w.net.published
    case RequestDisconnect(id) => id in w.net.published
    case Release => true
    case Deliver(i, data) =>
      i < |w.net.slots| && w.net.slots[i].id in w.net.published && IsFrame(Centralized, data)
    case Dispatch => w.net.queue != []
  }

  function WorldNext(w: World, a: WorldAction): World
    requires FreeInRange(w.net) && WorldEnabled(w, a)
  {
    match a
    case Accept(bindOk) => w.(net := Accepted(w.net, bindOk))
    case Disconnect(i) => w.(net := Closed(w.net, i))
    case RequestDisconnect(id) => w.(net := ClosedById(w.net, id))
    case Release => w.(net := Released(w.net))
    case Deliver(i, data) => w.(net := Delivered(w.net, i, data))
    case Dispatch => DispatchedOne(w)
  }

  // ---------------------------------------------------------------- slots

  /** The slot holds a published session that nobody has begun to close. */
  predicate IsLive(net: Net, i: nat)
    requires i < |net.slots|
  {
    net.slots[i].id in net.published && net.slots[i].valid && net.slots[i].socketOpen
  }

  predicate IsFree(net: Net, i: nat) {
    i in net.free
  }

  predicate IsPending(net: Net, i: nat)
    requires i < |net.slots|
  {
    net.slots[i].id in net.pending
  }

  ghost predicate NoDuplicates<T>(s: seq<T>) {
    forall j, k :: 0 <= j < k < |s| ==> s[j] != s[k]
  }

  /** The ids given out carry the counter values 1, 2, 3, ... */
  ghost predicate IdsInv(net: Net) {
    && |net.slots| <= 65535
    && net.counter == |net.issued| + 1
    && net.counter <= TWO48
    && (forall k :: 0 <= k < |net.issued| ==>
          ExtractUniqueId(net.issued[k]) == k + 1 && ExtractIndex(net.issued[k]) < |net.slots|)
    && (forall i :: 0 <= i < |net.slots| ==> SlotIdOk(net, i))
    && (forall id :: id in net.published ==> id in net.issued)
  }

  predicate SlotIdOk(net: Net, i: nat)
    requires i < |net.slots|
  {
    var id := net.slots[i].id;
    (id == 0 || (id in net.issued && ExtractIndex(id) == i))
  }

  /** Every slot is free, live or pending, and only one of these; no index waits twice. */
  ghost predicate SlotsInv(net: Net) {
    && FreeInRange(net)
    && NoDuplicates(net.free)
    && NoDuplicates(net.pending)
    && (forall p :: p in net.pending ==>
          p in net.published && ExtractIndex(p) < |net.slots| && net.slots[ExtractIndex(p)].id == p)
    && (forall i :: 0 <= i < |net.slots| ==> SlotOk(net, i))
  }

  predicate SlotOk(net: Net, i: nat)
    requires i < |net.slots|
  {
    if IsFree(net, i) then
      !IsPending(net, i) && !net.slots[i].socketOpen && (net.slots[i].id in net.published ==> !net.slots[i].valid)
    else if IsPending(net, i) then !net.slots[i].valid && !net.slots[i].socketOpen
    else IsLive(net, i)
  }

  lemma StartedInv(maxClients: nat)
    requires maxClients <= 65535
    ensures IdsInv(Started(maxClients)) && SlotsInv(Started(maxClients))
    ensures |Started(maxClients).slots| == |Started(maxClients).free| == maxClients
    ensures forall i :: 0 <= i < maxClients ==> Started(maxClients).free[i] == i
  {
    var net := Started(maxClients);
    forall i | 0 <= i < |net.slots| ensures SlotOk(net, i) {
      assert net.free[i] == i;
    }
  }

  lemma FreshId(net: Net)
    requires IdsInv(net) && SlotsInv(net) && net.free != [] && net.counter < TWO48
    ensures var id := NextId(net);
      && ExtractIndex(id) == net.free[0] && ExtractUniqueId(id) == net.counter
      && id !in net.issued && id !in net.published && id !in net.pending && id != 0
  {
    MakeExtractRoundTrip(net.free[0], net.counter % TWO48);
  }

  lemma AcceptedIds(net: Net, bindOk: bool)
    requires IdsInv(net) && SlotsInv(net) && net.counter < TWO48
    ensures IdsInv(Accepted(net, bindOk))
  {
    if net.free != [] {
      FreshId(net);
      var after := Accepted(net, bindOk);
      forall i | 0 <= i < |after.slots| ensures SlotIdOk(after, i) {
        assert SlotIdOk(net, i);
      }
    }
  }

  lemma AcceptedSlots(net: Net, bindOk: bool)
    requires IdsInv(net) && SlotsInv(net) && net.counter < TWO48
    ensures SlotsInv(Accepted(net, bindOk))
  {
    if net.free != [] {
      FreshId(net);
      var after := Accepted(net, bindOk);
      var index := net.free[0];
      assert SlotOk(net, index);
      forall i | 0 <= i < |after.slots| ensures SlotOk(after, i) {
        assert SlotOk(net, i) && SlotIdOk(net, i);
        assert i != index ==> (i in after.free <==> i in net.free);
      }
    }
  }

  /** A published id sits in the slot its index names, so no two slots share one. */
  lemma PublishedSlot(net: Net, i: nat)
    requires IdsInv(net) && i < |net.slots| && net.slots[i].id in net.published
    ensures ExtractIndex(net.slots[i].id) == i
  {
    var id := net.slots[i].id;
    assert SlotIdOk(net, i);
    var k :| 0 <= k < |net.issued| && net.issued[k] == id;
    assert ExtractUniqueId(id) == k + 1;
  }

  lemma ClosedInv(net: Net, i: nat)
    requires IdsInv(net) && SlotsInv(net) && i < |net.slots| && net.slots[i].id in net.published
    ensures IdsInv(Closed(net, i)) && SlotsInv(Closed(net, i))
  {
    var after := Closed(net, i);
    PublishedSlot(net, i);
    assert SlotOk(net, i);
    forall j | 0 <= j < |after.slots| ensures SlotOk(after, j) && SlotIdOk(after, j) {
      assert SlotOk(net, j) && SlotIdOk(net, j);
      if net.slots[j].id in net.published {
        PublishedSlot(net, j);
      }
    }
  }

  /** An id on the pending stack is found in the slot its index names. */
  lemma PendingIsFound(net: Net, p: Int64)
    requires SlotsInv(net) && p in net.pending
    ensures Find(net.slots, p) == Some(ExtractIndex(p))
  {
  }

  lemma ReleasedTopInv(net: Net)
    requires IdsInv(net) && SlotsInv(net) && net.pending != []
    ensures IdsInv(ReleasedTop(net)) && SlotsInv(ReleasedTop(net))
  {
    var p := net.pending[|net.pending| - 1];
    PendingIsFound(net, p);
    var after := ReleasedTop(net);
    var i := ExtractIndex(p);
    assert SlotOk(net, i) && IsPending(net, i);
    assert p !in after.pending;
    forall j | 0 <= j < |after.slots| ensures SlotOk(after, j) && SlotIdOk(after, j) {
      assert SlotOk(net, j) && SlotIdOk(net, j);
    }
  }
}
