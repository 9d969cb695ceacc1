/** The game layer's view of the sessions: event order, the player map, and what every run keeps. */
module GameView {
  import opened Bytes
  import opened Framing
  import opened SessionId
  import opened Lifecycle

  // ---------------------------------------------------------------- replay

  /** The keys of the player map after one event. */
  function Apply(ids: set<Int64>, e: Event): set<Int64> {
    match e
    case Connected(id) => ids + {id}
    case Disconnected(id) => ids - {id}
    case Received(_, _) => ids
  }

  /** The keys of the player map after a list of events. */
  function Replay(ids: set<Int64>, events: seq<Event>): set<Int64> {
    if events == [] then ids
    else Apply(Replay(ids, events[..|events| - 1]), events[|events| - 1])
  }

  lemma ReplayOneMore(ids: set<Int64>, events: seq<Event>, e: Event)
    ensures Replay(ids, events + [e]) == Apply(Replay(ids, events), e)
  {
    assert (events + [e])[..|events|] == events;
  }

  lemma {:induction false} ReplayConcat(ids: set<Int64>, a: seq<Event>, b: seq<Event>)
    ensures Replay(ids, a + b) == Replay(Replay(ids, a), b)
    decreases |b|
  {
    if b == [] {
      assert a + b == a;
    } else {
      var init, last := b[..|b| - 1], b[|b| - 1];
      assert a + b == (a + init) + [last];
      ReplayOneMore(ids, a + init, last);
      ReplayConcat(ids, a, init);
    }
  }

  // ---------------------------------------------------------------- event order

  predicate EventOk(before: seq<Event>, e: Event) {
    match e
    case Connected(id) => Connected(id) !in before
    case Disconnected(id) => Connected(id) in before && Disconnected(id) !in before
    case Received(id, data) => Connected(id) in before && IsFrame(Centralized, data)
  }

  /** One life per id: CONNECTED once and first, DISCONNECTED at most once; what was received is a frame. */
  ghost predicate WellOrdered(log: seq<Event>) {
    forall k :: 0 <= k < |log| ==> EventOk(log[..k], log[k])
  }

  lemma WellOrderedOneMore(log: seq<Event>, e: Event)
    requires WellOrdered(log) && EventOk(log, e)
    ensures WellOrdered(log + [e])
  {
    var more := log + [e];
    forall k | 0 <= k < |more| ensures EventOk(more[..k], more[k]) {
      if k < |log| {
        assert more[..k] == log[..k] && more[k] == log[k];
        assert EventOk(log[..k], log[k]);
      } else {
        assert more[..k] == log;
      }
    }
  }

  lemma DisconnectedWasConnected(log: seq<Event>, id: Int64)
    requires WellOrdered(log) && Disconnected(id) in log
    ensures Connected(id) in log
  {
    var k :| 0 <= k < |log| && log[k] == Disconnected(id);
    assert EventOk(log[..k], log[k]);
  }

  lemma WellOrderedInit(log: seq<Event>)
    requires WellOrdered(log) && log != []
    ensures WellOrdered(log[..|log| - 1]) && EventOk(log[..|log| - 1], log[|log| - 1])
  {
    var init := log[..|log| - 1];
    forall k | 0 <= k < |init| ensures EventOk(init[..k], init[k]) {
      assert init[..k] == log[..k] && EventOk(log[..k], log[k]);
    }
  }

  lemma InLonger(init: seq<Event>, last: Event, e: Event)
    ensures e in init + [last] <==> e in init || e == last
  {
  }

  /** In a well-ordered log, replay holds exactly the ids that were connected and not disconnected. */
  lemma {:induction false} ReplayIsConnectedNotDisconnected(log: seq<Event>, id: Int64)
    requires WellOrdered(log)
    ensures id in Replay({}, log) <==> Connected(id) in log && Disconnected(id) !in log
    decreases |log|
  {
    if log != [] {
      var init, last := log[..|log| - 1], log[|log| - 1];
      assert log == init + [last];
      WellOrderedInit(log);
      ReplayIsConnectedNotDisconnected(init, id);
      InLonger(init, last, Connected(id));
      InLonger(init, last, Disconnected(id));
      if Disconnected(id) in init {
        DisconnectedWasConnected(init, id);
      }
    }
  }

  // ---------------------------------------------------------------- the invariant over both layers

  function Log(net: Net): seq<Event> {
    net.past + net.queue
  }

  predicate IsLiveId(net: Net, id: Int64) {
    var i := ExtractIndex(id);
    i < |net.slots| && net.slots[i].id == id && IsLive(net, i)
  }

  function LiveIds(net: Net): set<Int64> {
    set i | 0 <= i < |net.slots| && IsLive(net, i) :: net.slots[i].id
  }

  ghost predicate LogInv(net: Net) {
    && WellOrdered(Log(net))
    && (forall id :: Connected(id) in Log(net) <==> id in net.published)
    && (forall id :: id in net.published ==> (Disconnected(id) in Log(net) <==> !IsLiveId(net, id)))
  }

  /** However far the game has got, it never holds more players than there are slots. */
  ghost predicate BoundInv(net: Net) {
    forall k :: 0 <= k <= |Log(net)| ==> |Replay({}, Log(net)[..k])| <= |net.slots|
  }

  ghost predicate WorldInv(w: World) {
    && IdsInv(w.net) && SlotsInv(w.net)
    && LogInv(w.net) && BoundInv(w.net)
    && w.players.Keys == Replay({}, w.net.past)
    && (forall id :: id in w.players ==> w.players[id].sessionId == id)
  }

  lemma {:induction false} FewLiveIds(net: Net, n: nat)
    requires n <= |net.slots|
    ensures |set i | 0 <= i < n && IsLive(net, i) :: net.slots[i].id| <= n
  {
    if n > 0 {
      FewLiveIds(net, n - 1);
      var fewer := set i | 0 <= i < n - 1 && IsLive(net, i) :: net.slots[i].id;
      var ids := set i | 0 <= i < n && IsLive(net, i) :: net.slots[i].id;
      assert ids <= fewer + {net.slots[n - 1].id};
      Subset(ids, fewer + {net.slots[n - 1].id});
    }
  }

  lemma Subset<T>(a: set<T>, b: set<T>)
    requires a <= b
    ensures |a| <= |b|
  {
    assert b == a + (b - a);
  }

  lemma LiveIdsAre(net: Net, id: Int64)
    requires IdsInv(net)
    ensures id in LiveIds(net) <==> id in net.published && IsLiveId(net, id)
  {
    if id in LiveIds(net) {
      var i :| 0 <= i < |net.slots| && IsLive(net, i) && net.slots[i].id == id;
      PublishedSlot(net, i);
    }
  }

  /** Replaying the whole log gives the ids of the live slots. */
  lemma ReplayIsLive(net: Net)
    requires IdsInv(net) && LogInv(net)
    ensures Replay({}, Log(net)) == LiveIds(net)
    ensures |Replay({}, Log(net))| <= |net.slots|
  {
    forall id ensures id in Replay({}, Log(net)) <==> id in LiveIds(net) {
      ReplayIsConnectedNotDisconnected(Log(net), id);
      LiveIdsAre(net, id);
    }
    FewLiveIds(net, |net.slots|);
  }

  lemma BoundOneMore(net: Net, after: Net, e: Event)
    requires BoundInv(net) && IdsInv(after) && LogInv(after)
    requires |after.slots| == |net.slots| && Log(after) == Log(net) + [e]
    ensures BoundInv(after)
  {
    forall k | 0 <= k <= |Log(after)| ensures |Replay({}, Log(after)[..k])| <= |after.slots| {
      if k <= |Log(net)| {
        assert Log(after)[..k] == Log(net)[..k];
      } else {
        assert Log(after)[..k] == Log(after);
        ReplayIsLive(after);
      }
    }
  }

  // ---------------------------------------------------------------- each operation keeps it

  /** Accepting changes the liveness of no id published before: the slot it takes held none. */
  lemma AcceptedLive(net: Net, bindOk: bool, other: Int64)
    requires IdsInv(net) && SlotsInv(net) && net.counter < TWO48 && net.free != []
    requires other in net.published
    ensures IsLiveId(Accepted(net, bindOk), other) <==> IsLiveId(net, other)
  {
    FreshId(net);
    assert SlotOk(net, net.free[0]);
  }

  lemma RefusedLog(net: Net)
    requires IdsInv(net) && SlotsInv(net) && LogInv(net) && net.counter < TWO48 && net.free != []
    ensures LogInv(Accepted(net, false)) && Log(Accepted(net, false)) == Log(net)
  {
    forall other | other in net.published
      ensures IsLiveId(Accepted(net, false), other) <==> IsLiveId(net, other)
    {
      AcceptedLive(net, false, other);
    }
  }

  /** Announcing a new id keeps the log in step with the slots. */
  lemma ConnectedLog(net: Net, after: Net, id: Int64)
    requires LogInv(net) && id !in net.published
    requires after.published == net.published + {id} && Log(after) == Log(net) + [Connected(id)]
    requires IsLiveId(after, id)
    requires forall other :: other in net.published ==> (IsLiveId(after, other) <==> IsLiveId(net, other))
    ensures LogInv(after)
  {
    WellOrderedOneMore(Log(net), Connected(id));
    forall other ensures Connected(other) in Log(after) <==> other in after.published {
      InLonger(Log(net), Connected(id), Connected(other));
    }
    forall other | other in after.published
      ensures Disconnected(other) in Log(after) <==> !IsLiveId(after, other)
    {
      InLonger(Log(net), Connected(id), Disconnected(other));
      if Disconnected(id) in Log(net) {
        DisconnectedWasConnected(Log(net), id);
      }
    }
  }

  lemma AcceptedLog(net: Net)
    requires IdsInv(net) && SlotsInv(net) && LogInv(net) && net.counter < TWO48 && net.free != []
    ensures LogInv(Accepted(net, true))
    ensures Log(Accepted(net, true)) == Log(net) + [Connected(NextId(net))]
  {
    FreshId(net);
    var id := NextId(net);
    var after := Accepted(net, true);
    assert Log(after) == Log(net) + [Connected(id)];
    forall other | other in net.published ensures IsLiveId(after, other) <==> IsLiveId(net, other) {
      AcceptedLive(net, true, other);
    }
    ConnectedLog(net, after, id);
  }

  /** Announcing that a live id is gone keeps the log in step with the slots. */
  lemma DisconnectedLog(net: Net, after: Net, id: Int64)
    requires LogInv(net) && id in net.published && IsLiveId(net, id) && !IsLiveId(after, id)
    requires after.published == net.published && Log(after) == Log(net) + [Disconnected(id)]
    requires forall other :: other in net.published && other != id ==>
      (IsLiveId(after, other) <==> IsLiveId(net, other))
    ensures LogInv(after)
  {
    WellOrderedOneMore(Log(net), Disconnected(id));
    forall other ensures Connected(other) in Log(after) <==> other in after.published {
      InLonger(Log(net), Disconnected(id), Connected(other));
    }
    forall other | other in after.published
      ensures Disconnected(other) in Log(after) <==> !IsLiveId(after, other)
    {
      InLonger(Log(net), Disconnected(id), Disconnected(other));
    }
  }

  lemma ClosedLog(net: Net, i: nat)
    requires IdsInv(net) && SlotsInv(net) && LogInv(net)
    requires i < |net.slots| && net.slots[i].id in net.published && net.slots[i].valid
    ensures LogInv(Closed(net, i))
    ensures Log(Closed(net, i)) == Log(net) + [Disconnected(net.slots[i].id)]
  {
    var id := net.slots[i].id;
    var after := Closed(net, i);
    PublishedSlot(net, i);
    assert SlotOk(net, i) && IsLiveId(net, id);
    assert Log(after) == Log(net) + [Disconnected(id)];
    forall other | other in net.published && other != id ensures IsLiveId(after, other) <==> IsLiveId(net, other) {
    }
    DisconnectedLog(net, after, id);
  }

  lemma ReleasedTopLog(net: Net)
    requires IdsInv(net) && SlotsInv(net) && LogInv(net) && BoundInv(net) && net.pending != []
    ensures LogInv(ReleasedTop(net)) && BoundInv(ReleasedTop(net)) && Log(ReleasedTop(net)) == Log(net)
  {
    var p := net.pending[|net.pending| - 1];
    PendingIsFound(net, p);
    var after := ReleasedTop(net);
    assert SlotOk(net, ExtractIndex(p)) && IsPending(net, ExtractIndex(p));
    forall other | other in net.published ensures IsLiveId(after, other) <==> IsLiveId(net, other) {
    }
  }

  lemma {:induction false} ReleasedInv(net: Net)
    requires IdsInv(net) && SlotsInv(net) && LogInv(net) && BoundInv(net)
    ensures var after := Released(net);
      && IdsInv(after) && SlotsInv(after) && LogInv(after) && BoundInv(after)
      && after.past == net.past && after.queue == net.queue
    decreases |net.pending|
  {
    if net.pending != [] {
      ReleasedTopInv(net);
      ReleasedTopLog(net);
      ReleasedInv(ReleasedTop(net));
    }
  }

  lemma DeliveredSlots(net: Net, i: nat, data: seq<Byte>)
    requires IdsInv(net) && SlotsInv(net) && i < |net.slots|
    ensures IdsInv(Delivered(net, i, data)) && SlotsInv(Delivered(net, i, data))
  {
    var after := Delivered(net, i, data);
    forall j | 0 <= j < |net.slots| ensures SlotOk(after, j) && SlotIdOk(after, j) {
      assert SlotOk(net, j) && SlotIdOk(net, j);
    }
  }

  lemma DeliveredLog(net: Net, i: nat, data: seq<Byte>)
    requires LogInv(net) && i < |net.slots| && net.slots[i].id in net.published && IsFrame(Centralized, data)
    ensures var after := Delivered(net, i, data);
      LogInv(after) && Log(after) == Log(net) + [Received(net.slots[i].id, data)]
  {
    var after := Delivered(net, i, data);
    var e := Received(net.slots[i].id, data);
    assert Log(after) == Log(net) + [e];
    WellOrderedOneMore(Log(net), e);
    forall id ensures IsLiveId(after, id) <==> IsLiveId(net, id) {
    }
  }

  lemma ClosedWorld(w: World, i: nat)
    requires WorldInv(w) && i < |w.net.slots|
    ensures w.net.slots[i].id in w.net.published ==> WorldInv(w.(net := Closed(w.net, i)))
  {
    if w.net.slots[i].valid && w.net.slots[i].id in w.net.published {
      ClosedInv(w.net, i);
      ClosedLog(w.net, i);
      BoundOneMore(w.net, Closed(w.net, i), Disconnected(w.net.slots[i].id));
    }
  }

  lemma AcceptedWorld(w: World, bindOk: bool)
    requires WorldInv(w) && w.net.counter < TWO48
    ensures WorldInv(w.(net := Accepted(w.net, bindOk)))
  {
    var net, after := w.net, Accepted(w.net, bindOk);
    if net.free != [] {
      AcceptedIds(net, bindOk);
      AcceptedSlots(net, bindOk);
      if !bindOk {
        RefusedLog(net);
      } else {
        AcceptedLog(net);
        BoundOneMore(net, after, Connected(NextId(net)));
      }
    }
  }

  /** FindSession finds an id that was given out only while its slot still carries it. */
  lemma FindMeansCurrent(net: Net, id: Int64)
    requires IdsInv(net) && id in net.issued && Find(net.slots, id).Some?
    ensures net.slots[Find(net.slots, id).value].id == id
  {
    var i := ExtractIndex(id);
    var k :| 0 <= k < |net.issued| && net.issued[k] == id;
    assert ExtractUniqueId(id) == k + 1;
    assert SlotIdOk(net, i);
    SameParts(id, net.slots[i].id);
  }

  /** Moving an event from the queue to the past changes no slot and no log. */
  lemma SameLog(net: Net, after: Net)
    requires IdsInv(net) && SlotsInv(net) && LogInv(net) && BoundInv(net)
    requires after == net.(queue := after.queue, past := after.past) && Log(after) == Log(net)
    ensures IdsInv(after) && SlotsInv(after) && LogInv(after) && BoundInv(after)
  {
    forall j | 0 <= j < |net.slots| ensures SlotOk(after, j) && SlotIdOk(after, j) {
      assert SlotOk(net, j) && SlotIdOk(net, j);
    }
    forall id ensures IsLiveId(after, id) <==> IsLiveId(net, id) {
    }
  }

  lemma MovesToPast(past: seq<Event>, queue: seq<Event>)
    requires queue != []
    ensures (past + [queue[0]]) + queue[1..] == past + queue
  {
  }

  lemma DispatchWorld(w: World)
    requires WorldInv(w) && w.net.queue != []
    ensures WorldInv(DispatchedOne(w))
  {
    var net, after := w.net, DispatchedOne(w).net;
    var e := net.queue[0];
    MovesToPast(net.past, net.queue);
    SameLog(net, after);
    ReplayOneMore({}, net.past, e);
    assert Dispatched(w.players, e).0.Keys == Apply(w.players.Keys, e);
  }

  lemma WorldStep(w: World, a: WorldAction)
    requires WorldInv(w) && WorldEnabled(w, a)
    ensures WorldInv(WorldNext(w, a))
  {
    match a
    case Accept(bindOk) => AcceptedWorld(w, bindOk);
    case Disconnect(i) => ClosedWorld(w, i);
    case RequestDisconnect(id) =>
      if Find(w.net.slots, id).Some? {
        FindMeansCurrent(w.net, id);
        ClosedWorld(w, Find(w.net.slots, id).value);
      }
    case Release => ReleasedInv(w.net);
    case Deliver(i, data) =>
      DeliveredSlots(w.net, i, data);
      DeliveredLog(w.net, i, data);
      BoundOneMore(w.net, Delivered(w.net, i, data), Received(w.net.slots[i].id, data));
    case Dispatch => DispatchWorld(w);
  }
}
