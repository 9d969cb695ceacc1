/** The main results about slots, ids, events and players, for every run of the server. */
module GameTheorems {
  import opened Bytes
  import opened SessionId
  import opened Lifecycle
  import opened GameView

  ghost predicate WorldCanRun(w: World, trace: seq<WorldAction>)
    decreases |trace|
  {
    trace == [] ||
    (FreeInRange(w.net) && WorldEnabled(w, trace[0]) && WorldCanRun(WorldNext(w, trace[0]), trace[1..]))
  }

  ghost function WorldRun(w: World, trace: seq<WorldAction>): World
    requires WorldCanRun(w, trace)
    decreases |trace|
  {
    if trace == [] then w else WorldRun(WorldNext(w, trace[0]), trace[1..])
  }

  /** Some run of a freshly started server with this many slots ends here. */
  ghost predicate WorldReachable(w: World) {
    exists maxClients: nat, trace: seq<WorldAction> ::
      maxClients <= 65535 && WorldCanRun(World(Started(maxClients), map[]), trace) &&
      WorldRun(World(Started(maxClients), map[]), trace) == w
  }

  lemma {:induction false} WorldInvRun(w: World, trace: seq<WorldAction>)
    requires WorldCanRun(w, trace)
    ensures WorldInv(w) ==> WorldInv(WorldRun(w, trace))
    decreases |trace|
  {
    if trace != [] && WorldInv(w) {
      WorldStep(w, trace[0]);
      WorldInvRun(WorldNext(w, trace[0]), trace[1..]);
    }
  }

  lemma WorldReachableInv(w: World)
    requires WorldReachable(w)
    ensures WorldInv(w)
  {
    var maxClients: nat, trace: seq<WorldAction> :|
      maxClients <= 65535 && WorldCanRun(World(Started(maxClients), map[]), trace) &&
      WorldRun(World(Started(maxClients), map[]), trace) == w;
    StartedInv(maxClients);
    WorldInvRun(World(Started(maxClients), map[]), trace);
  }

  // ---------------------------------------------------------------- slots

  /**
   Slot conservation: every index is in exactly one of the free queue, the live
   set and the pending stack, in the queue and on the stack at most once, and a
   pending slot still holds the id that waits for it.
   */
  lemma SlotConservation(w: World, i: nat)
    requires WorldReachable(w) && i < |w.net.slots|
    ensures IsFree(w.net, i) || IsPending(w.net, i) || IsLive(w.net, i)
    ensures !(IsFree(w.net, i) && IsPending(w.net, i))
    ensures !(IsFree(w.net, i) && IsLive(w.net, i))
    ensures !(IsPending(w.net, i) && IsLive(w.net, i))
    ensures NoDuplicates(w.net.free) && NoDuplicates(w.net.pending)
    ensures forall p :: p in w.net.pending ==>
      ExtractIndex(p) < |w.net.slots| && w.net.slots[ExtractIndex(p)].id == p
    ensures IsPending(w.net, i) ==> ExtractIndex(w.net.slots[i].id) == i
  {
    WorldReachableInv(w);
    assert SlotOk(w.net, i);
    if IsPending(w.net, i) {
      PublishedSlot(w.net, i);
    }
  }

  lemma {:induction false} SizeWithoutDuplicates<T>(s: seq<T>)
    requires NoDuplicates(s)
    ensures |set x | x in s| == |s|
    decreases |s|
  {
    if s != [] {
      var init, last := s[..|s| - 1], s[|s| - 1];
      SizeWithoutDuplicates(init);
      assert last !in init;
      assert (set x | x in s) == (set x | x in init) + {last};
    }
  }

  function UpTo(n: nat): (s: set<nat>)
    ensures |s| == n
    ensures forall i: nat :: i in s <==> i < n
  {
    if n == 0 then {} else UpTo(n - 1) + {n - 1}
  }

  /** The slots whose id is on this list. */
  function SlotsOf(net: Net, ids: seq<Int64>): set<nat> {
    set i: nat | i < |net.slots| && net.slots[i].id in ids
  }

  function LiveSlots(net: Net): set<nat> {
    set i: nat | i < |net.slots| && IsLive(net, i)
  }

  lemma OneMoreSlot(net: Net, ids: seq<Int64>, id: Int64)
    requires IdsInv(net) && id !in ids && id in net.published
    requires ExtractIndex(id) < |net.slots| && net.slots[ExtractIndex(id)].id == id
    ensures |SlotsOf(net, ids + [id])| == |SlotsOf(net, ids)| + 1
  {
    forall i: nat | i < |net.slots| && net.slots[i].id == id ensures i == ExtractIndex(id) {
      PublishedSlot(net, i);
    }
    assert SlotsOf(net, ids + [id]) == SlotsOf(net, ids) + {ExtractIndex(id)};
  }

  /** The pending stack has as many entries as there are pending slots. */
  lemma {:induction false} SizeOfPending(net: Net, pending: seq<Int64>)
    requires IdsInv(net) && NoDuplicates(pending)
    requires forall p :: p in pending ==>
      p in net.published && ExtractIndex(p) < |net.slots| && net.slots[ExtractIndex(p)].id == p
    ensures |SlotsOf(net, pending)| == |pending|
    decreases |pending|
  {
    if pending == [] {
      assert SlotsOf(net, pending) == {};
    } else {
      var init, last := pending[..|pending| - 1], pending[|pending| - 1];
      assert pending == init + [last] && last in pending && last !in init;
      SizeOfPending(net, init);
      OneMoreSlot(net, init, last);
    }
  }

  /** Counted: free, pending and live slots always add up to all of them. */
  lemma SlotsAddUp(w: World)
    requires WorldReachable(w)
    ensures |w.net.free| + |w.net.pending| + |LiveSlots(w.net)| == |w.net.slots|
  {
    WorldReachableInv(w);
    var net := w.net;
    var free := set i | i in net.free;
    var pending := SlotsOf(net, net.pending);
    SizeWithoutDuplicates(net.free);
    SizeOfPending(net, net.pending);
    Partition(net, free, pending);
  }

  lemma Partition(net: Net, free: set<nat>, pending: set<nat>)
    requires SlotsInv(net) && pending == SlotsOf(net, net.pending)
    requires forall i :: i in free <==> i in net.free
    ensures |free| + |pending| + |LiveSlots(net)| == |net.slots|
  {
    var all, live := UpTo(|net.slots|), LiveSlots(net);
    forall i: nat | i < |net.slots|
      ensures i in free || i in pending || i in live
      ensures !(i in free && i in pending) && !(i in free && i in live) && !(i in pending && i in live)
    {
      assert SlotOk(net, i);
    }
    assert all == free + pending + live;
    assert free !! pending && (free + pending) !! live;
  }

  /** The indices of a stack of ids, top first. */
  function TopFirst(pending: seq<Int64>): seq<nat> {
    if pending == [] then []
    else [ExtractIndex(pending[|pending| - 1])] + TopFirst(pending[..|pending| - 1])
  }

  /** ReleaseSession empties the stack and gives back the index of every entry, none dropped and none added. */
  lemma {:induction false} ReleaseGivesBackAll(net: Net)
    requires IdsInv(net) && SlotsInv(net)
    ensures Released(net).pending == []
    ensures Released(net).free == net.free + TopFirst(net.pending)
    ensures |Released(net).slots| == |net.slots| && Released(net).published == net.published
    ensures forall i :: 0 <= i < |net.slots| ==> Released(net).slots[i].id == net.slots[i].id
    decreases |net.pending|
  {
    if net.pending == [] {
      assert net.free + [] == net.free;
    } else {
      var p := net.pending[|net.pending| - 1];
      PendingIsFound(net, p);
      ReleasedTopInv(net);
      ReleaseGivesBackAll(ReleasedTop(net));
      Reassociate(net.free, [ExtractIndex(p)], TopFirst(net.pending[..|net.pending| - 1]));
    }
  }

  // ---------------------------------------------------------------- ids

  /**
   Id freshness: the ids given out in a run are all different, and an id whose
   slot has been given to somebody else is never found again.
   */
  lemma IdsAreFresh(w: World, id: Int64)
    requires WorldReachable(w) && id in w.net.issued
    ensures NoDuplicates(w.net.issued)
    ensures ExtractIndex(id) < |w.net.slots|
    ensures Find(w.net.slots, id) ==
      if w.net.slots[ExtractIndex(id)].id == id then Some(ExtractIndex(id)) else None
  {
    WorldReachableInv(w);
    forall j, k | 0 <= j < k < |w.net.issued| ensures w.net.issued[j] != w.net.issued[k] {
      assert ExtractUniqueId(w.net.issued[j]) == j + 1;
    }
    if Find(w.net.slots, id).Some? {
      FindMeansCurrent(w.net, id);
    }
  }

  // ---------------------------------------------------------------- what accepting and closing achieve

  lemma AcceptedSlot(net: Net, bindOk: bool)
    requires IdsInv(net) && SlotsInv(net) && net.counter < TWO48 && net.free != []
    ensures var after, index, id := Accepted(net, bindOk), net.free[0], NextId(net);
      && Find(after.slots, id) == Some(index) && after.slots[index] == Slot(id, true, bindOk)
      && IsLiveId(after, id) == bindOk
      && after.free == net.free[1..] + (if bindOk then [] else [index])
  {
    FreshId(net);
    EmptyRight(net.free[1..]);
  }

  /**
   An accept with a free index starts a life in the slot at the front of the
   queue. If the socket could be bound, its new id is live, found and announced;
   if not, nobody hears of it and the index goes to the back of the queue. No
   other session's life is touched, and without a free index nothing changes.
   */
  lemma AcceptStartsLife(w: World, bindOk: bool)
    requires WorldReachable(w) && w.net.counter < TWO48
    ensures FreeInRange(w.net)
    ensures var after := Accepted(w.net, bindOk);
      if w.net.free == [] then after == w.net
      else
        var index, id := w.net.free[0], NextId(w.net);
        && id !in w.net.issued && after.issued == w.net.issued + [id]
        && Find(after.slots, id) == Some(index) && after.slots[index].id == id
        && IsLiveId(after, id) == bindOk && after.slots[index].socketOpen == bindOk
        && Log(after) == Log(w.net) + (if bindOk then [Connected(id)] else [])
        && after.free == w.net.free[1..] + (if bindOk then [] else [index])
        && (forall other :: other in w.net.published ==> (IsLiveId(after, other) <==> IsLiveId(w.net, other)))
  {
    WorldReachableInv(w);
    if w.net.free != [] {
      FreshId(w.net);
      AcceptedSlot(w.net, bindOk);
      forall other | other in w.net.published
        ensures IsLiveId(Accepted(w.net, bindOk), other) <==> IsLiveId(w.net, other)
      {
        AcceptedLive(w.net, bindOk, other);
      }
      if bindOk { AcceptedLog(w.net); } else { RefusedLog(w.net); EmptyRight(Log(w.net)); }
    }
  }

  /**
   A request to disconnect a published id ends its life: if it was live, it is
   announced as gone, its socket is closed and it waits on top of the pending
   stack; if it was not, nothing changes. No other session's life is touched.
   */
  lemma RequestEndsLife(w: World, id: Int64)
    requires WorldReachable(w) && id in w.net.published
    ensures var after := ClosedById(w.net, id);
      && !IsLiveId(after, id)
      && (if IsLiveId(w.net, id) then
            && Log(after) == Log(w.net) + [Disconnected(id)]
            && after.pending == w.net.pending + [id]
            && after.slots == w.net.slots[ExtractIndex(id) := Slot(id, false, false)]
          else after == w.net)
      && (forall other :: other in w.net.published && other != id ==>
            (IsLiveId(after, other) <==> IsLiveId(w.net, other)))
  {
    WorldReachableInv(w);
    var net := w.net;
    if Find(net.slots, id).Some? {
      FindMeansCurrent(net, id);
      assert SlotOk(net, ExtractIndex(id));
      if net.slots[ExtractIndex(id)].valid {
        ClosedLog(net, ExtractIndex(id));
      }
    }
  }

  // ---------------------------------------------------------------- events and players

  /**
   Replay agreement: applying the events still queued to the player map gives
   exactly the ids of the live slots; and at every moment the map has at most
   as many players as there are slots.
   */
  lemma ReplayAgreement(w: World)
    requires WorldReachable(w)
    ensures Replay(w.players.Keys, w.net.queue) == LiveIds(w.net)
    ensures |w.players| <= |w.net.slots|
  {
    WorldReachableInv(w);
    ReplayConcat({}, w.net.past, w.net.queue);
    ReplayIsLive(w.net);
    assert Log(w.net)[..|w.net.past|] == w.net.past;
    assert |w.players| == |w.players.Keys|;
  }

  /** Every player knows the id it is filed under, so what the game sends it goes to its own session. */
  lemma PlayersKnowTheirIds(w: World, id: Int64)
    requires WorldReachable(w) && id in w.players
    ensures w.players[id].sessionId == id
  {
    WorldReachableInv(w);
  }

  function IdOf(e: Event): Int64 {
    e.id
  }

  /**
   Event order: a published id has exactly one CONNECTED in the log, before all
   its other events, and at most one DISCONNECTED, however many threads raced to
   close it.
   */
  lemma EventOrder(w: World, id: Int64) returns (c: nat)
    requires WorldReachable(w) && id in w.net.published
    ensures c < |Log(w.net)| && Log(w.net)[c] == Connected(id)
    ensures forall k :: 0 <= k < |Log(w.net)| && IdOf(Log(w.net)[k]) == id ==> c <= k
    ensures forall k :: 0 <= k < |Log(w.net)| && Log(w.net)[k] == Connected(id) ==> k == c
    ensures forall j, k :: 0 <= j < k < |Log(w.net)| && Log(w.net)[j] == Disconnected(id) ==>
      Log(w.net)[k] != Disconnected(id)
  {
    WorldReachableInv(w);
    var log := Log(w.net);
    assert Connected(id) in log;
    c :| 0 <= c < |log| && log[c] == Connected(id);
    forall k | 0 <= k < |log| && IdOf(log[k]) == id ensures c <= k && (log[k] == Connected(id) ==> k == c) {
      assert EventOk(log[..k], log[k]) && EventOk(log[..c], log[c]);
      if k < c {
        ConnectedBefore(log, k, id);
      }
      if c < k {
        assert log[..k][c] == Connected(id);
      }
    }
    forall j, k | 0 <= j < k < |log| && log[j] == Disconnected(id) ensures log[k] != Disconnected(id) {
      assert EventOk(log[..k], log[k]);
      assert log[..k][j] == Disconnected(id);
    }
  }

  /** Any event of an id stands at or behind a CONNECTED of it. */
  lemma ConnectedBefore(log: seq<Event>, k: nat, id: Int64)
    requires WellOrdered(log) && k < |log| && IdOf(log[k]) == id
    ensures Connected(id) in log[..k + 1]
  {
    assert EventOk(log[..k], log[k]);
    assert log[..k + 1] == log[..k] + [log[k]];
  }

  lemma PastIsWellOrdered(net: Net)
    requires WellOrdered(Log(net))
    ensures WellOrdered(net.past)
  {
    forall k | 0 <= k < |net.past| ensures EventOk(net.past[..k], net.past[k]) {
      assert net.past[..k] == Log(net)[..k];
      assert EventOk(Log(net)[..k], Log(net)[k]);
    }
  }

  /**
   What the dispatcher meets next: a CONNECTED is for an id it does not have, a
   DISCONNECTED for a player it has, and a RECEIVED is handled exactly when its
   id has been connected and not disconnected before; one that trails its
   DISCONNECTED is dropped, and none fails a length check.
   */
  lemma DispatchIsSound(w: World)
    requires WorldReachable(w) && w.net.queue != []
    ensures var e := w.net.queue[0];
      var outcome := Dispatched(w.players, e).1;
      match e
      case Connected(id) => id !in w.players
      case Disconnected(id) => outcome == Removed
      case Received(id, _) =>
        && Connected(id) in w.net.past
        && outcome == (if Disconnected(id) in w.net.past then UnknownPlayer else Handled)
  {
    WorldReachableInv(w);
    PastIsWellOrdered(w.net);
    var e := w.net.queue[0];
    var log, k := Log(w.net), |w.net.past|;
    assert log[..k] == w.net.past && log[k] == e;
    assert EventOk(log[..k], log[k]);
    ReplayIsConnectedNotDisconnected(w.net.past, e.id);
  }

  lemma {:induction false} DispatchedAllInv(w: World)
    requires WorldInv(w)
    ensures var d := DispatchedAll(w);
      WorldInv(d) && d.net == w.net.(queue := [], past := Log(w.net))
    decreases |w.net.queue|
  {
    if w.net.queue == [] {
      assert w.net.past + [] == w.net.past;
    } else {
      DispatchWorld(w);
      MovesToPast(w.net.past, w.net.queue);
      DispatchedAllInv(DispatchedOne(w));
    }
  }

  /**
   Nothing is dispatched twice or skipped: however the network got ahead, one
   drain of the event queue touches no slot and leaves exactly the live players.
   */
  lemma DrainedPlayersAreLive(w: World)
    requires WorldReachable(w)
    ensures var d := DispatchedAll(w);
      && d.net.queue == [] && d.net.slots == w.net.slots && d.net.past == Log(w.net)
      && d.players.Keys == LiveIds(w.net)
  {
    WorldReachableInv(w);
    DispatchedAllInv(w);
    ReplayIsLive(w.net);
  }
}
