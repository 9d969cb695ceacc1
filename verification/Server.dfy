/** CIOCPServer's session table and CCentralizedServer's dispatcher, as the code that changes their fields. */
module Server {
  import opened Bytes
  import opened SessionId
  import opened Lifecycle

  /** A queue behind a lock; each method is one critical section. */
  class ThreadSafeQueue<T> {
    var items: seq<T>

    constructor ()
      ensures items == []
    {
      items := [];
    }

    method Push(item: T)
      modifies this
      ensures items == old(items) + [item]
    {
      items := items + [item];
    }

    method TryPop() returns (item: Option<T>)
      modifies this
      ensures old(items) == [] ==> item == None && items == []
      ensures old(items) != [] ==> item == Some(old(items)[0]) && items == old(items)[1..]
    {
      if items == [] {
        return None;
      }
      item := Some(items[0]);
      items := items[1..];
    }
  }

  class Session {
    var socketOpen: bool
    var sessionId: Int64
    var valid: bool
    var sending: bool

    /** What the slot table looks at; `sending` belongs to the send protocol. */
    function View(): Slot
      reads this
    {
      Slot(sessionId, valid, socketOpen)
    }

    constructor ()
      ensures View() == Slot(0, true, false)
    {
      socketOpen, sessionId, valid, sending := false, 0, true, false;
    }

    method Initialize(sessionId: Int64)
      modifies this
      ensures View() == Slot(sessionId, true, true) && !sending
    {
      this.socketOpen := true;
      this.sessionId := sessionId;
      this.valid, this.sending := true, false;
    }

    method Close()
      modifies this`socketOpen
      ensures !socketOpen
    {
      socketOpen := false;
    }
  }

  /** The slots as values. */
  function Slots(sessions: seq<Session>): (slots: seq<Slot>)
    reads sessions
    ensures |slots| == |sessions|
    ensures forall i :: 0 <= i < |slots| ==> slots[i] == sessions[i].View()
  {
    if sessions == [] then []
    else Slots(sessions[..|sessions| - 1]) + [sessions[|sessions| - 1].View()]
  }

  class NetworkServer {
    var sessions: seq<Session>            // index-addressed, filled once by Start
    var availableIndices: seq<nat>        // queue, front first
    var pendingDisconStack: seq<Int64>    // stack, top last
    var sessionIdCounter: Int64
    const eventQueue: ThreadSafeQueue<Event>

    ghost var past: seq<Event>
    ghost var issued: seq<Int64>
    ghost var published: set<Int64>

    ghost predicate Valid()
      reads this
    {
      && |sessions| <= 65535
      && (forall i, j :: 0 <= i < j < |sessions| ==> sessions[i] != sessions[j])
      && (forall k :: 0 <= k < |availableIndices| ==> availableIndices[k] < |sessions|)
    }

    ghost function View(): Net
      reads this, sessions, eventQueue
    {
      Net(Slots(sessions), availableIndices, pendingDisconStack, sessionIdCounter,
          eventQueue.items, past, issued, published)
    }

    /** Start, up to the point where the threads run. */
    constructor (maxClients: nat)
      requires maxClients <= 65535
      ensures Valid() && View() == Started(maxClients)
      ensures fresh(eventQueue) && forall s :: s in sessions ==> fresh(s)
    {
      sessionIdCounter, pendingDisconStack := 1, [];
      sessions, availableIndices := [], [];
      eventQueue := new ThreadSafeQueue();
      past, issued, published := [], [], {};
      new;
      CreateSessions(maxClients);
      FillIndices(maxClients);
      StartedIs(View(), maxClients);
    }

    method CreateSessions(maxClients: nat)
      requires sessions == []
      modifies this`sessions
      ensures |sessions| == maxClients && forall s :: s in sessions ==> fresh(s)
      ensures forall i, j :: 0 <= i < j < |sessions| ==> sessions[i] != sessions[j]
      ensures forall i :: 0 <= i < |sessions| ==> sessions[i].View() == Slot(0, true, false)
    {
      for i := 0 to maxClients
        invariant |sessions| == i && forall s :: s in sessions ==> fresh(s)
        invariant forall j, k :: 0 <= j < k < |sessions| ==> sessions[j] != sessions[k]
        invariant forall j :: 0 <= j < i ==> sessions[j].View() == Slot(0, true, false)
      {
        var session := new Session();
        sessions := sessions + [session];
      }
    }

    method FillIndices(maxClients: nat)
      requires availableIndices == []
      modifies this`availableIndices
      ensures |availableIndices| == maxClients
      ensures forall i :: 0 <= i < maxClients ==> availableIndices[i] == i
    {
      for i := 0 to maxClients
        invariant |availableIndices| == i
        invariant forall k :: 0 <= k < i ==> availableIndices[k] == k
      {
        availableIndices := availableIndices + [i];
      }
    }

    method FindSession(sessionId: Int64) returns (session: Session?)
      requires Valid()
      ensures match Find(Slots(sessions), sessionId)
        case Some(i) => session == sessions[i]
        case None => session == null
    {
      var index, uniqueId := ExtractIndex(sessionId), ExtractUniqueId(sessionId);
      if index >= |sessions| {
        return null;
      }
      if ExtractUniqueId(sessions[index].sessionId) == uniqueId {
        return sessions[index];
      }
      return null;
    }

    /** Give slot i a new life under this id. */
    method InitializeSlot(i: nat, sessionId: Int64)
      requires Valid() && i < |sessions|
      modifies sessions[i]
      ensures Slots(sessions) == old(Slots(sessions))[i := Slot(sessionId, true, true)]
    {
      sessions[i].Initialize(sessionId);
    }

    /** Take the front index and the next counter value, and initialise the slot's session. */
    method BeginSession() returns (index: nat, sessionId: Int64)
      requires Valid() && sessionIdCounter < TWO48 && availableIndices != []
      modifies this`availableIndices, this`sessionIdCounter, this`issued, sessions
      ensures Valid() && index == old(availableIndices)[0] < |sessions|
      ensures sessionId == NextId(old(View())) && View() == Begun(old(View()))
    {
      index := availableIndices[0];
      availableIndices := availableIndices[1..];
      var uniqueId := sessionIdCounter % TWO48;
      sessionIdCounter := sessionIdCounter + 1;
      sessionId := MakeSessionId(index, uniqueId);
      issued := issued + [sessionId];
      InitializeSlot(index, sessionId);
    }

    /** Close the socket of slot i and put its index at the back of the free queue. */
    method GiveBack(i: nat)
      requires Valid() && i < |sessions|
      modifies this`availableIndices, sessions[i]
      ensures Valid() && View() == GivenBack(old(View()), i)
    {
      sessions[i].Close();
      availableIndices := availableIndices + [i];
      assert Slots(sessions) == old(Slots(sessions))[i := old(sessions[i].View()).(socketOpen := false)];
    }

    method Publish(sessionId: Int64)
      requires Valid()
      modifies this`published, eventQueue
      ensures Valid()
      ensures View() == old(View()).(queue := old(eventQueue.items) + [Connected(sessionId)],
                                     published := old(published) + {sessionId})
    {
      published := published + {sessionId};
      eventQueue.Push(Connected(sessionId));
    }

    method ProcessAccept(bindOk: bool)
      requires Valid() && sessionIdCounter < TWO48
      modifies this`availableIndices, this`sessionIdCounter, this`issued, this`published, sessions, eventQueue
      ensures Valid() && View() == Accepted(old(View()), bindOk)
    {
      if |availableIndices| == 0 {
        return;
      }
      var index, sessionId := BeginSession();
      if !bindOk {
        GiveBack(index);
        return;
      }
      Publish(sessionId);
    }

    /** What closing writes to the session of slot i itself. */
    method CloseSession(session: Session, ghost i: nat)
      requires Valid() && i < |sessions| && session == sessions[i]
      modifies session
      ensures Slots(sessions) == old(Slots(sessions))[i := Slot(session.sessionId, false, false)]
      ensures session.sessionId == old(session.sessionId) && !session.sending
    {
      session.valid := false;
      if session.socketOpen {
        session.socketOpen := false;
      }
      session.sending := false;
    }

    /** Close the session of slot i: exchange the valid flag, close the socket, hand over. */
    method DisconnectSessionInternal(session: Session, ghost i: nat) returns (won: bool)
      requires Valid() && i < |sessions| && session == sessions[i]
      modifies session, this`pendingDisconStack, eventQueue
      ensures Valid() && View() == Closed(old(View()), i)
      ensures won == old(session.valid) && session.sending == (old(session.sending) && !won)
    {
      if !session.valid {
        return false;
      }
      CloseSession(session, i);
      pendingDisconStack := pendingDisconStack + [session.sessionId];
      eventQueue.Push(Disconnected(session.sessionId));
      return true;
    }

    method RequestDisconnectSession(sessionId: Int64) returns (won: bool)
      requires Valid()
      modifies this`pendingDisconStack, sessions, eventQueue
      ensures Valid() && View() == ClosedById(old(View()), sessionId)
      ensures won <==> var found := Find(old(Slots(sessions)), sessionId);
        found.Some? && old(Slots(sessions))[found.value].valid
    {
      var session := FindSession(sessionId);
      if session == null {
        return false;
      }
      ghost var i := Find(Slots(sessions), sessionId).value;
      won := DisconnectSessionInternal(session, i);
    }

    method PopPending() returns (sessionId: Int64)
      requires Valid() && pendingDisconStack != []
      modifies this`pendingDisconStack
      ensures Valid() && sessionId == old(pendingDisconStack)[|old(pendingDisconStack)| - 1]
      ensures View() == old(View()).(pending := old(pendingDisconStack)[..|old(pendingDisconStack)| - 1])
    {
      sessionId := pendingDisconStack[|pendingDisconStack| - 1];
      pendingDisconStack := pendingDisconStack[..|pendingDisconStack| - 1];
    }

    /** Pop the top of the pending stack and give its index back. */
    method ReleaseTop()
      requires Valid() && pendingDisconStack != []
      modifies this`pendingDisconStack, this`availableIndices, sessions
      ensures Valid() && View() == ReleasedTop(old(View()))
    {
      var sessionId := PopPending();
      var session := FindSession(sessionId);
      if session != null {
        GiveBack(ExtractIndex(sessionId));
      }
    }

    method ReleaseSession()
      requires Valid()
      modifies this`pendingDisconStack, this`availableIndices, sessions
      ensures Valid() && View() == Released(old(View()))
    {
      while pendingDisconStack != []
        invariant Valid() && sessions == old(sessions)
        invariant Released(View()) == Released(old(View()))
        decreases |pendingDisconStack|
      {
        ReleaseTop();
      }
    }

    /** PushNetworkEvent for a packet parsed on slot i's session. */
    method PushReceived(session: Session, ghost i: nat, data: seq<Byte>)
      requires Valid() && i < |sessions| && session == sessions[i]
      modifies eventQueue
      ensures View() == Delivered(old(View()), i, data)
    {
      eventQueue.Push(Received(session.sessionId, data));
    }

    method PopNetworkEvent() returns (e: Option<Event>)
      requires Valid()
      modifies this`past, eventQueue
      ensures Valid()
      ensures old(eventQueue.items) == [] ==> e == None && View() == old(View())
      ensures old(eventQueue.items) != [] ==>
        && e == Some(old(eventQueue.items)[0])
        && View() == old(View()).(queue := old(eventQueue.items)[1..], past := old(past) + [e.value])
    {
      e := eventQueue.TryPop();
      if e.Some? {
        past := past + [e.value];
      }
    }
  }

  class CentralizedServer {
    const networkServer: NetworkServer
    var players: map<Int64, Player>

    ghost function View(): World
      reads this, networkServer, networkServer.sessions, networkServer.eventQueue
    {
      World(networkServer.View(), players)
    }

    constructor (networkServer: NetworkServer)
      ensures this.networkServer == networkServer && players == map[]
    {
      this.networkServer := networkServer;
      this.players := map[];
    }

    method DispatchClientConnected(sessionId: Int64)
      modifies this`players
      ensures players == Dispatched(old(players), Connected(sessionId)).0
    {
      players := players[sessionId := Player(sessionId)];
    }

    method DispatchClientDisconnected(sessionId: Int64) returns (outcome: Outcome)
      modifies this`players
      ensures (players, outcome) == Dispatched(old(players), Disconnected(sessionId))
    {
      if sessionId !in players {
        return UnknownPlayer;
      }
      players := players - {sessionId};
      return Removed;
    }

    method DispatchDataReceived(sessionId: Int64, data: seq<Byte>) returns (outcome: Outcome)
      ensures (players, outcome) == Dispatched(players, Received(sessionId, data))
    {
      if sessionId !in players {
        return UnknownPlayer;
      }
      if |data| < HEADER_SIZE {
        return TooShort;
      }
      if SizeField(data) != |data| {
        return SizeMismatch;
      }
      return Handled;
    }

    /** One turn of the loop: pop an event and dispatch it, unless there is none. */
    method DispatchNext() returns (popped: bool)
      requires networkServer.Valid()
      modifies this`players, networkServer`past, networkServer.eventQueue
      ensures networkServer.Valid() && popped == (old(networkServer.eventQueue.items) != [])
      ensures View() == if popped then DispatchedOne(old(View())) else old(View())
    {
      var e := networkServer.PopNetworkEvent();
      popped := e.Some?;
      match e
      case None =>
      case Some(Connected(id)) => DispatchClientConnected(id);
      case Some(Disconnected(id)) => var _ := DispatchClientDisconnected(id);
      case Some(Received(id, data)) => var _ := DispatchDataReceived(id, data);
    }

    /** The inner loop of GameLogicThread. */
    method DispatchEvents()
      requires networkServer.Valid()
      modifies this`players, networkServer`past, networkServer.eventQueue
      ensures networkServer.Valid() && View() == DispatchedAll(old(View()))
      ensures networkServer.eventQueue.items == []
    {
      var more := true;
      while more
        invariant networkServer.Valid()
        invariant DispatchedAll(View()) == DispatchedAll(old(View()))
        invariant !more ==> networkServer.eventQueue.items == []
        decreases more, |networkServer.eventQueue.items|
      {
        more := DispatchNext();
      }
    }
  }
}
