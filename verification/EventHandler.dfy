/** The event handler thread's own state: the tables of its connections, and the loop that dispatches what is due. */
module EventHandlers {
  import opened Events
  import opened Connections
  import opened ConnectionIndex
  import opened EventQueues
  import S = Signalling

  /** operator[] on a map: a missing entry reads as zero. */
  function Entry(m: map<int, int>, id: int): int { if id in m then m[id] else 0 }

  /** The counters after `n` pulls in a row, and how many of them sent a signal. */
  function Pulls(quota: nat, c: S.Counters, n: nat): (S.Counters, nat)
    requires 10 <= quota
  {
    if n == 0 then (c, 0)
    else
      var (c', sent) := Pulls(quota, c, n - 1);
      var (c'', signal) := S.AfterPull(quota, c');
      (c'', if signal then sent + 1 else sent)
  }

  /** What happens to the handler: an event arrives in its queue, it takes a turn, or a client connects. */
  datatype Activity =
    | Arrival(e: Event)
    | Turn(now: int, sockets: seq<Option<int>>)
    | Accept(fd: int, nonBlocking: bool, peer: SockAddr, local: Option<SockAddr>, at: int)

  /** The descriptors that the kernel hands out; an accept that failed leaves none that can be made non-blocking. */
  function Given(a: Activity): seq<Option<int>> {
    match a
    case Arrival(_) => []
    case Turn(_, sockets) => sockets
    case Accept(fd, nonBlocking, _, _, _) => [if nonBlocking then Some(fd) else None]
  }

  function AllGiven(acts: seq<Activity>): seq<Option<int>> {
    if acts == [] then [] else Given(acts[0]) + AllGiven(acts[1..])
  }

  function Arrived(acts: seq<Activity>): seq<Event> {
    if acts == [] then []
    else (if acts[0].Arrival? then [acts[0].e] else []) + Arrived(acts[1..])
  }

  /** Results of successive attempts to connect: a new descriptor, or none. */
  ghost predicate FreshSockets(sockets: seq<Option<int>>, from: nat, used: map<int, int>) {
    && (forall i | from <= i < |sockets| && sockets[i].Some? :: forall id | id in used :: used[id] != sockets[i].value)
    && (forall i, j | from <= i < j < |sockets| && sockets[i].Some? && sockets[j].Some? ::
          sockets[i].value != sockets[j].value)
  }

  /** Every descriptor in use is one that was used before, or one of those just tried. */
  ghost predicate SocketsFrom(used0: map<int, int>, tried: seq<Option<int>>, used: map<int, int>) {
    forall id | id in used :: (id in used0 && used0[id] == used[id]) || Some(used[id]) in tried
  }

  lemma OneSocketUsed(sockets: seq<Option<int>>, done: nat, used0: map<int, int>, used: map<int, int>, id: int)
    requires FreshSockets(sockets, done, used) && SocketsFrom(used0, sockets, used)
    ensures FreshSockets(sockets, done + 1, used)
    ensures done < |sockets| && sockets[done].Some? ==>
              var used' := used[id := sockets[done].value];
              FreshSockets(sockets, done + 1, used') && SocketsFrom(used0, sockets, used')
  {
  }

  lemma SocketIsFresh(sockets: seq<Option<int>>, done: nat, used: map<int, int>)
    requires FreshSockets(sockets, done, used) && done < |sockets| && sockets[done].Some?
    ensures forall id | id in used :: used[id] != sockets[done].value
  {
  }

  lemma NothingOpened(tried: seq<Option<int>>, used: map<int, int>)
    ensures SocketsFrom(used, tried, used)
  {
  }

  /** Descriptors that differ from each other and from those in use still do after some of them were put to use. */
  lemma StillFresh(used0: map<int, int>, a: seq<Option<int>>, b: seq<Option<int>>, used: map<int, int>)
    requires FreshSockets(a + b, 0, used0) && SocketsFrom(used0, a, used)
    ensures FreshSockets(b, 0, used)
  {
    var all := a + b;
    forall i, id | 0 <= i < |b| && b[i].Some? && id in used ensures used[id] != b[i].value {
      assert all[|a| + i] == b[i];
      if Some(used[id]) in a {
        var k :| 0 <= k < |a| && a[k] == Some(used[id]);
        assert all[k] == a[k];
      }
    }
    forall i, j | 0 <= i < j < |b| && b[i].Some? && b[j].Some? ensures b[i].value != b[j].value {
      assert all[|a| + i] == b[i] && all[|a| + j] == b[j];
    }
  }

  lemma FreshFirst(a: seq<Option<int>>, b: seq<Option<int>>, used: map<int, int>)
    requires FreshSockets(a + b, 0, used)
    ensures FreshSockets(a, 0, used)
  {
    var all := a + b;
    assert forall i | 0 <= i < |a| :: all[i] == a[i];
  }

  lemma OneFresh(fd: Option<int>, used: map<int, int>)
    requires FreshSockets([fd], 0, used) && fd.Some?
    ensures forall id | id in used :: used[id] != fd.value
  {
    var all := [fd];
    assert all[0].Some?;
  }

  lemma FirstAndLater(queue: seq<Event>, done: nat, e: Event, later: seq<Event>)
    requires done < |queue| && queue[done..] == [e] + later
    ensures e == queue[done] && later == queue[done + 1..]
  {
    assert queue[done..][0] == e && queue[done..][1..] == later;
  }

  lemma Rejoin(d: seq<Event>, queue: seq<Event>, k: nat)
    requires k <= |queue|
    ensures d + queue[..k] + queue[k..] == d + queue
  {
  }

  lemma ArrivedSplits(acts: seq<Activity>)
    requires acts != []
    ensures Arrived(acts) == Arrived([acts[0]]) + Arrived(acts[1..])
  {
    assert [acts[0]][1..] == [];
  }

  /** The state an event has its effect on: `recv` and `send` are what is pending, `last` when the last event ended. */
  datatype Desk = Desk(
    sockfds: map<int, int>, conns: map<int, int>, recv: map<int, int>, send: map<int, int>, last: map<int, int>,
    sendReq: seq<Event>, aside: multiset<Event>)

  /** The connection has a socket, nothing more to receive, and `delta` has passed since its last event. */
  predicate Idle(d: Desk, id: int, delta: int, now: int) {
    id in d.conns && Entry(d.recv, id) <= 0 && (id in d.last ==> now - d.last[id] >= delta)
  }

  /**
   What one event does to all tables. Connecting registers the new socket. A WAIT adds to what is to be received. A SEND
   adds its bytes to what is pending before it asks whether nothing is pending: it is passed on only when that leaves
   nothing, and put aside otherwise.
   */
  ghost predicate Effect(configured: ConnectionMap, d: Desk, job: Event, now: int, socket: Option<int>, d': Desk) {
    var id, connects := job.connID, job.kind == CONNECT && job.connID in configured && socket.Some?;
    var pending := Entry(d.send, id) + job.value;
    && d'.sockfds == (if connects then d.sockfds[socket.value := id] else d.sockfds)
    && d'.conns == (if connects then d.conns[id := socket.value] else d.conns)
    && d'.last == (if connects then d.last[id := now] else d.last)
    && d'.recv == (if connects then d.recv[id := 0]
                   else if job.kind == WAIT then d.recv[id := Entry(d.recv, id) + job.value]
                   else d.recv)
    && d'.send == (if connects then d.send[id := 0] else if job.kind == SEND then d.send[id := pending] else d.send)
    && (if job.kind == SEND && pending <= 0 && Idle(d, id, job.gap, now)
        then d'.sendReq == d.sendReq + [job] && d'.aside == d.aside
        else d'.sendReq == d.sendReq && d'.aside == d.aside + (if job.kind == SEND then multiset{job} else multiset{}))
  }

  lemma SocketsAfter(configured: ConnectionMap, d: Desk, job: Event, now: int, socket: Option<int>, d': Desk)
    requires Effect(configured, d, job, now, socket, d')
    ensures d'.conns == d.conns || (socket.Some? && d'.conns == d.conns[job.connID := socket.value])
  {
  }

  class EventHandler {
    const quota: nat                                // maxQueuedFileEvents
    const connIDToConnectionMap: ConnectionMap      // as configured
    const incomingFileEvents: EventQueue
    const waitHeap: EventHeap

    var fileEventsHandledCount: nat
    var lastEventCountWhenRequestingForMore: nat
    var signals: nat                                // sendSignal calls on requestMoreFileEvents
    var nextEventTime: int                          // what loop keeps from turn to turn
    var dispatched: seq<Event>                      // calls of dispatch from the pull loop
    var sendReq: seq<Event>                         // what was passed to sendReq->addEvent

    var strToConnID: map<string, int>
    var sockfdToConnIDMap: map<int, int>
    var connToSockfdIDMap: map<int, int>
    var connToWaitingToRecv: map<int, int>
    var connToWaitingToSend: map<int, int>
    var connToLastCompletedEvent: map<int, int>
    var connToEventQueue: map<int, EventQueue>

    function Counters(): S.Counters
      reads this`fileEventsHandledCount, this`lastEventCountWhenRequestingForMore
    {
      S.Counters(fileEventsHandledCount, lastEventCountWhenRequestingForMore)
    }

    /**
     Every connection that has a socket is a configured one, its socket leads back to it, and every other table has an
     entry for it.
     */
    ghost predicate Registered(id: int)
      reads this`sockfdToConnIDMap, this`connToSockfdIDMap, this`connToWaitingToRecv, this`connToWaitingToSend,
            this`connToLastCompletedEvent, this`connToEventQueue
      requires id in connToSockfdIDMap
    {
      && id in connIDToConnectionMap
      && connToSockfdIDMap[id] in sockfdToConnIDMap && sockfdToConnIDMap[connToSockfdIDMap[id]] == id
      && id in connToWaitingToRecv && id in connToWaitingToSend
      && id in connToLastCompletedEvent && id in connToEventQueue
    }

    ghost predicate Tables()
      reads this`sockfdToConnIDMap, this`connToSockfdIDMap, this`connToWaitingToRecv, this`connToWaitingToSend,
            this`connToLastCompletedEvent, this`connToEventQueue
    {
      forall id | id in connToSockfdIDMap :: Registered(id)
    }

    /** startup has entered the configured connections. */
    ghost predicate Started()
      reads this`strToConnID
    {
      Indexes(strToConnID, connIDToConnectionMap, connIDToConnectionMap.Keys)
    }

    /** The configured connection `id` has these two ends. */
    ghost predicate Joins(id: int, peer: SockAddr, local: SockAddr) {
      id in connIDToConnectionMap && SamePair(connIDToConnectionMap[id], ConnectionPair(peer, local))
    }

    constructor (quota: nat, conns: ConnectionMap, queue: EventQueue)
      requires queue.Valid()
      ensures this.quota == quota && connIDToConnectionMap == conns && incomingFileEvents == queue
      ensures Tables() && Counters() == S.START && dispatched == [] && signals == 0 && connToSockfdIDMap == map[]
      ensures fresh(waitHeap) && nextEventTime == -1
    {
      this.quota, connIDToConnectionMap, incomingFileEvents := quota, conns, queue;
      waitHeap := new EventHeap();
      fileEventsHandledCount, lastEventCountWhenRequestingForMore, signals, nextEventTime := 0, 0, 0, -1;
      dispatched, sendReq := [], [];
      strToConnID, sockfdToConnIDMap, connToSockfdIDMap := map[], map[], map[];
      connToWaitingToRecv, connToWaitingToSend := map[], map[];
      connToLastCompletedEvent, connToEventQueue := map[], map[];
    }

    method Startup()
      modifies this`strToConnID
      ensures Started()
    {
      strToConnID := BuildIndex(connIDToConnectionMap);
    }

    /** Socket `fd` is entered for connection `id` in all tables: nothing is pending, and its last event ends now. */
    twostate predicate Registers(id: int, fd: int, now: int)
      reads this
    {
      && sockfdToConnIDMap == old(sockfdToConnIDMap)[fd := id]
      && connToSockfdIDMap == old(connToSockfdIDMap)[id := fd]
      && connToWaitingToRecv == old(connToWaitingToRecv)[id := 0]
      && connToWaitingToSend == old(connToWaitingToSend)[id := 0]
      && connToLastCompletedEvent == old(connToLastCompletedEvent)[id := now]
      && connToEventQueue.Keys == old(connToEventQueue).Keys + {id}
    }

    twostate predicate TablesUntouched()
      reads this
    {
      && sockfdToConnIDMap == old(sockfdToConnIDMap) && connToSockfdIDMap == old(connToSockfdIDMap)
      && connToWaitingToRecv == old(connToWaitingToRecv) && connToWaitingToSend == old(connToWaitingToSend)
      && connToLastCompletedEvent == old(connToLastCompletedEvent) && connToEventQueue == old(connToEventQueue)
    }

    /** Records a new socket for a connection, with a new queue. */
    method NewConnectionUpdate(sockfd: int, connID: int, now: int)
      requires Tables() && connID in connIDToConnectionMap
      requires forall id | id in connToSockfdIDMap :: connToSockfdIDMap[id] != sockfd
      modifies this`sockfdToConnIDMap, this`connToSockfdIDMap, this`connToWaitingToRecv, this`connToWaitingToSend,
               this`connToLastCompletedEvent, this`connToEventQueue
      ensures Tables() && Registers(connID, sockfd, now) && fresh(connToEventQueue[connID])
    {
      var queue := new EventQueue();
      sockfdToConnIDMap := sockfdToConnIDMap[sockfd := connID];
      connToSockfdIDMap := connToSockfdIDMap[connID := sockfd];
      connToWaitingToRecv := connToWaitingToRecv[connID := 0];
      connToWaitingToSend := connToWaitingToSend[connID := 0];
      connToLastCompletedEvent := connToLastCompletedEvent[connID := now];
      connToEventQueue := connToEventQueue[connID := queue];
      forall id | id in connToSockfdIDMap ensures Registered(id) {
        assert id == connID || (id in old(connToSockfdIDMap) && old(Registered(id)));
      }
    }

    /**
     A client connected: registers the socket under the connection whose configured ends compare equal to the socket's,
     and does nothing when there is none or when the kernel reports a failure (`local` is None when getsockname fails).
     */
    method AcceptNewConnection(newSockfd: int, nonBlocking: bool, peer: SockAddr, local: Option<SockAddr>, now: int)
      requires Tables() && Started()
      requires nonBlocking ==> forall id | id in connToSockfdIDMap :: connToSockfdIDMap[id] != newSockfd
      modifies this`sockfdToConnIDMap, this`connToSockfdIDMap, this`connToWaitingToRecv, this`connToWaitingToSend,
               this`connToLastCompletedEvent, this`connToEventQueue
      ensures Tables()
      ensures || TablesUntouched()
              || (nonBlocking && exists id :: id in connIDToConnectionMap && Registers(id, newSockfd, now))
      ensures !nonBlocking || local.None? ==> TablesUntouched()
      ensures && nonBlocking && local.Some?
              && AllIPv4(connIDToConnectionMap) && peer.family == local.value.family == AF_INET ==>
                if exists id :: Joins(id, peer, local.value)
                then exists id :: Joins(id, peer, local.value) && Registers(id, newSockfd, now)
                else TablesUntouched()
      ensures && nonBlocking && local.Some?
              && AllIPv4(connIDToConnectionMap) && peer.family == local.value.family == AF_INET ==>
                if exists id :: && id in connIDToConnectionMap
                                && connIDToConnectionMap[id] == ConnectionPair(peer, local.value)
                then exists id :: && id in connIDToConnectionMap
                                  && connIDToConnectionMap[id] == ConnectionPair(peer, local.value)
                                  && Registers(id, newSockfd, now)
                else TablesUntouched()
    {
      hide ConnString, SamePair, AllIPv4, Indexes, Joins;
      if !nonBlocking { return; }
      if local.None? { return; }
      var connString := ConnString(peer, local.value);
      if AllIPv4(connIDToConnectionMap) && peer.family == local.value.family == AF_INET {
        LookupJoins(peer, local.value);
        JoinsIsEquality(peer, local.value);
      }
      if connString !in strToConnID { return; }
      var connID := strToConnID[connString];
      IndexedIsConfigured(connString);
      NewConnectionUpdate(newSockfd, connID, now);
    }

    lemma JoinsIsEquality(peer: SockAddr, local: SockAddr)
      ensures forall id :: Joins(id, peer, local) <==>
                id in connIDToConnectionMap && connIDToConnectionMap[id] == ConnectionPair(peer, local)
    {
      forall id | id in connIDToConnectionMap
        ensures Joins(id, peer, local) <==> connIDToConnectionMap[id] == ConnectionPair(peer, local)
      {
        CmpIsEquality(connIDToConnectionMap[id].src, peer);
        CmpIsEquality(connIDToConnectionMap[id].dst, local);
      }
    }

    lemma LookupJoins(peer: SockAddr, local: SockAddr)
      requires Started() && AllIPv4(connIDToConnectionMap) && peer.family == local.family == AF_INET
      ensures var s := ConnString(peer, local);
              && (s in strToConnID <==> exists id :: Joins(id, peer, local))
              && (s in strToConnID ==> Joins(strToConnID[s], peer, local))
    {
      hide ConnString, SamePair, AllIPv4;
      LookupAgreesWithScan(strToConnID, connIDToConnectionMap, peer, local);
      var s := ConnString(peer, local);
      if s in strToConnID {
        assert Joins(strToConnID[s], peer, local);
      }
      forall id | Joins(id, peer, local) ensures s in strToConnID {
        assert id in connIDToConnectionMap && SamePair(connIDToConnectionMap[id], ConnectionPair(peer, local));
      }
    }

    lemma IndexedIsConfigured(s: string)
      requires Started() && s in strToConnID
      ensures strToConnID[s] in connIDToConnectionMap
    {
    }

    /** A connection may take its next event when it has a socket, nothing pending, and waited long enough. */
    predicate ReadyForEvent(connID: int, delta: int, now: int)
      reads this`connToSockfdIDMap, this`connToWaitingToRecv, this`connToWaitingToSend, this`connToLastCompletedEvent
    {
      && connID in connToSockfdIDMap
      && (connID in connToWaitingToRecv ==> connToWaitingToRecv[connID] <= 0)
      && (connID in connToWaitingToSend ==> connToWaitingToSend[connID] <= 0)
      && (connID in connToLastCompletedEvent ==> now - connToLastCompletedEvent[connID] >= delta)
    }

    /** The tables, with what was passed on to be sent and what was put aside. */
    ghost function OnDesk(): Desk
      reads this`sockfdToConnIDMap, this`connToSockfdIDMap, this`connToWaitingToRecv, this`connToWaitingToSend,
            this`connToLastCompletedEvent, this`sendReq, waitHeap
    {
      Desk.Desk(sockfdToConnIDMap, connToSockfdIDMap, connToWaitingToRecv, connToWaitingToSend,
                connToLastCompletedEvent, sendReq, waitHeap.events)
    }

    /** A SEND: passed on when nothing is pending with its own bytes counted, and put aside otherwise. */
    method Send(job: Event, now: int, ghost socket: Option<int>)
      requires Tables() && job.kind == SEND
      modifies this`connToWaitingToSend, this`sendReq, waitHeap
      ensures Tables() && Effect(connIDToConnectionMap, old(OnDesk()), job, now, socket, OnDesk())
      ensures var id, pending := job.connID, old(Entry(connToWaitingToSend, job.connID)) + job.value;
              var passes := && id in connToSockfdIDMap && pending <= 0
                            && connToWaitingToRecv[id] <= 0 && job.gap <= now - connToLastCompletedEvent[id];
              && connToWaitingToSend == old(connToWaitingToSend)[id := pending]
              && sendReq == old(sendReq) + (if passes then [job] else [])
              && waitHeap.events == old(waitHeap.events) + (if passes then multiset{} else multiset{job})
    {
      connToWaitingToSend := connToWaitingToSend[job.connID := Entry(connToWaitingToSend, job.connID) + job.value];
      if ReadyForEvent(job.connID, job.gap, now) {
        sendReq := sendReq + [job];
      } else {
        waitHeap.AddEvent(job);
      }
    }

    /** A WAIT: the connection has more to receive. */
    method Await(job: Event, now: int, ghost socket: Option<int>)
      requires Tables() && job.kind == WAIT
      modifies this`connToWaitingToRecv
      ensures Tables() && Effect(connIDToConnectionMap, old(OnDesk()), job, now, socket, OnDesk())
      ensures && job.connID in connToWaitingToRecv
              && connToWaitingToRecv[job.connID] == job.value
                 + (if job.connID in old(connToWaitingToRecv) then old(connToWaitingToRecv)[job.connID] else 0)
    {
      connToWaitingToRecv := connToWaitingToRecv[job.connID := Entry(connToWaitingToRecv, job.connID) + job.value];
    }

    /** A CONNECT: the new socket is registered, when the connection is configured and connect succeeds. */
    method Connect(job: Event, now: int, socket: Option<int>)
      requires Tables() && job.kind == CONNECT
      requires socket.Some? ==> forall id | id in connToSockfdIDMap :: connToSockfdIDMap[id] != socket.value
      modifies this`sockfdToConnIDMap, this`connToSockfdIDMap, this`connToWaitingToRecv, this`connToWaitingToSend,
               this`connToLastCompletedEvent, this`connToEventQueue
      ensures Tables() && Effect(connIDToConnectionMap, old(OnDesk()), job, now, socket, OnDesk())
      ensures if job.connID in connIDToConnectionMap && socket.Some? then Registers(job.connID, socket.value, now)
              else TablesUntouched()
    {
      hide Tables;
      if job.connID in connIDToConnectionMap {
        if socket.None? { return; }
        NewConnectionUpdate(socket.value, job.connID, now);
      }
    }

    lemma NoEffect(job: Event, now: int, socket: Option<int>)
      requires job.kind !in {WAIT, CONNECT, SEND}
      ensures Effect(connIDToConnectionMap, OnDesk(), job, now, socket, OnDesk())
    {
    }

    method Dispatch(job: Event, now: int, socket: Option<int>)
      requires Tables()
      requires socket.Some? ==> forall id | id in connToSockfdIDMap :: connToSockfdIDMap[id] != socket.value
      modifies this`sockfdToConnIDMap, this`connToSockfdIDMap, this`connToWaitingToRecv, this`connToWaitingToSend,
               this`connToLastCompletedEvent, this`connToEventQueue, this`sendReq, waitHeap
      ensures Tables() && Effect(connIDToConnectionMap, old(OnDesk()), job, now, socket, OnDesk())
      ensures job.kind == CONNECT && job.connID in connIDToConnectionMap && socket.Some? ==>
                Registers(job.connID, socket.value, now)
      ensures job.kind == CONNECT && (job.connID !in connIDToConnectionMap || socket.None?) ==> TablesUntouched()
      ensures job.kind == WAIT ==>
                && job.connID in connToWaitingToRecv
                && connToWaitingToRecv[job.connID] == job.value
                   + (if job.connID in old(connToWaitingToRecv) then old(connToWaitingToRecv)[job.connID] else 0)
      ensures && job.kind == SEND && 0 < job.value
              && (job.connID in old(connToWaitingToSend) ==> 0 <= old(connToWaitingToSend)[job.connID]) ==>
                sendReq == old(sendReq) && waitHeap.events == old(waitHeap.events) + multiset{job}
    {
      hide Tables, Effect;
      match job.kind {
        case WAIT => Await(job, now, socket);
        case CONNECT => Connect(job, now, socket);
        case SEND => Send(job, now, socket);
        case _ => NoEffect(job, now, socket);
      }
    }

    /** Counts a pull, and asks for more when it is time to. */
    method CountPull()
      requires 10 <= quota
      modifies this`fileEventsHandledCount, this`lastEventCountWhenRequestingForMore, this`signals
      ensures var (c, sent) := S.AfterPull(quota, old(Counters()));
              Counters() == c && signals == old(signals) + (if sent then 1 else 0)
      ensures fileEventsHandledCount == old(fileEventsHandledCount) + 1
      ensures if && fileEventsHandledCount % (quota / 10) == 0
                 && fileEventsHandledCount != old(lastEventCountWhenRequestingForMore)
              then signals == old(signals) + 1 && lastEventCountWhenRequestingForMore == fileEventsHandledCount
              else signals == old(signals)
                   && lastEventCountWhenRequestingForMore == old(lastEventCountWhenRequestingForMore)
    {
      fileEventsHandledCount := fileEventsHandledCount + 1;
      if fileEventsHandledCount % S.Share(quota) == 0 && lastEventCountWhenRequestingForMore != fileEventsHandledCount {
        lastEventCountWhenRequestingForMore := fileEventsHandledCount;
        signals := signals + 1;
      }
    }

    /** One successful pull: it is counted and dispatched. */
    method HandlePulled(job: Event, now: int, socket: Option<int>)
      requires 10 <= quota && Tables()
      requires socket.Some? ==> forall id | id in connToSockfdIDMap :: connToSockfdIDMap[id] != socket.value
      modifies this, waitHeap
      ensures Tables() && strToConnID == old(strToConnID)
      ensures Effect(connIDToConnectionMap, old(OnDesk()), job, now, socket, OnDesk())
      ensures || connToSockfdIDMap == old(connToSockfdIDMap)
              || (socket.Some? && connToSockfdIDMap == old(connToSockfdIDMap)[job.connID := socket.value])
      ensures dispatched == old(dispatched) + [job]
      ensures var (c, sent) := S.AfterPull(quota, old(Counters()));
              Counters() == c && signals == old(signals) + (if sent then 1 else 0)
      ensures fileEventsHandledCount == old(fileEventsHandledCount) + 1
    {
      hide Registered, S.AfterPull, Tables, Effect;
      ghost var desk := OnDesk();
      CountPull();
      dispatched := dispatched + [job];
      Dispatch(job, now, socket);
      SocketsAfter(connIDToConnectionMap, desk, job, now, socket, OnDesk());
    }

    /** After `done` pulls from `queue` by a handler that had dispatched `d0`, counted `c0` and sent `s0` signals. */
    ghost predicate Pulled(queue: seq<Event>, done: nat, d0: seq<Event>, c0: S.Counters, s0: nat)
      requires 10 <= quota && done <= |queue|
      reads this`dispatched, this`signals, this`fileEventsHandledCount, this`lastEventCountWhenRequestingForMore
    {
      && dispatched == d0 + queue[..done]
      && (Counters(), signals) == (Pulls(quota, c0, done).0, s0 + Pulls(quota, c0, done).1)
    }

    /** The body of the pull loop. */
    method PullOne(now: int, sockets: seq<Option<int>>, done: nat, ghost used0: map<int, int>,
                   ghost queue: seq<Event>, ghost d0: seq<Event>, ghost c0: S.Counters, ghost s0: nat)
      returns (nextEventTime: int)
      requires 10 <= quota && Tables() && incomingFileEvents.Valid()
      requires done < |queue| && incomingFileEvents.Contents() == queue[done..]
      requires Pulled(queue, done, d0, c0, s0)
      requires FreshSockets(sockets, done, connToSockfdIDMap) && SocketsFrom(used0, sockets, connToSockfdIDMap)
      modifies this, waitHeap, incomingFileEvents`divider, incomingFileEvents`d
      ensures Tables() && incomingFileEvents.Valid() && incomingFileEvents.Contents() == queue[done + 1..]
      ensures Pulled(queue, done + 1, d0, c0, s0) && fileEventsHandledCount == old(fileEventsHandledCount) + 1
      ensures FreshSockets(sockets, done + 1, connToSockfdIDMap) && SocketsFrom(used0, sockets, connToSockfdIDMap)
      ensures strToConnID == old(strToConnID)
      ensures nextEventTime == if done + 1 == |queue| then -1 else queue[done + 1].time
    {
      hide Registered, S.AfterPull, EventQueue.Valid, EventQueue.Contents, Tables, FreshSockets, SocketsFrom, Effect;
      ghost var used := connToSockfdIDMap;
      var ok, job := incomingFileEvents.GetEvent();
      FirstAndLater(queue, done, job.value, incomingFileEvents.Contents());
      OneSocketUsed(sockets, done, used0, used, job.value.connID);
      var socket := if done < |sockets| then sockets[done] else None;
      if socket.Some? {
        SocketIsFresh(sockets, done, used);
      }
      HandlePulled(job.value, now, socket);
      assert d0 + queue[..done] + [queue[done]] == d0 + queue[..done + 1];
      nextEventTime := incomingFileEvents.NextEventTime();
    }

    lemma DueStep(queue: seq<Event>, done: nat, now: int)
      requires done <= |queue| && DueCount(queue, now) == done + DueCount(queue[done..], now)
      ensures if done < |queue| && 0 <= queue[done].time <= now
              then DueCount(queue, now) == done + 1 + DueCount(queue[done + 1..], now)
              else DueCount(queue, now) == done
    {
      if done < |queue| {
        assert queue[done..][1..] == queue[done + 1..];
      }
    }

    /** A time that loop kept is that of the event at the front of the queue. */
    ghost predicate Keeps()
      reads this`nextEventTime, incomingFileEvents, incomingFileEvents.chain
      requires incomingFileEvents.Valid()
    {
      0 <= nextEventTime ==>
        incomingFileEvents.Contents() != [] && incomingFileEvents.Contents()[0].time == nextEventTime
    }

    /** The beginning of loop. */
    method AskFirst()
      requires incomingFileEvents.Valid()
      modifies this`nextEventTime
      ensures Keeps()
      ensures nextEventTime == if incomingFileEvents.Contents() == [] then -1 else incomingFileEvents.Contents()[0].time
    {
      nextEventTime := incomingFileEvents.NextEventTime();
    }

    /** How many events a turn dispatches from `queue`: none when it begins with no time kept. */
    static function Pullable(next: int, queue: seq<Event>, now: int): (k: nat)
      ensures k <= |queue|
    {
      if next < 0 then 0 else DueCount(queue, now)
    }

    /** The pull loop of one turn. */
    method PullWhileDue(now: int, sockets: seq<Option<int>>)
      requires 10 <= quota && Tables() && incomingFileEvents.Valid() && Keeps()
      requires FreshSockets(sockets, 0, connToSockfdIDMap)
      modifies this, waitHeap, incomingFileEvents`divider, incomingFileEvents`d
      ensures Tables() && incomingFileEvents.Valid()
      ensures strToConnID == old(strToConnID) && SocketsFrom(old(connToSockfdIDMap), sockets, connToSockfdIDMap)
      ensures var queue := old(incomingFileEvents.Contents());
              var k := Pullable(old(nextEventTime), queue, now);
              && incomingFileEvents.Contents() == queue[k..]
              && Pulled(queue, k, old(dispatched), old(Counters()), old(signals))
              && fileEventsHandledCount == old(fileEventsHandledCount) + k
              && (0 <= nextEventTime ==> k < |queue| && nextEventTime == queue[k].time)
    {
      hide DueCount, FreshSockets, SocketsFrom, Tables, EventQueue.Valid, EventQueue.Contents;
      ghost var queue, d0, c0, s0 := incomingFileEvents.Contents(), dispatched, Counters(), signals;
      ghost var used0, next0 := connToSockfdIDMap, nextEventTime;
      NothingOpened(sockets, used0);
      var done := 0;
      assert queue[0..] == queue;
      while nextEventTime <= now && nextEventTime >= 0
        invariant Tables() && incomingFileEvents.Valid()
        invariant done <= |queue| && incomingFileEvents.Contents() == queue[done..]
        invariant DueCount(queue, now) == done + DueCount(queue[done..], now)
        invariant 0 <= next0 ==> nextEventTime == if done == |queue| then -1 else queue[done].time
        invariant next0 < 0 ==> done == 0 && nextEventTime == next0
        invariant Pulled(queue, done, d0, c0, s0) && FreshSockets(sockets, done, connToSockfdIDMap)
        invariant fileEventsHandledCount == old(fileEventsHandledCount) + done
        invariant strToConnID == old(strToConnID) && SocketsFrom(used0, sockets, connToSockfdIDMap)
        decreases |queue| - done
      {
        DueStep(queue, done, now);
        nextEventTime := PullOne(now, sockets, done, used0, queue, d0, c0, s0);
        done := done + 1;
      }
      DueStep(queue, done, now);
    }

    /**
     One turn, as far as the queue of file events goes: the pull loop, the test on the counter, and another look at
     the queue when it was found empty. A turn that begins with no time kept dispatches nothing; any other dispatches
     exactly the events at the front of the queue that are due, in order. The first that is not due is the next.
     `sockets` are the outcomes of successive connects, and once they are used up no connect succeeds.
     */
    method PullDue(now: int, sockets: seq<Option<int>>)
      requires 10 <= quota && Tables() && incomingFileEvents.Valid() && Keeps()
      requires FreshSockets(sockets, 0, connToSockfdIDMap)
      modifies this, waitHeap, incomingFileEvents`divider, incomingFileEvents`d
      ensures Tables() && incomingFileEvents.Valid() && Keeps()
      ensures strToConnID == old(strToConnID) && SocketsFrom(old(connToSockfdIDMap), sockets, connToSockfdIDMap)
      ensures var queue := old(incomingFileEvents.Contents());
              var k := Pullable(old(nextEventTime), queue, now);
              && dispatched == old(dispatched) + queue[..k]
              && incomingFileEvents.Contents() == queue[k..]
              && nextEventTime == (if k == |queue| then -1 else queue[k].time)
              && Counters() == S.AfterPass(quota, Pulls(quota, old(Counters()), k).0).0
              && signals == old(signals) + Pulls(quota, old(Counters()), k).1
              && fileEventsHandledCount
                 == (if old(fileEventsHandledCount) + k <= quota / 2 then old(fileEventsHandledCount) + k else 0)
              && lastEventCountWhenRequestingForMore == Pulls(quota, old(Counters()), k).0.lastRequest
    {
      hide DueCount, Pullable, Pulls, FreshSockets, SocketsFrom, Tables, EventQueue.Valid, EventQueue.Contents;
      PullWhileDue(now, sockets);
      if fileEventsHandledCount > quota / 2 {
        fileEventsHandledCount := 0;
      }
      if nextEventTime < 0 {
        nextEventTime := incomingFileEvents.NextEventTime();
      }
    }

    /** What holds between two activities. */
    ghost predicate Serving()
      reads this, incomingFileEvents, incomingFileEvents.chain
    {
      10 <= quota && Tables() && Started() && incomingFileEvents.Valid() && Keeps()
    }

    method ServeArrival(e: Event)
      requires Serving()
      modifies incomingFileEvents.Repr()
      ensures Serving() && fresh(incomingFileEvents.Repr() - old(incomingFileEvents.Repr()))
      ensures incomingFileEvents.Contents() == old(incomingFileEvents.Contents()) + [e]
    {
      hide Tables, Started;
      incomingFileEvents.AddEvent(e);
    }

    method ServeTurn(now: int, sockets: seq<Option<int>>)
      requires Serving() && FreshSockets(sockets, 0, connToSockfdIDMap)
      modifies this, waitHeap, incomingFileEvents`divider, incomingFileEvents`d
      ensures Serving() && SocketsFrom(old(connToSockfdIDMap), sockets, connToSockfdIDMap)
      ensures dispatched + incomingFileEvents.Contents() == old(dispatched) + old(incomingFileEvents.Contents())
    {
      hide Tables, Indexes, Pullable, S.AfterPass, Pulls, EventQueue.Valid, EventQueue.Contents, FreshSockets, Keeps;
      ghost var queue, d, next := incomingFileEvents.Contents(), dispatched, nextEventTime;
      PullDue(now, sockets);
      Rejoin(d, queue, Pullable(next, queue, now));
    }

    method ServeAccept(fd: int, nonBlocking: bool, peer: SockAddr, local: Option<SockAddr>, at: int)
      requires Serving() && FreshSockets([if nonBlocking then Some(fd) else None], 0, connToSockfdIDMap)
      modifies this`sockfdToConnIDMap, this`connToSockfdIDMap, this`connToWaitingToRecv, this`connToWaitingToSend,
               this`connToLastCompletedEvent, this`connToEventQueue
      ensures Serving()
      ensures SocketsFrom(old(connToSockfdIDMap), [if nonBlocking then Some(fd) else None], connToSockfdIDMap)
      ensures incomingFileEvents.Contents() == old(incomingFileEvents.Contents())
    {
      hide Tables, Indexes, AllIPv4, Joins, EventQueue.Valid;
      if nonBlocking {
        OneFresh(Some(fd), connToSockfdIDMap);
      }
      AcceptNewConnection(fd, nonBlocking, peer, local, at);
    }

    method ServeOne(a: Activity)
      requires Serving() && FreshSockets(Given(a), 0, connToSockfdIDMap)
      modifies this, waitHeap, incomingFileEvents.Repr()
      ensures Serving() && SocketsFrom(old(connToSockfdIDMap), Given(a), connToSockfdIDMap)
      ensures fresh(incomingFileEvents.Repr() - old(incomingFileEvents.Repr()))
      ensures dispatched + incomingFileEvents.Contents()
           == old(dispatched) + old(incomingFileEvents.Contents()) + Arrived([a])
    {
      hide Serving, SocketsFrom, FreshSockets, EventQueue.Valid;
      assert [a][1..] == [];
      match a {
        case Arrival(e) =>
          ServeArrival(e);
          NothingOpened([], connToSockfdIDMap);
        case Turn(now, sockets) =>
          ServeTurn(now, sockets);
        case Accept(fd, nonBlocking, peer, local, at) =>
          ServeAccept(fd, nonBlocking, peer, local, at);
      }
    }

    /**
     Any run of arrivals, turns with the connects they dispatch, and accepts, in which the kernel hands out
     descriptors that are not in use: the tables keep agreeing with each other, with the index and with the
     configuration, and the events dispatched are those that arrived, in order, up to what still waits.
     */
    method Serve(acts: seq<Activity>)
      requires Serving() && FreshSockets(AllGiven(acts), 0, connToSockfdIDMap)
      modifies this, waitHeap, incomingFileEvents.Repr()
      ensures Serving()
      ensures fresh(incomingFileEvents.Repr() - old(incomingFileEvents.Repr()))
      ensures dispatched + incomingFileEvents.Contents()
           == old(dispatched) + old(incomingFileEvents.Contents()) + Arrived(acts)
      decreases |acts|
    {
      hide Serving, FreshSockets, SocketsFrom, Given, EventQueue.Contents;
      if acts == [] { return; }
      ghost var used0, a, rest := connToSockfdIDMap, Given(acts[0]), AllGiven(acts[1..]);
      FreshFirst(a, rest, used0);
      ServeOne(acts[0]);
      StillFresh(used0, a, rest, connToSockfdIDMap);
      Serve(acts[1..]);
      ArrivedSplits(acts);
    }
  }
}
