/**
 The life of the connections of a TcpServer across loops (tcp_server.cpp, tcp_connection.cpp).

 Loop 0 is the acceptor's loop; connections live on the IO loops 1 to `ioLoops`, or on loop 0 if there
 are none.  A step is one functor, one event on a connection, one accepted socket, or half of a
 shutdown() call: another thread may test state_ and set it later.  Functors of a loop run in the order
 in which they were queued.  The server is alive throughout.
 */
module ServerLifecycle {

  import opened Epoll
  import opened Connection
  import opened Naming
  import Placement

  type LoopId = nat

  /** History: how far a connection has come. */
  datatype Phase = Fresh | Live | Closing | Leaving | Gone

  datatype Conn = Conn(
    loop: LoopId,
    state: ConnState,
    watched: bool,       // the kernel may report events for its channel
    log: seq<Event>,     // history: what the connection went through, in order
    phase: Phase)
  {
    /** The part of it that TcpConnection keeps. */
    function Stands(): Standing
    {
      Standing(state, watched, log)
    }

    function With(standing: Standing, phase: Phase): Conn
    {
      Conn(loop, standing.state, standing.watched, standing.log, phase)
    }
  }

  datatype Functor =
    | Establish(id: nat)    // TcpConnection::connectEstablished
    | Remove(id: nat)       // TcpServer::removeConnectionInLoop
    | Destroy(id: nat)      // TcpConnection::connectDestroyed

  datatype State = State(
    server: string,
    hostport: string,
    ioLoops: nat,
    nextConnId: nat,
    connections: map<string, nat>,
    conns: map<nat, Conn>,
    queues: map<LoopId, seq<Functor>>,
    closers: set<nat>,   // connections for which a thread is between the test and the store in shutdown()
    fault: bool)         // an assert failed, or a lookup that has to hit missed

  datatype Label =
    | Accept
    | RunFunctor(l: LoopId)
    | IoEvent(id: nat, revents: Mask, readsZero: bool)   // readsZero: a read() during the event returns 0
    | Send(id: nat)                                      // a send() that leaves the channel asking for EPOLLOUT
    | ShutdownTest(id: nat)
    | ShutdownStore(id: nat)

  ghost predicate Init(s: State)
  {
    && s.nextConnId == 1 && s.connections == map[] && s.conns == map[]
    && (forall l :: l in s.queues <==> l <= s.ioLoops)
    && (forall l :: l in s.queues ==> s.queues[l] == [])
    && s.closers == {} && !s.fault
    && 1 <= Room(s.hostport)
  }

  function KeyOf(s: State, id: nat): string
  {
    ConnName(s.server, s.hostport, id)
  }

  /** The loop that the getNextLoop() call for connection `id` returns. */
  function LoopOf(ioLoops: nat, id: nat): LoopId
    requires id >= 1
  {
    if ioLoops == 0 then 0 else 1 + (id - 1) % ioLoops
  }

  predicate Enabled(s: State, l: Label)
  {
    match l
    case Accept => s.nextConnId >= 1
    case RunFunctor(l) => l in s.queues && s.queues[l] != []
    case IoEvent(id, revents, readsZero) => id in s.conns && s.conns[id].watched
    case Send(id) => id in s.conns
    case ShutdownTest(id) => id in s.conns && id !in s.closers
    case ShutdownStore(id) => id in s.conns && id in s.closers
  }

  // ----- the pieces of a step -----

  function Push(s: State, l: LoopId, f: Functor): State
  {
    if l in s.queues then s.(queues := s.queues[l := s.queues[l] + [f]]) else s.(fault := true)
  }

  function DoEstablish(s: State, id: nat): State
    requires id in s.conns
  {
    s.(conns := s.conns[id := s.conns[id].With(AfterEstablished(s.conns[id].Stands()), Live)])
  }

  function DoRemove(s: State, id: nat): State
    requires id in s.conns
  {
    var c := s.conns[id];
    var s' := Push(s.(conns := s.conns[id := c.(phase := Leaving)]), c.loop, Destroy(id));
    if KeyOf(s, id) in s.connections then s'.(connections := s.connections - {KeyOf(s, id)})
    else s'.(fault := true)
  }

  function DoDestroy(s: State, id: nat): State
    requires id in s.conns
  {
    s.(conns := s.conns[id := s.conns[id].With(AfterDestroyed(s.conns[id].Stands()), Gone)])
  }

  /** handleClose(), up to the end of its close callback. */
  function DoClose(s: State, id: nat): State
    requires id in s.conns
  {
    var c := s.conns[id];
    if c.state != Connected && c.state != Disconnecting then s.(fault := true)
    else
      var s' := s.(conns := s.conns[id := c.With(AfterClosed(c.Stands()), Closing)]);
      if c.loop == 0 then DoRemove(s', id) else Push(s', 0, Remove(id))
  }

  /** How many callbacks of one event call handleClose(). */
  function Closes(revents: Mask, readsZero: bool): nat
  {
    (if CloseCallback in Dispatch(revents) then 1 else 0)
    + (if ReadCallback in Dispatch(revents) && readsZero then 1 else 0)
  }

  function Apply(s: State, l: Label): State
    requires Enabled(s, l)
  {
    match l
    case Accept =>
      var id := s.nextConnId;
      var c := Conn(LoopOf(s.ioLoops, id), Connecting, false, [], Fresh);
      var s' := s.(nextConnId := id + 1, connections := s.connections[KeyOf(s, id) := id], conns := s.conns[id := c]);
      if c.loop == 0 then DoEstablish(s', id) else Push(s', c.loop, Establish(id))
    case RunFunctor(l) =>
      var f := s.queues[l][0];
      var s' := s.(queues := s.queues[l := s.queues[l][1..]]);
      if f.id !in s.conns then s'.(fault := true) else
      (match f
       case Establish(id) => DoEstablish(s', id)
       case Remove(id) => DoRemove(s', id)
       case Destroy(id) => DoDestroy(s', id))
    case IoEvent(id, revents, readsZero) =>
      var n := Closes(revents, readsZero);
      if n == 0 then s else if n == 1 then DoClose(s, id) else
      var s' := DoClose(s, id);
      if id in s'.conns then DoClose(s', id) else s'
    case Send(id) => s.(conns := s.conns[id := s.conns[id].(watched := true)])
    case ShutdownTest(id) => if s.conns[id].state == Connected then s.(closers := s.closers + {id}) else s
    case ShutdownStore(id) =>
      s.(conns := s.conns[id := s.conns[id].(state := Disconnecting)], closers := s.closers - {id})
  }

  /** What the theorem asks of users and kernel: a send that enables writing happens while the channel is
      registered, no event reports EPOLLPRI or EPOLLRDHUP along with EPOLLHUP without EPOLLIN while a read
      returns 0, and connection ids fit into the names. */
  predicate Disciplined(s: State, l: Label)
  {
    match l
    case Accept => s.nextConnId < IdLimit(s.hostport)
    case Send(id) => id in s.conns && s.conns[id].watched
    case IoEvent(id, revents, readsZero) =>
      !(Hup in revents && In !in revents && (Pri in revents || RdHup in revents) && readsZero)
    case _ => true
  }

  // ----- invariant -----

  predicate ConnOk(id: nat, ioLoops: nat, c: Conn)
  {
    && id >= 1 && c.loop == LoopOf(ioLoops, id)
    && c.watched == (c.phase == Live)
    && match c.phase
       case Fresh => c.state == Connecting && c.log == [] && c.loop != 0
       case Live => (c.state == Connected || c.state == Disconnecting) && c.log == [Up]
       case Closing => (c.state == Disconnected || c.state == Disconnecting) && c.log == [Up, Down] && c.loop != 0
       case Leaving => (c.state == Disconnected || c.state == Disconnecting) && c.log == [Up, Down]
       case Gone => (c.state == Disconnected || c.state == Disconnecting) && c.log == [Up, Down, Destroyed]
  }

  predicate Waits(queues: map<LoopId, seq<Functor>>, l: LoopId, f: Functor)
  {
    l in queues && f in queues[l]
  }

  /** A queued functor is on the loop and for a connection of the phase that it belongs to. */
  predicate FunctorOk(conns: map<nat, Conn>, l: LoopId, f: Functor)
  {
    && f.id in conns
    && match f
       case Establish(id) => conns[id].phase == Fresh && l == conns[id].loop
       case Remove(id) => conns[id].phase == Closing && l == 0
       case Destroy(id) => conns[id].phase == Leaving && l == conns[id].loop
  }

  predicate NoRepeats(q: seq<Functor>)
  {
    forall i, j :: 0 <= i < j < |q| ==> q[i] != q[j]
  }

  /** A connection that needs a functor has it queued. */
  predicate Served(queues: map<LoopId, seq<Functor>>, id: nat, c: Conn)
  {
    match c.phase
    case Fresh => Waits(queues, c.loop, Establish(id))
    case Closing => Waits(queues, 0, Remove(id))
    case Leaving => Waits(queues, c.loop, Destroy(id))
    case _ => true
  }

  predicate InMap(connections: map<string, nat>, key: string, id: nat)
  {
    key in connections && connections[key] == id
  }

  predicate Listed(c: Conn)
  {
    c.phase == Fresh || c.phase == Live || c.phase == Closing
  }

  ghost predicate ConnsOk(ioLoops: nat, nextConnId: nat, conns: map<nat, Conn>, closers: set<nat>)
  {
    && (forall id :: id in conns ==> 1 <= id < nextConnId && ConnOk(id, ioLoops, conns[id]))
    && (forall id :: id in closers ==> id in conns && conns[id].phase != Fresh)
  }

  ghost predicate QueueDomain(queues: map<LoopId, seq<Functor>>, ioLoops: nat)
  {
    && (forall l :: l in queues <==> l <= ioLoops)
    && (forall l :: l in queues ==> NoRepeats(queues[l]))
  }

  ghost predicate QueuesOk(queues: map<LoopId, seq<Functor>>, conns: map<nat, Conn>)
  {
    && (forall l, f :: Waits(queues, l, f) ==> FunctorOk(conns, l, f))
    && (forall id :: id in conns ==> Served(queues, id, conns[id]))
  }

  /** As QueuesOk, but nothing is queued for connection `but`. */
  ghost predicate QueuesBut(queues: map<LoopId, seq<Functor>>, conns: map<nat, Conn>, but: nat)
  {
    && (forall l, f :: Waits(queues, l, f) ==> f.id != but && FunctorOk(conns, l, f))
    && (forall id :: id in conns && id != but ==> Served(queues, id, conns[id]))
  }

  /** connections_ holds exactly the connections that were accepted and not yet removed. */
  ghost predicate MapOk(
    server: string, hostport: string, nextConnId: nat, connections: map<string, nat>, conns: map<nat, Conn>)
  {
    && 1 <= Room(hostport) && 1 <= nextConnId <= IdLimit(hostport)
    && (forall id :: id in conns ==> 1 <= id < nextConnId)
    && (forall id :: id in conns ==> (InMap(connections, ConnName(server, hostport, id), id) <==> Listed(conns[id])))
    && (forall key :: key in connections ==>
          connections[key] in conns && key == ConnName(server, hostport, connections[key]))
  }

  ghost predicate Inv(s: State)
  {
    && !s.fault
    && ConnsOk(s.ioLoops, s.nextConnId, s.conns, s.closers)
    && MapOk(s.server, s.hostport, s.nextConnId, s.connections, s.conns)
    && QueueDomain(s.queues, s.ioLoops) && QueuesOk(s.queues, s.conns)
  }

  lemma InitInv(s: State)
    requires Init(s)
    ensures Inv(s)
  {
    PowPositive(Room(s.hostport));
  }

  // ----- queues -----

  /** A live or finished connection has nothing queued. */
  lemma LiveIsQuiet(queues: map<LoopId, seq<Functor>>, conns: map<nat, Conn>, id: nat)
    requires QueuesOk(queues, conns) && (id in conns ==> conns[id].phase == Live)
    ensures QueuesBut(queues, conns, id)
  {
    forall l, f | Waits(queues, l, f) ensures f.id != id { assert FunctorOk(conns, l, f); }
  }

  /** Once its functor is taken from the queue, a connection has nothing queued. */
  lemma Popped(queues: map<LoopId, seq<Functor>>, conns: map<nat, Conn>, ioLoops: nat, l: LoopId)
    requires QueueDomain(queues, ioLoops) && QueuesOk(queues, conns) && l in queues && queues[l] != []
    ensures var f := queues[l][0]; var queues' := queues[l := queues[l][1..]];
      FunctorOk(conns, l, f) && QueueDomain(queues', ioLoops) && QueuesBut(queues', conns, f.id)
  {
    var q := queues[l];
    var f := q[0];
    var queues' := queues[l := q[1..]];
    assert Waits(queues, l, f);
    assert q == [f] + q[1..];
    forall k, g | Waits(queues', k, g) ensures g.id != f.id && FunctorOk(conns, k, g) {
      assert Waits(queues, k, g);
      assert FunctorOk(conns, l, f) && FunctorOk(conns, k, g);
    }
    forall id | id in conns && id != f.id ensures Served(queues', id, conns[id]) {
      assert Served(queues, id, conns[id]);
      forall k, g | Waits(queues, k, g) && g.id == id ensures Waits(queues', k, g) {}
    }
  }

  /** The connection moves to a phase that needs no functor. */
  lemma Settled(queues: map<LoopId, seq<Functor>>, conns: map<nat, Conn>, id: nat, c: Conn)
    requires QueuesBut(queues, conns, id) && (c.phase == Live || c.phase == Gone)
    ensures QueuesOk(queues, conns[id := c])
  {
  }

  /** The connection moves to a phase that needs functor f, which is queued on loop l. */
  lemma SettledWith(
    queues: map<LoopId, seq<Functor>>, conns: map<nat, Conn>, ioLoops: nat, id: nat, c: Conn, l: LoopId, f: Functor)
    requires QueueDomain(queues, ioLoops) && QueuesBut(queues, conns, id) && l in queues
    requires f.id == id && FunctorOk(conns[id := c], l, f)
    ensures var queues' := queues[l := queues[l] + [f]];
      QueueDomain(queues', ioLoops) && QueuesOk(queues', conns[id := c])
  {
    var queues' := queues[l := queues[l] + [f]];
    var conns' := conns[id := c];
    assert !Waits(queues, l, f);
    forall k, g | Waits(queues', k, g) ensures FunctorOk(conns', k, g) {
      if Waits(queues, k, g) { assert g.id != id && FunctorOk(conns, k, g); }
    }
    assert Waits(queues', l, f);
    forall k, g | Waits(queues, k, g) ensures Waits(queues', k, g) {}
    forall i | i in conns' && i != id ensures Served(queues', i, conns'[i]) {
      assert Served(queues, i, conns[i]);
    }
    assert FunctorOk(conns', l, f);
  }

  /** Queues do not depend on anything but loops and phases. */
  lemma SamePhase(queues: map<LoopId, seq<Functor>>, conns: map<nat, Conn>, id: nat, c: Conn)
    requires QueuesOk(queues, conns) && id in conns
    requires c.phase == conns[id].phase && c.loop == conns[id].loop
    ensures QueuesOk(queues, conns[id := c])
  {
    forall l, f | Waits(queues, l, f) ensures FunctorOk(conns[id := c], l, f) { assert FunctorOk(conns, l, f); }
    assert Served(queues, id, conns[id]);
  }

  // ----- names -----

  lemma DistinctKeys(server: string, hostport: string, m: nat, n: nat)
    requires 1 <= Room(hostport)
    requires 1 <= m < IdLimit(hostport) && 1 <= n < IdLimit(hostport) && m != n
    ensures ConnName(server, hostport, m) != ConnName(server, hostport, n)
  {
    var a, b := if m < n then m else n, if m < n then n else m;
    NamesDistinct(server, hostport, b);
    assert ConnName(server, hostport, a) != ConnName(server, hostport, b);
  }

  lemma KeysApart(server: string, hostport: string, nextConnId: nat, conns: map<nat, Conn>, id: nat)
    requires 1 <= Room(hostport) && 1 <= id < IdLimit(hostport) && nextConnId <= IdLimit(hostport)
    requires forall i :: i in conns ==> 1 <= i < nextConnId
    ensures forall i :: i in conns && i != id ==> ConnName(server, hostport, i) != ConnName(server, hostport, id)
  {
    forall i | i in conns && i != id ensures ConnName(server, hostport, i) != ConnName(server, hostport, id) {
      DistinctKeys(server, hostport, i, id);
    }
  }

  lemma MapKept(s: State, id: nat, c: Conn)
    requires MapOk(s.server, s.hostport, s.nextConnId, s.connections, s.conns)
    requires id in s.conns && Listed(c) == Listed(s.conns[id])
    ensures MapOk(s.server, s.hostport, s.nextConnId, s.connections, s.conns[id := c])
  {
  }

  lemma MapErased(s: State, id: nat, c: Conn)
    requires MapOk(s.server, s.hostport, s.nextConnId, s.connections, s.conns)
    requires id in s.conns && Listed(s.conns[id]) && !Listed(c)
    ensures KeyOf(s, id) in s.connections
    ensures MapOk(s.server, s.hostport, s.nextConnId, s.connections - {KeyOf(s, id)}, s.conns[id := c])
  {
    KeysApart(s.server, s.hostport, s.nextConnId, s.conns, id);
    assert InMap(s.connections, ConnName(s.server, s.hostport, id), id);
  }

  lemma MapAdded(s: State, c: Conn)
    requires MapOk(s.server, s.hostport, s.nextConnId, s.connections, s.conns)
    requires s.nextConnId < IdLimit(s.hostport) && Listed(c)
    ensures var id := s.nextConnId;
      MapOk(s.server, s.hostport, id + 1, s.connections[KeyOf(s, id) := id], s.conns[id := c])
  {
    KeysApart(s.server, s.hostport, s.nextConnId, s.conns, s.nextConnId);
  }

  // ----- steps -----

  /** As Inv, but nothing is queued for connection `but`, whatever its phase. */
  ghost predicate InvBut(s: State, but: nat)
  {
    && !s.fault
    && ConnsOk(s.ioLoops, s.nextConnId, s.conns, s.closers)
    && MapOk(s.server, s.hostport, s.nextConnId, s.connections, s.conns)
    && QueueDomain(s.queues, s.ioLoops) && QueuesBut(s.queues, s.conns, but)
  }

  lemma ConnsKept(s: State, id: nat, c: Conn)
    requires ConnsOk(s.ioLoops, s.nextConnId, s.conns, s.closers)
    requires id in s.conns && ConnOk(id, s.ioLoops, c) && c.phase != Fresh
    ensures ConnsOk(s.ioLoops, s.nextConnId, s.conns[id := c], s.closers)
  {
  }

  lemma EstablishInv(s: State, id: nat)
    requires InvBut(s, id) && id in s.conns && s.conns[id].phase == Fresh
    ensures Inv(DoEstablish(s, id))
  {
    var c := DoEstablish(s, id).conns[id];
    Settled(s.queues, s.conns, id, c);
    ConnsKept(s, id, c);
    MapKept(s, id, c);
  }

  lemma DestroyInv(s: State, id: nat)
    requires InvBut(s, id) && id in s.conns && s.conns[id].phase == Leaving
    ensures Inv(DoDestroy(s, id))
  {
    var c := DoDestroy(s, id).conns[id];
    Settled(s.queues, s.conns, id, c);
    ConnsKept(s, id, c);
    MapKept(s, id, c);
  }

  /** The lookup of the connection in the map hits. */
  lemma RemoveInv(s: State, id: nat)
    requires InvBut(s, id) && id in s.conns && s.conns[id].phase == Closing
    ensures Inv(DoRemove(s, id))
  {
    var c := s.conns[id].(phase := Leaving);
    LoopInRange(s.ioLoops, id);
    SettledWith(s.queues, s.conns, s.ioLoops, id, c, c.loop, Destroy(id));
    ConnsKept(s, id, c);
    MapErased(s, id, c);
  }

  lemma LoopInRange(ioLoops: nat, id: nat)
    requires id >= 1
    ensures LoopOf(ioLoops, id) <= ioLoops
  {
  }

  lemma CloseInv(s: State, id: nat)
    requires Inv(s) && id in s.conns && s.conns[id].phase == Live
    ensures Inv(DoClose(s, id))
  {
    LiveIsQuiet(s.queues, s.conns, id);
    if s.conns[id].loop == 0 {
      CloseOnAcceptorLoop(s, id);
    } else {
      CloseOnIoLoop(s, id);
    }
  }

  lemma CloseOnIoLoop(s: State, id: nat)
    requires InvBut(s, id) && id in s.conns && s.conns[id].phase == Live && s.conns[id].loop != 0
    ensures Inv(DoClose(s, id))
  {
    var c := DoClose(s, id).conns[id];
    SettledWith(s.queues, s.conns, s.ioLoops, id, c, 0, Remove(id));
    ConnsKept(s, id, c);
    MapKept(s, id, c);
  }

  /** The connection lives on the acceptor's loop, so that it leaves the map at once. */
  lemma CloseOnAcceptorLoop(s: State, id: nat)
    requires InvBut(s, id) && id in s.conns && s.conns[id].phase == Live && s.conns[id].loop == 0
    ensures Inv(DoClose(s, id))
  {
    var c := s.conns[id];
    var closing := c.(state := Disconnected, watched := false, log := c.log + [Down], phase := Closing);
    var c' := closing.(phase := Leaving);
    assert s.conns[id := closing][id := c'] == s.conns[id := c'];
    MapErased(s, id, c');
    SettledWith(s.queues, s.conns, s.ioLoops, id, c', 0, Destroy(id));
    ConnsKept(s, id, c');
    assert DoClose(s, id) == s.(conns := s.conns[id := c'], connections := s.connections - {KeyOf(s, id)},
                                queues := s.queues[0 := s.queues[0] + [Destroy(id)]]);
  }

  lemma ConnsAdded(s: State, c: Conn)
    requires ConnsOk(s.ioLoops, s.nextConnId, s.conns, s.closers)
    requires s.nextConnId >= 1 && ConnOk(s.nextConnId, s.ioLoops, c)
    ensures ConnsOk(s.ioLoops, s.nextConnId + 1, s.conns[s.nextConnId := c], s.closers)
  {
  }

  /** The state after an accept, but for what the connection does at once or has queued. */
  function Accepted(s: State, c: Conn): State
  {
    var id := s.nextConnId;
    s.(nextConnId := id + 1, connections := s.connections[KeyOf(s, id) := id], conns := s.conns[id := c])
  }

  lemma AcceptOnAcceptorLoop(s: State)
    requires Inv(s) && Disciplined(s, Accept) && s.ioLoops == 0
    ensures Inv(Apply(s, Accept))
  {
    var id := s.nextConnId;
    var c := Conn(0, Connected, true, [Up], Live);
    LiveIsQuiet(s.queues, s.conns, id);
    Settled(s.queues, s.conns, id, c);
    MapAdded(s, c);
    ConnsAdded(s, c);
    assert [] + [Up] == [Up];
    assert s.conns[id := Conn(0, Connecting, false, [], Fresh)][id := c] == s.conns[id := c];
    assert Apply(s, Accept) == Accepted(s, c);
  }

  lemma AcceptOnIoLoop(s: State)
    requires Inv(s) && Disciplined(s, Accept) && s.ioLoops != 0
    ensures Inv(Apply(s, Accept))
  {
    var id, loop := s.nextConnId, LoopOf(s.ioLoops, s.nextConnId);
    var c := Conn(loop, Connecting, false, [], Fresh);
    LiveIsQuiet(s.queues, s.conns, id);
    LoopInRange(s.ioLoops, id);
    SettledWith(s.queues, s.conns, s.ioLoops, id, c, loop, Establish(id));
    MapAdded(s, c);
    ConnsAdded(s, c);
    assert Apply(s, Accept) == Push(Accepted(s, c), loop, Establish(id));
  }

  lemma AcceptInv(s: State)
    requires Inv(s) && Disciplined(s, Accept)
    ensures Inv(Apply(s, Accept))
  {
    if s.ioLoops == 0 { AcceptOnAcceptorLoop(s); } else { AcceptOnIoLoop(s); }
  }

  lemma FunctorInv(s: State, l: LoopId)
    requires Inv(s) && Enabled(s, RunFunctor(l))
    ensures Inv(Apply(s, RunFunctor(l)))
  {
    var f := s.queues[l][0];
    var s' := s.(queues := s.queues[l := s.queues[l][1..]]);
    Popped(s.queues, s.conns, s.ioLoops, l);
    match f
    case Establish(id) => EstablishInv(s', id);
    case Remove(id) => RemoveInv(s', id);
    case Destroy(id) => DestroyInv(s', id);
  }

  lemma ShutdownInv(s: State, id: nat)
    requires Inv(s) && Enabled(s, ShutdownStore(id))
    ensures Inv(Apply(s, ShutdownStore(id)))
  {
    var c := s.conns[id].(state := Disconnecting);
    SamePhase(s.queues, s.conns, id, c);
    ConnsKept(s, id, c);
    MapKept(s, id, c);
  }

  lemma StepInv(s: State, l: Label)
    requires Inv(s) && Enabled(s, l) && Disciplined(s, l)
    ensures Inv(Apply(s, l))
  {
    match l
    case Accept => AcceptInv(s);
    case RunFunctor(k) => FunctorInv(s, k);
    case IoEvent(id, revents, readsZero) =>
      ClosesAndReads(revents);
      if Closes(revents, readsZero) == 1 { CloseInv(s, id); }
    case Send(id) => assert Apply(s, l).conns == s.conns;
    case ShutdownTest(id) =>
    case ShutdownStore(id) => ShutdownInv(s, id);
  }

  // ----- runs -----

  predicate StepAt(tr: seq<State>, ls: seq<Label>, i: nat)
    requires i < |ls| && |tr| == |ls| + 1
  {
    Enabled(tr[i], ls[i]) && tr[i + 1] == Apply(tr[i], ls[i])
  }

  /** Any finite interleaving, from any state. */
  ghost predicate IsPath(tr: seq<State>, ls: seq<Label>)
  {
    |tr| == |ls| + 1 && forall i :: 0 <= i < |ls| ==> StepAt(tr, ls, i)
  }

  ghost predicate IsRun(tr: seq<State>, ls: seq<Label>)
  {
    IsPath(tr, ls) && Init(tr[0])
  }

  predicate DisciplinedRun(tr: seq<State>, ls: seq<Label>)
  {
    |tr| == |ls| + 1 && forall i :: 0 <= i < |ls| ==> Disciplined(tr[i], ls[i])
  }

  lemma {:induction false} PathInv(tr: seq<State>, ls: seq<Label>, k: nat)
    requires IsPath(tr, ls) && DisciplinedRun(tr, ls) && k < |tr| && Inv(tr[0])
    ensures Inv(tr[k])
  {
    if k > 0 {
      PathInv(tr, ls, k - 1);
      assert StepAt(tr, ls, k - 1);
      StepInv(tr[k - 1], ls[k - 1]);
    }
  }

  lemma RunInv(tr: seq<State>, ls: seq<Label>, k: nat)
    requires IsRun(tr, ls) && DisciplinedRun(tr, ls) && k < |tr|
    ensures Inv(tr[k])
  {
    InitInv(tr[0]);
    PathInv(tr, ls, k);
  }

  /** In every disciplined run each connection goes up, then down, then is destroyed, once each and on
      its loop; the assert in handleClose() and the lookup in removeConnectionInLoop() never fail; and a
      connection is in the map from its acceptance to its removal. */
  lemma Lifecycle(tr: seq<State>, ls: seq<Label>, k: nat, id: nat)
    requires IsRun(tr, ls) && DisciplinedRun(tr, ls) && k < |tr| && id in tr[k].conns
    ensures tr[k].conns[id].log <= [Up, Down, Destroyed]
    ensures !tr[k].fault
    ensures id >= 1 && tr[k].conns[id].loop == LoopOf(tr[k].ioLoops, id)
    ensures InMap(tr[k].connections, KeyOf(tr[k], id), id) <==>
      tr[k].conns[id].log == [] || tr[k].conns[id].log == [Up] ||
      (tr[k].conns[id].log == [Up, Down] && Waits(tr[k].queues, 0, Remove(id)))
  {
    RunInv(tr, ls, k);
    var s := tr[k];
    assert Served(s.queues, id, s.conns[id]);
    if Waits(s.queues, 0, Remove(id)) { assert FunctorOk(s.conns, 0, Remove(id)); }
  }

  /** A connection whose destruction is due has it queued on its own loop. */
  lemma DestructionIsQueued(tr: seq<State>, ls: seq<Label>, k: nat, id: nat)
    requires IsRun(tr, ls) && DisciplinedRun(tr, ls) && k < |tr| && id in tr[k].conns
    requires tr[k].conns[id].log == [Up, Down]
    ensures Waits(tr[k].queues, 0, Remove(id)) || Waits(tr[k].queues, tr[k].conns[id].loop, Destroy(id))
  {
    RunInv(tr, ls, k);
    assert Served(tr[k].queues, id, tr[k].conns[id]);
  }

  // ----- what the steps achieve -----

  /** How many of the first k connections live on loop j. */
  function OnLoop(ioLoops: nat, k: nat, j: LoopId): nat
  {
    if k == 0 then 0 else OnLoop(ioLoops, k - 1, j) + if LoopOf(ioLoops, k) == j then 1 else 0
  }

  /** Connections spread evenly over the IO loops, and none lives on the acceptor's loop; without IO loops
      all of them do. */
  lemma {:induction false} ConnectionsSpread(ioLoops: nat, k: nat, j: LoopId)
    ensures ioLoops == 0 ==> OnLoop(ioLoops, k, j) == if j == 0 then k else 0
    ensures ioLoops > 0 && 1 <= j <= ioLoops ==>
      OnLoop(ioLoops, k, j) == k / ioLoops + if j <= k % ioLoops then 1 else 0
    ensures ioLoops > 0 && !(1 <= j <= ioLoops) ==> OnLoop(ioLoops, k, j) == 0
  {
    if k > 0 {
      ConnectionsSpread(ioLoops, k - 1, j);
    }
    if ioLoops > 0 && 1 <= j <= ioLoops {
      if k > 0 { Placement.DivModStep(k - 1, ioLoops); } else { Placement.DivModUnique(0, ioLoops, 0, 0); }
    }
  }

  lemma ClosesOnce(revents: Mask, readsZero: bool)
    requires !(Hup in revents && In !in revents && (Pri in revents || RdHup in revents) && readsZero)
    ensures var closes := (Hup in revents && In !in revents)
                          || (readsZero && (In in revents || Pri in revents || RdHup in revents));
      Closes(revents, readsZero) == if closes then 1 else 0
  {
    DispatchHears(revents);
  }

  /** One event on a connection takes it down exactly if the peer hung up with nothing left to read, or a
      read it calls for returns 0; otherwise the server does not change. */
  lemma EventCloses(s: State, id: nat, revents: Mask, readsZero: bool)
    requires Inv(s) && id in s.conns && s.conns[id].watched
    requires !(Hup in revents && In !in revents && (Pri in revents || RdHup in revents) && readsZero)
    ensures var s' := Apply(s, IoEvent(id, revents, readsZero));
      if (Hup in revents && In !in revents) || (readsZero && (In in revents || Pri in revents || RdHup in revents))
      then id in s'.conns && s'.conns[id].log == [Up, Down] && !s'.conns[id].watched
      else s' == s
  {
    ClosesOnce(revents, readsZero);
    assert s.conns[id].log == [Up] by { assert ConnOk(id, s.ioLoops, s.conns[id]); }
    CloseEffect(s, id);
  }

  /** An accepted socket becomes a new connection, listed under its name; its place is the loop that its
      number selects. */
  lemma AcceptCreates(s: State)
    requires Inv(s) && Disciplined(s, Accept)
    ensures var id, s' := s.nextConnId, Apply(s, Accept);
      && id !in s.conns && s'.conns.Keys == s.conns.Keys + {id} && s'.nextConnId == id + 1
      && InMap(s'.connections, KeyOf(s, id), id)
      && s'.conns[id].log == (if s.ioLoops == 0 then [Up] else [])
  {
    AcceptInv(s);
    var s' := Apply(s, Accept);
    assert InMap(s'.connections, KeyOf(s', s.nextConnId), s.nextConnId);
  }

  /** One functor: it is taken from its queue, and its connection comes to the next phase. */
  lemma FunctorEffect(s: State, l: LoopId)
    requires Inv(s) && l in s.queues && s.queues[l] != []
    ensures Enabled(s, RunFunctor(l)) && Inv(Apply(s, RunFunctor(l)))
    ensures var f, s' := s.queues[l][0], Apply(s, RunFunctor(l));
      && f.id in s.conns && f.id in s'.conns && l in s'.queues && s.queues[l][1..] <= s'.queues[l]
      && s'.conns[f.id].loop == s.conns[f.id].loop
      && match f
         case Establish(id) => s'.conns[id].log == [Up] && s'.conns[id].watched
         case Remove(id) => s'.conns[id].log == [Up, Down] && s'.conns[id].phase == Leaving
         case Destroy(id) => s'.conns[id].log == [Up, Down, Destroyed]
  {
    var f := s.queues[l][0];
    assert Waits(s.queues, l, f);
    assert FunctorOk(s.conns, l, f);
    FunctorInv(s, l);
    var s' := Apply(s, RunFunctor(l));
    assert ConnOk(f.id, s.ioLoops, s'.conns[f.id]);
  }

  /** A shutdown() that finds the connection connected leaves it disconnecting, and all else as it is. */
  lemma ShutdownTakesEffect(s: State, id: nat)
    requires Inv(s) && id in s.conns && s.conns[id].state == Connected && id !in s.closers
    ensures Leads(s, [ShutdownTest(id), ShutdownStore(id)],
                  s.(conns := s.conns[id := s.conns[id].(state := Disconnecting)]))
  {
    var tested := Apply(s, ShutdownTest(id));
    var stored := Apply(tested, ShutdownStore(id));
    assert stored.closers == s.closers;
    assert Leads(stored, [], stored);
    assert [ShutdownStore(id)][1..] == [];
    assert Leads(tested, [ShutdownStore(id)], stored);
    assert [ShutdownTest(id), ShutdownStore(id)][1..] == [ShutdownStore(id)];
  }

  /** Taking the steps ls from s is possible and leads to s'. */
  ghost predicate Leads(s: State, ls: seq<Label>, s': State)
    decreases |ls|
  {
    if ls == [] then s' == s else Enabled(s, ls[0]) && Leads(Apply(s, ls[0]), ls[1..], s')
  }

  lemma {:induction false} LeadsThrough(s: State, ls: seq<Label>, m: State, ms: seq<Label>, s': State)
    requires Leads(s, ls, m) && Leads(m, ms, s')
    ensures Leads(s, ls + ms, s')
    decreases |ls|
  {
    if ls == [] {
      assert ls + ms == ms;
    } else {
      LeadsThrough(Apply(s, ls[0]), ls[1..], m, ms, s');
      assert (ls + ms)[1..] == ls[1..] + ms;
    }
  }

  /** Loop l running its queued functors, n of them. */
  function Rounds(l: LoopId, n: nat): (ls: seq<Label>)
    ensures |ls| == n && (n > 0 ==> ls[0] == RunFunctor(l) && ls[1..] == Rounds(l, n - 1))
  {
    if n == 0 then [] else [RunFunctor(l)] + Rounds(l, n - 1)
  }

  /** The loop comes to the functor at position i of its queue. */
  lemma {:induction false} ComesToFunctor(s: State, l: LoopId, i: nat) returns (s': State)
    requires Inv(s) && l in s.queues && i < |s.queues[l]|
    ensures Leads(s, Rounds(l, i), s') && Inv(s') && l in s'.queues && s'.queues[l] != []
    ensures s'.queues[l][0] == s.queues[l][i]
    decreases i
  {
    if i == 0 {
      s' := s;
    } else {
      FunctorEffect(s, l);
      var next := Apply(s, RunFunctor(l));
      assert next.queues[l][i - 1] == s.queues[l][1..][i - 1];
      s' := ComesToFunctor(next, l, i - 1);
    }
  }

  /** A queued functor is run once its loop has run those before it. */
  lemma FunctorRuns(s: State, l: LoopId, f: Functor) returns (ls: seq<Label>, m: State)
    requires Inv(s) && Waits(s.queues, l, f)
    ensures Leads(s, ls, m) && Inv(m) && l in m.queues && m.queues[l] != [] && m.queues[l][0] == f
  {
    var i :| 0 <= i < |s.queues[l]| && s.queues[l][i] == f;
    ls := Rounds(l, i);
    m := ComesToFunctor(s, l, i);
  }

  lemma OneMore(s: State, ls: seq<Label>, m: State, l: LoopId)
    requires Leads(s, ls, m) && Enabled(m, RunFunctor(l))
    ensures Leads(s, ls + [RunFunctor(l)], Apply(m, RunFunctor(l)))
  {
    assert Leads(Apply(m, RunFunctor(l)), [], Apply(m, RunFunctor(l)));
    assert [RunFunctor(l)][1..] == [];
    LeadsThrough(s, ls, m, [RunFunctor(l)], Apply(m, RunFunctor(l)));
  }

  /** An accepted connection comes up once its loop runs its functors... */
  lemma ComesUp(s: State, id: nat) returns (ls: seq<Label>, s': State)
    requires Inv(s) && id in s.conns && s.conns[id].log == []
    ensures Leads(s, ls, s') && Inv(s') && id in s'.conns && s'.conns[id].log == [Up]
  {
    var l := s.conns[id].loop;
    assert ConnOk(id, s.ioLoops, s.conns[id]) && Served(s.queues, id, s.conns[id]);
    var m;
    ls, m := FunctorRuns(s, l, Establish(id));
    FunctorEffect(m, l);
    OneMore(s, ls, m, l);
    ls, s' := ls + [RunFunctor(l)], Apply(m, RunFunctor(l));
  }

  /** ...and one that is down is destroyed and forgotten once the loops run theirs. */
  lemma IsDestroyed(s: State, id: nat) returns (ls: seq<Label>, s': State)
    requires Inv(s) && id in s.conns && s.conns[id].log == [Up, Down]
    ensures Leads(s, ls, s') && Inv(s') && id in s'.conns && s'.conns[id].log == [Up, Down, Destroyed]
    ensures !InMap(s'.connections, KeyOf(s', id), id)
  {
    assert ConnOk(id, s.ioLoops, s.conns[id]) && Served(s.queues, id, s.conns[id]);
    var leaving := s;
    ls := [];
    if s.conns[id].phase == Closing {
      var m;
      ls, m := FunctorRuns(s, 0, Remove(id));
      FunctorEffect(m, 0);
      OneMore(s, ls, m, 0);
      ls, leaving := ls + [RunFunctor(0)], Apply(m, RunFunctor(0));
    }
    var more;
    more, s' := IsDestroyedFrom(leaving, id);
    LeadsThrough(s, ls, leaving, more, s');
    ls := ls + more;
  }

  lemma IsDestroyedFrom(s: State, id: nat) returns (ls: seq<Label>, s': State)
    requires Inv(s) && id in s.conns && s.conns[id].phase == Leaving
    ensures Leads(s, ls, s') && Inv(s') && id in s'.conns && s'.conns[id].log == [Up, Down, Destroyed]
    ensures !InMap(s'.connections, KeyOf(s', id), id)
  {
    var l := s.conns[id].loop;
    assert Served(s.queues, id, s.conns[id]);
    var m;
    ls, m := FunctorRuns(s, l, Destroy(id));
    FunctorEffect(m, l);
    OneMore(s, ls, m, l);
    ls, s' := ls + [RunFunctor(l)], Apply(m, RunFunctor(l));
    assert ConnOk(id, s'.ioLoops, s'.conns[id]);
  }

  // ----- why the discipline -----

  lemma SecondCloseFails(s: State, id: nat)
    requires Inv(s) && id in s.conns && s.conns[id].phase == Live
    ensures !DoClose(s, id).fault && id in DoClose(s, id).conns && DoClose(DoClose(s, id), id).fault
  {
    CloseInv(s, id);
    assert DoClose(s, id).conns[id].state == Disconnected;
  }

  /** On a live connection the assert in handleClose() fails exactly when one event reports EPOLLHUP
      without EPOLLIN, but with EPOLLPRI or EPOLLRDHUP, and the read returns 0. */
  lemma DoubleClose(s: State, id: nat, revents: Mask, readsZero: bool)
    requires Inv(s) && Enabled(s, IoEvent(id, revents, readsZero))
    ensures Apply(s, IoEvent(id, revents, readsZero)).fault <==>
      Hup in revents && In !in revents && (Pri in revents || RdHup in revents) && readsZero
  {
    ClosesAndReads(revents);
    SecondCloseFails(s, id);
    assert Closes(revents, readsZero) == 2 <==>
      CloseCallback in Dispatch(revents) && ReadCallback in Dispatch(revents) && readsZero;
    var first := DoClose(s, id);
    assert Apply(s, IoEvent(id, revents, readsZero)) ==
      (match Closes(revents, readsZero) case 0 => s case 1 => first case _ => DoClose(first, id));
  }

  /** What Lifecycle promises of a connection. */
  predicate Keeps(s: State, id: nat)
  {
    !s.fault && (id in s.conns ==> s.conns[id].log <= [Up, Down, Destroyed])
  }

  /** However a disciplined run goes on from s, the promise is kept. */
  ghost predicate AlwaysKeeps(s: State, id: nat)
  {
    forall tr, ls :: IsPath(tr, ls) && DisciplinedRun(tr, ls) && tr[0] == s ==> Keeps(tr[|ls|], id)
  }

  /** A hang-up without anything to read. */
  function HangUp(id: nat): Label
  {
    IoEvent(id, {Hup}, false)
  }

  lemma HangUpCloses(s: State, id: nat)
    requires id in s.conns && s.conns[id].watched
    ensures Disciplined(s, HangUp(id)) && Apply(s, HangUp(id)) == DoClose(s, id)
  {
    ClosesAndReads({Hup});
    assert {Hup} * {In, Pri, RdHup} == {};
    assert Closes({Hup}, false) == 1;
  }

  lemma RemoveEffect(s: State, id: nat)
    requires id in s.conns
    ensures var s' := DoRemove(s, id);
      && id in s'.conns && s'.conns[id].log == s.conns[id].log && s'.conns[id].state == s.conns[id].state
      && s'.conns[id].watched == s.conns[id].watched
  {
  }

  /** handleClose() fails its assert, or reports DOWN and leaves the connection disconnected. */
  lemma CloseEffect(s: State, id: nat)
    requires id in s.conns
    ensures var c, s' := s.conns[id], DoClose(s, id);
      && id in s'.conns
      && (if c.state != Connected && c.state != Disconnecting then s' == s.(fault := true)
          else s'.conns[id].log == c.log + [Down] && s'.conns[id].state == Disconnected && !s'.conns[id].watched)
  {
    var c := s.conns[id];
    var closed := s.(conns := s.conns[id := c.With(AfterClosed(c.Stands()), Closing)]);
    RemoveEffect(closed, id);
  }

  lemma NoSecondDown(log: seq<Event>)
    requires log == [Up, Down] || log == [Up, Down, Destroyed]
    ensures !(log + [Down] <= [Up, Down, Destroyed])
  {
    assert (log + [Down])[|log|] == Down;
  }

  lemma SecondDown(s: State, id: nat)
    requires Inv(s) && id in s.conns && !s.conns[id].watched
    ensures !Keeps(DoClose(Apply(s, Send(id)), id), id)
  {
    var c := s.conns[id];
    assert ConnOk(id, s.ioLoops, c);
    CloseEffect(Apply(s, Send(id)), id);
    if c.state == Disconnecting { NoSecondDown(c.log); }
  }

  lemma BrokenByHangUp(s: State, id: nat)
    requires id in s.conns && s.conns[id].watched && !Keeps(DoClose(s, id), id)
    ensures !AlwaysKeeps(s, id)
  {
    HangUpCloses(s, id);
    var tr, ls := [s, DoClose(s, id)], [HangUp(id)];
    assert StepAt(tr, ls, 0);
    assert IsPath(tr, ls) && DisciplinedRun(tr, ls) && !Keeps(tr[|ls|], id);
  }

  lemma KeptByInv(s: State, id: nat)
    requires Inv(s)
    ensures AlwaysKeeps(s, id)
  {
    forall tr, ls | IsPath(tr, ls) && DisciplinedRun(tr, ls) && tr[0] == s ensures Keeps(tr[|ls|], id) {
      PathInv(tr, ls, |ls|);
    }
  }

  /** A send() that enables writing is harmless exactly while the channel is registered.  Otherwise it
      registers the channel, and the next hang-up event fails the assert in handleClose() or reports DOWN
      a second time. */
  lemma SendOnLiveOnly(s: State, id: nat)
    requires Inv(s) && Enabled(s, Send(id))
    ensures AlwaysKeeps(Apply(s, Send(id)), id) <==> s.conns[id].watched
  {
    if s.conns[id].watched {
      StepInv(s, Send(id));
      KeptByInv(Apply(s, Send(id)), id);
    } else {
      SecondDown(s, id);
      BrokenByHangUp(Apply(s, Send(id)), id);
    }
  }

  /** The state of the connection tells part of it: a connected one is registered. */
  lemma ConnectedIsRegistered(s: State, id: nat)
    requires Inv(s) && id in s.conns && s.conns[id].state == Connected
    ensures s.conns[id].watched
  {
  }

  /** The assert itself fails, after such a send on any connection whose channel is not registered, with
      the first hang-up event, or with the second one if each comes after a send. */
  lemma SendAfterClose(s: State, id: nat)
    requires Inv(s) && id in s.conns && !s.conns[id].watched
    ensures Enabled(Apply(s, Send(id)), HangUp(id))
    ensures var once := Apply(Apply(s, Send(id)), HangUp(id));
      && (s.conns[id].state != Disconnecting ==> once.fault)
      && id in once.conns && Enabled(Apply(once, Send(id)), HangUp(id))
      && Apply(Apply(once, Send(id)), HangUp(id)).fault
  {
    var sent := Apply(s, Send(id));
    HangUpCloses(sent, id);
    CloseEffect(sent, id);
    assert ConnOk(id, s.ioLoops, s.conns[id]);
    var again := Apply(DoClose(sent, id), Send(id));
    HangUpCloses(again, id);
    CloseEffect(again, id);
  }
}
