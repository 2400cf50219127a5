/**
 * A connection's life across the main loop and the I/O loops: `newConnection`,
 * `removeConnection` and `removeConnectionInLoop` of mymuduo/TcpServer.cpp with
 * `connectEstablished`, `handleClose` and `connectDestroyed` of mymuduo/TcpConnection.cpp,
 * as steps of any number of loops over any number of connections.
 */
module Lifecycle {
  import opened Epoll
  import opened OutputStream

  type Id = nat   // a connection, and the number in its name
  type Loop = nat // loop 0 is the main loop

  /** How far a connection has come (history). */
  datatype Stage = Accepted | Live | Closed | Unlisted | Destroyed

  datatype Connection = Connection(loop: Loop, fd: Fd, st: St, index: Index, events: Events, stage: Stage) {
    predicate IsDown() {
      st == Disconnected && index == Deleted && events == NONE_EVENT
    }
  }

  datatype Functor = Establish(id: Id) | Remove(id: Id) | Destroy(id: Id)

  datatype Callback = CameUp(id: Id) | WentDown(id: Id)

  datatype State = State(
    conns: map<Id, Connection>,
    connections: set<Id>,            // TcpServer's map
    nextId: Id,
    queues: map<Loop, seq<Functor>>,
    kernels: map<Loop, Kernel<Id>>,
    refused: bool,                   // history: some epoll_ctl call was refused
    callbacks: seq<Callback>,        // history: all connection callbacks
    released: set<Id>)               // history: connections whose last reference is gone

  const START := State(map[], {}, 1, map[], map[], false, [], {})

  function Queue(s: State, l: Loop): seq<Functor> {
    if l in s.queues then s.queues[l] else []
  }

  function KernelOf(s: State, l: Loop): Kernel<Id> {
    if l in s.kernels then s.kernels[l] else map[]
  }

  // ------------------------------------------------------------------ the pieces

  function Enqueue(s: State, l: Loop, f: Functor): State {
    s.(queues := s.queues[l := Queue(s, l) + [f]])
  }

  function Issue(s: State, l: Loop, call: Ctl<Id>): State {
    if Permitted(KernelOf(s, l), call) then s.(kernels := s.kernels[l := Obey(KernelOf(s, l), call)])
    else s.(refused := true)
  }

  /** A channel setter: the new mask, and the poller's update. */
  function SetEvents(s: State, id: Id, events: Events): State
    requires id in s.conns
  {
    var c := s.conns[id];
    Issue(s.(conns := s.conns[id := c.(events := events, index := UpdatedIndex(c.index, events))]),
          c.loop, Ctl(UpdateOperation(c.index, events), c.fd, Interest(events, id)))
  }

  /** `Channel::remove`. */
  function RemoveChannel(s: State, id: Id): State
    requires id in s.conns
  {
    var c := s.conns[id];
    var s1 := s.(conns := s.conns[id := c.(index := New)]);
    if c.index == Added then Issue(s1, c.loop, Ctl(DEL, c.fd, Interest(c.events, id))) else s1
  }

  function Mark(s: State, id: Id, st: St, stage: Stage): State
    requires id in s.conns
  {
    s.(conns := s.conns[id := s.conns[id].(st := st, stage := stage)])
  }

  function ConnectEstablished(s: State, id: Id): State
    requires id in s.conns
  {
    var s1 := SetEvents(Mark(s, id, Connected, Live), id, With(s.conns[id].events, READ_EVENT));
    s1.(callbacks := s1.callbacks + [CameUp(id)])
  }

  function RemoveConnectionInLoop(s: State, id: Id): State
    requires id in s.conns
  {
    var s1 := Mark(s, id, s.conns[id].st, Unlisted);
    Enqueue(s1.(connections := s1.connections - {id}), s1.conns[id].loop, Destroy(id))
  }

  /** `removeConnection`: at once when already on the main loop, otherwise queued to it. */
  function RemoveConnection(s: State, id: Id): State
    requires id in s.conns
  {
    if s.conns[id].loop == 0 then RemoveConnectionInLoop(s, id) else Enqueue(s, 0, Remove(id))
  }

  /** The state, the mask and the connection callback of a connection that goes down. */
  function TakeDown(s: State, id: Id): State
    requires id in s.conns
  {
    var s1 := SetEvents(Mark(s, id, Disconnected, Closed), id, NONE_EVENT);
    s1.(callbacks := s1.callbacks + [WentDown(id)])
  }

  /** Runs on the connection's loop; the close callback is `removeConnection`. */
  function HandleClose(s: State, id: Id): State
    requires id in s.conns
  {
    RemoveConnection(TakeDown(s, id), id)
  }

  function ConnectDestroyed(s: State, id: Id): State
    requires id in s.conns
  {
    var s1 := if s.conns[id].st == Connected then TakeDown(s, id) else s;
    RemoveChannel(Mark(s1, id, s1.conns[id].st, Destroyed), id)
  }

  /** The close handler runs on a hangup without input, and the read handler closes at end of file. */
  function HandleEvent(s: State, id: Id, revents: Events, eof: bool): State
    requires id in s.conns
  {
    var s1 := if Wants(revents, EPOLLHUP) && !Wants(revents, EPOLLIN) then HandleClose(s, id) else s;
    if Wants(revents, READ_EVENT) && eof then HandleClose(s1, id) else s1
  }

  /** The masks under which both handlers can close. */
  predicate ClosesTwice(revents: Events) {
    Wants(revents, EPOLLHUP) && Wants(revents, EPOLLPRI) && !Wants(revents, EPOLLIN)
  }

  // ------------------------------------------------------------------ steps

  datatype Action =
    | Accept(fd: Fd, loop: Loop)
    | RunFunctor(loop: Loop)
    | Event(id: Id, revents: Events, eof: bool)
    | Traffic(id: Id, shutdown: bool, writing: bool) // shutdown may be asked, write interest set
    | Release(id: Id)

  /** The one event that closes twice. */
  predicate DoubleClose(a: Action) {
    a.Event? && ClosesTwice(a.revents) && a.eof
  }

  /** No reference left: not in the server's map and bound in no queued functor. */
  predicate Unreferenced(s: State, id: Id) {
    id !in s.connections && forall l :: l in s.queues ==> forall f :: f in s.queues[l] ==> f.id != id
  }

  predicate Registered(s: State, id: Id) {
    && id in s.conns
    && var c := s.conns[id];
       c.fd in KernelOf(s, c.loop) && KernelOf(s, c.loop)[c.fd].owner == id
  }

  predicate Enabled(s: State, a: Action) {
    match a
    case Accept(fd, _) => forall id :: id in s.conns && id !in s.released ==> s.conns[id].fd != fd
    case RunFunctor(l) => Queue(s, l) != [] && Queue(s, l)[0].id in s.conns
    case Event(id, _, _) => Registered(s, id)
    case Traffic(id, _, _) => Registered(s, id)
    case Release(id) => id in s.conns && id !in s.released && Unreferenced(s, id)
  }

  function Dispatch(s: State, f: Functor): State
    requires f.id in s.conns
  {
    match f
    case Establish(id) => ConnectEstablished(s, id)
    case Remove(id) => RemoveConnectionInLoop(s, id)
    case Destroy(id) => ConnectDestroyed(s, id)
  }

  function Listed(s: State, fd: Fd, l: Loop): State {
    s.(nextId := s.nextId + 1, connections := s.connections + {s.nextId},
       conns := s.conns[s.nextId := Connection(l, fd, Connecting, New, NONE_EVENT, Accepted)])
  }

  function NewConnection(s: State, fd: Fd, l: Loop): State {
    var id := s.nextId;
    var s1 := Listed(s, fd, l);
    if l == 0 then ConnectEstablished(s1, id) else Enqueue(s1, l, Establish(id))
  }

  function Converse(s: State, id: Id, shutdown: bool, writing: bool): State
    requires id in s.conns
  {
    var c := s.conns[id];
    var st := if shutdown && c.st == Connected then Disconnecting else c.st;
    var events := if writing then With(c.events, WRITE_EVENT) else Without(c.events, WRITE_EVENT);
    SetEvents(Mark(s, id, st, c.stage), id, events)
  }

  function Do(s: State, a: Action): State
    requires Enabled(s, a)
  {
    match a
    case Accept(fd, l) => NewConnection(s, fd, l)
    case RunFunctor(l) => Dispatch(s.(queues := s.queues[l := Queue(s, l)[1..]]), Queue(s, l)[0])
    case Event(id, revents, eof) => HandleEvent(s, id, revents, eof)
    case Traffic(id, shutdown, writing) => Converse(s, id, shutdown, writing)
    case Release(id) => s.(released := s.released + {id})
  }

  // ------------------------------------------------------------------ the invariant

  /** The callbacks one connection has had. */
  function CallbacksOf(log: seq<Callback>, id: Id): seq<Callback> {
    if log == [] then []
    else
      var before, last := CallbacksOf(log[..|log| - 1], id), log[|log| - 1];
      if last.id == id then before + [last] else before
  }

  ghost predicate StageOk(s: State, id: Id)
    requires id in s.conns
  {
    var c := s.conns[id];
    && id < s.nextId
    && (id in s.released ==> c.stage == Destroyed)
    && (id in s.connections <==> c.stage == Accepted || c.stage == Live || c.stage == Closed)
    && match c.stage
       case Accepted =>
         c.st == Connecting && c.index == New && c.events == NONE_EVENT && Establish(id) in Queue(s, c.loop)
       case Live => (c.st == Connected || c.st == Disconnecting) && c.index == Added && Wants(c.events, READ_EVENT)
       case Closed => c.IsDown() && Remove(id) in Queue(s, 0)
       case Unlisted => c.IsDown() && Destroy(id) in Queue(s, c.loop)
       case Destroyed => c.st == Disconnected && c.index == New
  }

  ghost predicate History(s: State, id: Id)
    requires id in s.conns
  {
    CallbacksOf(s.callbacks, id) ==
    match s.conns[id].stage
    case Accepted => []
    case Live => [CameUp(id)]
    case _ => [CameUp(id), WentDown(id)]
  }

  ghost predicate FunctorOk(s: State, l: Loop, f: Functor) {
    f.id in s.conns && match f
    case Establish(id) => s.conns[id].stage == Accepted && s.conns[id].loop == l
    case Remove(id) => s.conns[id].stage == Closed && l == 0
    case Destroy(id) => s.conns[id].stage == Unlisted && s.conns[id].loop == l
  }

  ghost predicate QueuesOk(s: State) {
    && (forall l, i :: 0 <= i < |Queue(s, l)| ==> FunctorOk(s, l, Queue(s, l)[i]))
    && (forall l, i, j :: 0 <= i < j < |Queue(s, l)| ==> Queue(s, l)[i] != Queue(s, l)[j])
  }

  /** Each loop's kernel set holds exactly its live connections, with their masks. */
  ghost predicate KernelOk(s: State) {
    && (forall l, fd :: fd in KernelOf(s, l) ==>
          var id := KernelOf(s, l)[fd].owner;
          id in s.conns && s.conns[id].stage == Live && s.conns[id].loop == l && s.conns[id].fd == fd)
    && (forall id :: id in s.conns && s.conns[id].stage == Live ==>
          var c := s.conns[id];
          c.fd in KernelOf(s, c.loop) && KernelOf(s, c.loop)[c.fd] == Interest(c.events, id))
    && !s.refused
  }

  /** Descriptors of connections that still exist are distinct. */
  ghost predicate FdsApart(s: State) {
    forall a, b :: a in s.conns && b in s.conns && a != b && a !in s.released && b !in s.released ==>
      s.conns[a].fd != s.conns[b].fd
  }

  ghost predicate Inv(s: State) {
    && (forall id :: id in s.conns ==> StageOk(s, id) && History(s, id))
    && s.connections <= s.conns.Keys && s.released <= s.conns.Keys
    && (forall i :: 0 <= i < |s.callbacks| ==> s.callbacks[i].id in s.conns)
    && QueuesOk(s) && KernelOk(s) && FdsApart(s)
  }

  lemma CallbacksSnoc(log: seq<Callback>, c: Callback, id: Id)
    ensures CallbacksOf(log + [c], id) == if c.id == id then CallbacksOf(log, id) + [c] else CallbacksOf(log, id)
  {
    assert (log + [c])[..|log|] == log;
  }

  lemma {:induction false} NoCallbacks(log: seq<Callback>, id: Id)
    requires forall i :: 0 <= i < |log| ==> log[i].id != id
    ensures CallbacksOf(log, id) == []
  {
    if log != [] {
      NoCallbacks(log[..|log| - 1], id);
    }
  }

  // ------------------------------------------------------------------ one connection moves

  /** No queued functor is about `x`. */
  ghost predicate Unqueued(s: State, x: Id) {
    forall l, i :: 0 <= i < |Queue(s, l)| ==> Queue(s, l)[i].id != x
  }

  /** The invariant, with nothing asked of `x`'s stage, and nothing queued for it. */
  ghost predicate InvBut(s: State, x: Id) {
    && (forall id :: id in s.conns && id != x ==> StageOk(s, id))
    && (forall id :: id in s.conns ==> History(s, id))
    && s.connections <= s.conns.Keys && s.released <= s.conns.Keys
    && (forall i :: 0 <= i < |s.callbacks| ==> s.callbacks[i].id in s.conns)
    && QueuesOk(s) && KernelOk(s) && FdsApart(s) && Unqueued(s, x)
    && x in s.conns && x < s.nextId && x !in s.released
  }

  /** `s'` differs from `s` only in what concerns `x`; queues may have grown. */
  ghost predicate OnlyMoved(s: State, s': State, x: Id) {
    && x in s.conns && x in s'.conns && s'.conns == s.conns[x := s'.conns[x]]
    && s'.conns[x].loop == s.conns[x].loop && s'.conns[x].fd == s.conns[x].fd
    && s'.connections - {x} == s.connections - {x}
    && s'.released == s.released && s'.nextId == s.nextId
    && (forall l :: Queue(s, l) <= Queue(s', l))
  }

  lemma OthersStay(s: State, s': State, x: Id)
    requires InvBut(s, x) && OnlyMoved(s, s', x)
    ensures forall id :: id in s'.conns && id != x ==> StageOk(s', id)
    ensures s'.connections <= s'.conns.Keys && s'.released <= s'.conns.Keys
    ensures FdsApart(s')
  {
    forall id | id in s'.conns && id != x ensures StageOk(s', id) {
      assert StageOk(s, id);
      assert id in s'.connections <==> id in s'.connections - {x};
      assert id in s.connections <==> id in s.connections - {x};
      QueueKeeps(s, s', s.conns[id].loop);
      QueueKeeps(s, s', 0);
    }
    forall id | id in s'.connections ensures id in s'.conns {
      if id != x {
        assert id in s'.connections - {x};
      }
    }
  }

  lemma QueueKeeps(s: State, s': State, l: Loop)
    requires Queue(s, l) <= Queue(s', l)
    ensures forall f :: f in Queue(s, l) ==> f in Queue(s', l)
  {
  }

  lemma QueuesStay(s: State, s': State, x: Id)
    requires InvBut(s, x) && OnlyMoved(s, s', x)
    requires forall l :: Queue(s', l) == Queue(s, l)
    ensures QueuesOk(s')
  {
    forall l, i | 0 <= i < |Queue(s', l)| ensures FunctorOk(s', l, Queue(s', l)[i]) {
      assert FunctorOk(s, l, Queue(s, l)[i]);
    }
  }

  lemma QueueGrows(s: State, s': State, x: Id, at: Loop, f: Functor)
    requires InvBut(s, x) && OnlyMoved(s, s', x)
    requires forall l :: Queue(s', l) == if l == at then Queue(s, l) + [f] else Queue(s, l)
    requires f.id == x && FunctorOk(s', at, f)
    ensures QueuesOk(s')
  {
    forall l, i | 0 <= i < |Queue(s', l)| ensures FunctorOk(s', l, Queue(s', l)[i]) {
      if i < |Queue(s, l)| {
        assert FunctorOk(s, l, Queue(s, l)[i]) && Queue(s', l)[i] == Queue(s, l)[i];
      }
    }
    forall l, i, j | 0 <= i < j < |Queue(s', l)| ensures Queue(s', l)[i] != Queue(s', l)[j] {
      assert Queue(s', l)[i] == Queue(s, l)[i];
      if j < |Queue(s, l)| {
        assert Queue(s', l)[j] == Queue(s, l)[j];
      }
    }
  }

  /** Before it is registered, a connection's descriptor is not in its loop's kernel set. */
  lemma NotRegistered(s: State, x: Id)
    requires InvBut(s, x) && s.conns[x].stage != Live
    ensures s.conns[x].fd !in KernelOf(s, s.conns[x].loop)
  {
  }

  lemma KernelStays(s: State, s': State, x: Id)
    requires InvBut(s, x) && OnlyMoved(s, s', x)
    requires s.conns[x].stage != Live && s'.conns[x].stage != Live
    requires s'.kernels == s.kernels && !s'.refused
    ensures KernelOk(s')
  {
    forall l, fd | fd in KernelOf(s', l)
      ensures var id := KernelOf(s', l)[fd].owner;
              id in s'.conns && s'.conns[id].stage == Live && s'.conns[id].loop == l && s'.conns[id].fd == fd
    {
      assert KernelOf(s', l) == KernelOf(s, l);
    }
    forall id | id in s'.conns && s'.conns[id].stage == Live
      ensures var c := s'.conns[id];
              c.fd in KernelOf(s', c.loop) && KernelOf(s', c.loop)[c.fd] == Interest(c.events, id)
    {
      assert KernelOf(s', s.conns[id].loop) == KernelOf(s, s.conns[id].loop);
    }
  }

  /** Registering `x`, or changing its mask. */
  lemma KernelHolds(s: State, s': State, x: Id)
    requires InvBut(s, x) && OnlyMoved(s, s', x) && s'.conns[x].stage == Live
    requires s.conns[x].stage == Live || s.conns[x].fd !in KernelOf(s, s.conns[x].loop)
    requires var c := s'.conns[x];
             s'.kernels == s.kernels[c.loop := KernelOf(s, c.loop)[c.fd := Interest(c.events, x)]] && !s'.refused
    ensures KernelOk(s')
  {
    var c := s'.conns[x];
    forall l, fd | fd in KernelOf(s', l)
      ensures var id := KernelOf(s', l)[fd].owner;
              id in s'.conns && s'.conns[id].stage == Live && s'.conns[id].loop == l && s'.conns[id].fd == fd
    {
      if l != c.loop || fd != c.fd {
        assert fd in KernelOf(s, l) && KernelOf(s', l)[fd] == KernelOf(s, l)[fd];
      }
    }
    forall id | id in s'.conns && s'.conns[id].stage == Live
      ensures var d := s'.conns[id];
              d.fd in KernelOf(s', d.loop) && KernelOf(s', d.loop)[d.fd] == Interest(d.events, id)
    {
      if id != x {
        var d := s.conns[id];
        assert KernelOf(s, d.loop)[d.fd] == Interest(d.events, id) && StageOk(s, id);
        assert d.fd != c.fd;
      }
    }
  }

  lemma KernelDrops(s: State, s': State, x: Id)
    requires InvBut(s, x) && OnlyMoved(s, s', x) && s.conns[x].stage == Live && s'.conns[x].stage != Live
    requires var c := s.conns[x];
             s'.kernels == s.kernels[c.loop := KernelOf(s, c.loop) - {c.fd}] && !s'.refused
    ensures KernelOk(s')
  {
    var c := s.conns[x];
    forall l, fd | fd in KernelOf(s', l)
      ensures var id := KernelOf(s', l)[fd].owner;
              id in s'.conns && s'.conns[id].stage == Live && s'.conns[id].loop == l && s'.conns[id].fd == fd
    {
      assert fd in KernelOf(s, l) && KernelOf(s', l)[fd] == KernelOf(s, l)[fd];
    }
    forall id | id in s'.conns && s'.conns[id].stage == Live
      ensures var d := s'.conns[id];
              d.fd in KernelOf(s', d.loop) && KernelOf(s', d.loop)[d.fd] == Interest(d.events, id)
    {
      var d := s.conns[id];
      assert KernelOf(s, d.loop)[d.fd] == Interest(d.events, id) && StageOk(s, id);
      assert d.fd != c.fd;
    }
  }

  /** A callback for `x` extends `x`'s history and nobody else's. */
  lemma HistoryGrows(s: State, s': State, x: Id, c: Callback)
    requires InvBut(s, x) && OnlyMoved(s, s', x)
    requires s'.callbacks == s.callbacks + [c] && c.id == x
    ensures forall id :: id in s'.conns && id != x ==> History(s', id)
    ensures CallbacksOf(s'.callbacks, x) == CallbacksOf(s.callbacks, x) + [c]
    ensures forall i :: 0 <= i < |s'.callbacks| ==> s'.callbacks[i].id in s'.conns
  {
    CallbacksSnoc(s.callbacks, c, x);
    forall id | id in s'.conns && id != x ensures History(s', id) {
      assert History(s, id);
      CallbacksSnoc(s.callbacks, c, id);
    }
  }

  lemma HistoryStays(s: State, s': State, x: Id)
    requires InvBut(s, x) && OnlyMoved(s, s', x) && s'.callbacks == s.callbacks
    ensures forall id :: id in s'.conns && id != x ==> History(s', id)
  {
    forall id | id in s'.conns && id != x ensures History(s', id) {
      assert History(s, id);
    }
  }

  // ------------------------------------------------------------------ the five moves

  lemma Assemble(s: State, s': State, x: Id)
    requires InvBut(s, x) && OnlyMoved(s, s', x)
    requires StageOk(s', x) && History(s', x)
    requires forall id :: id in s'.conns && id != x ==> History(s', id)
    requires forall i :: 0 <= i < |s'.callbacks| ==> s'.callbacks[i].id in s'.conns
    requires QueuesOk(s') && KernelOk(s')
    ensures Inv(s')
  {
    OthersStay(s, s', x);
  }

  /** Queues that only grew by one functor. */
  lemma Grown(s: State, s': State, l: Loop, f: Functor)
    requires s'.queues == s.queues[l := Queue(s, l) + [f]]
    ensures forall m :: Queue(s', m) == if m == l then Queue(s, m) + [f] else Queue(s, m)
    ensures forall m :: Queue(s, m) <= Queue(s', m)
    ensures f in Queue(s', l)
  {
    assert Queue(s', l)[|Queue(s, l)|] == f;
  }

  lemma UpShape(s: State, x: Id)
    requires x in s.conns && s.conns[x].index == New && s.conns[x].events == NONE_EVENT
    requires s.conns[x].fd !in KernelOf(s, s.conns[x].loop)
    ensures var c := s.conns[x];
            var s' := ConnectEstablished(s, x);
            && s'.conns == s.conns[x := c.(st := Connected, stage := Live, index := Added, events := READ_EVENT)]
            && s'.kernels == s.kernels[c.loop := KernelOf(s, c.loop)[c.fd := Interest(READ_EVENT, x)]]
            && s' == s.(conns := s'.conns, kernels := s'.kernels, callbacks := s.callbacks + [CameUp(x)])
  {
  }

  lemma MoveUp(s: State, x: Id)
    requires InvBut(s, x) && x in s.connections
    requires s.conns[x].stage == Accepted && s.conns[x].index == New && s.conns[x].events == NONE_EVENT
    ensures Inv(ConnectEstablished(s, x))
  {
    var s' := ConnectEstablished(s, x);
    NotRegistered(s, x);
    UpShape(s, x);
    assert Wants(READ_EVENT, READ_EVENT);
    assert History(s, x);
    HistoryGrows(s, s', x, CameUp(x));
    QueuesStay(s, s', x);
    KernelHolds(s, s', x);
    Assemble(s, s', x);
  }

  lemma TrafficShape(s: State, x: Id, shutdown: bool, writing: bool)
    requires x in s.conns && s.conns[x].index == Added && Wants(s.conns[x].events, READ_EVENT)
    requires s.conns[x].fd in KernelOf(s, s.conns[x].loop)
    ensures var c := s.conns[x];
            var s' := Converse(s, x, shutdown, writing);
            && x in s'.conns
            && (s'.conns[x].st == c.st || (c.st == Connected && s'.conns[x].st == Disconnecting))
            && Wants(s'.conns[x].events, READ_EVENT)
            && s'.conns == s.conns[x := c.(st := s'.conns[x].st, events := s'.conns[x].events)]
            && s'.kernels == s.kernels[c.loop := KernelOf(s, c.loop)[c.fd := Interest(s'.conns[x].events, x)]]
            && s' == s.(conns := s'.conns, kernels := s'.kernels)
  {
    var events := if writing then With(s.conns[x].events, WRITE_EVENT) else Without(s.conns[x].events, WRITE_EVENT);
  }

  lemma MoveTraffic(s: State, x: Id, shutdown: bool, writing: bool)
    requires InvBut(s, x) && StageOk(s, x) && s.conns[x].stage == Live
    ensures Inv(Converse(s, x, shutdown, writing))
  {
    var s' := Converse(s, x, shutdown, writing);
    TrafficShape(s, x, shutdown, writing);
    assert History(s, x);
    HistoryStays(s, s', x);
    QueuesStay(s, s', x);
    KernelHolds(s, s', x);
    Assemble(s, s', x);
  }

  /** `x` is down and listed, and neither its removal nor anything else is queued for it. */
  ghost predicate ClosedOff(s: State, x: Id) {
    InvBut(s, x) && x in s.connections && s.conns[x].stage == Closed && s.conns[x].IsDown()
  }

  lemma DownShape(s: State, x: Id)
    requires x in s.conns && s.conns[x].index == Added
    requires s.conns[x].fd in KernelOf(s, s.conns[x].loop)
    ensures TakeDown(s, x) == Downed(s, x)
  {
  }

  /** `x` down, off its kernel set, its callback given. */
  ghost function Downed(s: State, x: Id): State
    requires x in s.conns
  {
    var c := s.conns[x];
    s.(conns := s.conns[x := c.(st := Disconnected, stage := Closed, index := Deleted, events := NONE_EVENT)],
       kernels := s.kernels[c.loop := KernelOf(s, c.loop) - {c.fd}],
       callbacks := s.callbacks + [WentDown(x)])
  }

  /** The first half of `handleClose`. */
  lemma MoveClosed(s: State, x: Id)
    requires InvBut(s, x) && StageOk(s, x) && s.conns[x].stage == Live
    ensures ClosedOff(TakeDown(s, x), x)
  {
    DownShape(s, x);
    ClosedParts(s, TakeDown(s, x), x);
  }

  lemma ClosedParts(s: State, s': State, x: Id)
    requires InvBut(s, x) && StageOk(s, x) && s.conns[x].stage == Live
    requires s' == Downed(s, x)
    ensures ClosedOff(s', x)
  {
    hide QueuesOk, FdsApart, FunctorOk, History;
    assert forall l :: Queue(s', l) == Queue(s, l);
    HistoryGrows(s, s', x, WentDown(x));
    HistoryOfClosed(s, s', x);
    QueuesStay(s, s', x);
    KernelDrops(s, s', x);
    AssembleBut(s, s', x);
  }

  lemma HistoryOfClosed(s: State, s': State, x: Id)
    requires x in s.conns && s.conns[x].stage == Live && History(s, x)
    requires x in s'.conns && s'.conns[x].stage == Closed
    requires CallbacksOf(s'.callbacks, x) == CallbacksOf(s.callbacks, x) + [WentDown(x)]
    ensures History(s', x)
  {
  }

  lemma AssembleBut(s: State, s': State, x: Id)
    requires InvBut(s, x) && OnlyMoved(s, s', x)
    requires forall l :: Queue(s', l) == Queue(s, l)
    requires forall id :: id in s'.conns ==> History(s', id)
    requires forall i :: 0 <= i < |s'.callbacks| ==> s'.callbacks[i].id in s'.conns
    requires QueuesOk(s') && KernelOk(s')
    ensures InvBut(s', x)
  {
    hide StageOk, History, QueuesOk, KernelOk, FdsApart;
    OthersStay(s, s', x);
  }

  /** The close callback, whichever loop it runs on. */
  lemma MoveAway(s: State, x: Id)
    requires ClosedOff(s, x)
    ensures Inv(RemoveConnection(s, x))
  {
    if s.conns[x].loop == 0 {
      MoveOut(s, x);
    } else {
      var s' := Enqueue(s, 0, Remove(x));
      Grown(s, s', 0, Remove(x));
      assert History(s, x);
      HistoryStays(s, s', x);
      QueueGrows(s, s', x, 0, Remove(x));
      KernelStays(s, s', x);
      Assemble(s, s', x);
    }
  }

  lemma MoveDown(s: State, x: Id)
    requires InvBut(s, x) && StageOk(s, x) && s.conns[x].stage == Live
    ensures Inv(HandleClose(s, x))
  {
    MoveClosed(s, x);
    MoveAway(TakeDown(s, x), x);
  }

  lemma MoveOut(s: State, x: Id)
    requires ClosedOff(s, x)
    ensures Inv(RemoveConnectionInLoop(s, x))
  {
    var s' := RemoveConnectionInLoop(s, x);
    var l := s.conns[x].loop;
    Grown(s, s', l, Destroy(x));
    assert History(s, x);
    HistoryStays(s, s', x);
    QueueGrows(s, s', x, l, Destroy(x));
    KernelStays(s, s', x);
    Assemble(s, s', x);
  }

  lemma EndShape(s: State, x: Id)
    requires x in s.conns && s.conns[x].st == Disconnected && s.conns[x].index == Deleted
    ensures ConnectDestroyed(s, x) == s.(conns := s.conns[x := s.conns[x].(stage := Destroyed, index := New)])
  {
  }

  lemma MoveEnd(s: State, x: Id)
    requires InvBut(s, x) && s.conns[x].stage == Unlisted && x !in s.connections
    requires s.conns[x].st == Disconnected && s.conns[x].index == Deleted
    ensures Inv(ConnectDestroyed(s, x))
  {
    var s' := ConnectDestroyed(s, x);
    EndShape(s, x);
    assert History(s, x);
    HistoryStays(s, s', x);
    QueuesStay(s, s', x);
    KernelStays(s, s', x);
    Assemble(s, s', x);
  }

  // ------------------------------------------------------------------ every step

  /** A live connection has nothing queued. */
  lemma LiveIsUnqueued(s: State, x: Id)
    requires Inv(s) && x in s.conns && s.conns[x].stage == Live
    ensures InvBut(s, x)
  {
    assert StageOk(s, x);
    forall l, i | 0 <= i < |Queue(s, l)| ensures Queue(s, l)[i].id != x {
      assert FunctorOk(s, l, Queue(s, l)[i]);
    }
  }

  lemma Popped(s: State, l: Loop)
    requires Inv(s) && Queue(s, l) != []
    ensures var x := Queue(s, l)[0].id;
            var s1 := s.(queues := s.queues[l := Queue(s, l)[1..]]);
            x in s.conns && InvBut(s1, x)
  {
    var f := Queue(s, l)[0];
    var s1 := s.(queues := s.queues[l := Queue(s, l)[1..]]);
    assert FunctorOk(s, l, f) && StageOk(s, f.id);
    PoppedQueues(s, s1, l);
    forall id | id in s1.conns && id != f.id ensures StageOk(s1, id) {
      assert StageOk(s, id);
      StillQueued(s, s1, l, s.conns[id].loop);
      StillQueued(s, s1, l, 0);
    }
    forall id | id in s1.conns ensures History(s1, id) {
      assert History(s, id);
    }
    assert forall k :: KernelOf(s1, k) == KernelOf(s, k);
  }

  lemma StillQueued(s: State, s1: State, l: Loop, m: Loop)
    requires Queue(s, l) != [] && s1.queues == s.queues[l := Queue(s, l)[1..]]
    ensures forall g :: g in Queue(s, m) && g.id != Queue(s, l)[0].id ==> g in Queue(s1, m)
  {
    if m == l {
      assert Queue(s, l) == [Queue(s, l)[0]] + Queue(s1, l);
    }
  }

  lemma PoppedQueues(s: State, s1: State, l: Loop)
    requires QueuesOk(s) && Queue(s, l) != []
    requires s1 == s.(queues := s.queues[l := Queue(s, l)[1..]])
    ensures QueuesOk(s1) && Unqueued(s1, Queue(s, l)[0].id)
  {
    var f := Queue(s, l)[0];
    assert FunctorOk(s, l, f);
    forall m, i | 0 <= i < |Queue(s1, m)|
      ensures FunctorOk(s1, m, Queue(s1, m)[i]) && Queue(s1, m)[i].id != f.id
    {
      var k := if m == l then i + 1 else i;
      assert Queue(s1, m)[i] == Queue(s, m)[k];
      assert FunctorOk(s, m, Queue(s, m)[k]);
      if m == l {
        assert Queue(s, l)[0] != Queue(s, l)[k];
      }
    }
    forall m, i, j | 0 <= i < j < |Queue(s1, m)| ensures Queue(s1, m)[i] != Queue(s1, m)[j] {
      var d := if m == l then 1 else 0;
      assert Queue(s1, m)[i] == Queue(s, m)[i + d] && Queue(s1, m)[j] == Queue(s, m)[j + d];
    }
  }

  lemma FunctorKeepsInv(s: State, l: Loop)
    requires Inv(s) && Enabled(s, RunFunctor(l))
    ensures Inv(Do(s, RunFunctor(l)))
  {
    var f := Queue(s, l)[0];
    var s1 := s.(queues := s.queues[l := Queue(s, l)[1..]]);
    assert FunctorOk(s, l, f) && StageOk(s, f.id);
    Popped(s, l);
    match f {
      case Establish(x) => MoveUp(s1, x);
      case Remove(x) => MoveOut(s1, x);
      case Destroy(x) => MoveEnd(s1, x);
    }
  }

  /** The next name is in no one's use. */
  lemma FreshName(s: State)
    requires Inv(s)
    ensures s.nextId !in s.conns && s.nextId !in s.connections
  {
    forall id | id in s.conns ensures id < s.nextId {
      assert StageOk(s, id);
    }
  }

  lemma AcceptKeepsInv(s: State, fd: Fd, l: Loop)
    requires Inv(s) && Enabled(s, Accept(fd, l))
    ensures Inv(Do(s, Accept(fd, l)))
  {
    var x := s.nextId;
    var s1 := Listed(s, fd, l);
    NewIsApart(s, s1, fd, l);
    if l == 0 {
      MoveUp(s1, x);
    } else {
      MoveIn(s1, x);
    }
  }

  lemma MoveIn(s: State, x: Id)
    requires InvBut(s, x) && x in s.connections
    requires s.conns[x].stage == Accepted && s.conns[x].st == Connecting
    requires s.conns[x].index == New && s.conns[x].events == NONE_EVENT
    ensures Inv(Enqueue(s, s.conns[x].loop, Establish(x)))
  {
    var l := s.conns[x].loop;
    var s' := Enqueue(s, l, Establish(x));
    Grown(s, s', l, Establish(x));
    assert History(s, x);
    HistoryStays(s, s', x);
    QueueGrows(s, s', x, l, Establish(x));
    KernelStays(s, s', x);
    Assemble(s, s', x);
  }

  lemma NewIsApart(s: State, s1: State, fd: Fd, l: Loop)
    requires Inv(s) && Enabled(s, Accept(fd, l))
    requires s1 == Listed(s, fd, l)
    ensures InvBut(s1, s.nextId)
  {
    hide StageOk, History, QueuesOk, KernelOk, FunctorOk, Unqueued;
    var x := s.nextId;
    FreshName(s);
    NewStages(s, s1, x);
    NewQueues(s, s1, x);
  }

  lemma NewStages(s: State, s1: State, x: Id)
    requires Inv(s) && x == s.nextId && x !in s.conns && x in s1.conns && s1.conns[x].stage == Accepted
    requires s1 == s.(nextId := x + 1, connections := s.connections + {x}, conns := s.conns[x := s1.conns[x]])
    ensures forall id :: id in s1.conns && id != x ==> StageOk(s1, id)
    ensures forall id :: id in s1.conns ==> History(s1, id)
  {
    forall id | id in s1.conns && id != x ensures StageOk(s1, id) {
      assert StageOk(s, id);
      assert forall l :: Queue(s1, l) == Queue(s, l);
    }
    NoCallbacks(s.callbacks, x);
    forall id | id in s1.conns ensures History(s1, id) {
      assert id != x ==> History(s, id);
    }
  }

  lemma NewQueues(s: State, s1: State, x: Id)
    requires Inv(s) && x !in s.conns && x in s1.conns
    requires s1.queues == s.queues && s1.conns == s.conns[x := s1.conns[x]]
    requires s1.kernels == s.kernels && s1.refused == s.refused && s1.conns[x].stage != Live
    ensures QueuesOk(s1) && Unqueued(s1, x) && KernelOk(s1)
  {
    assert forall l :: Queue(s1, l) == Queue(s, l) && KernelOf(s1, l) == KernelOf(s, l);
    forall m, i | 0 <= i < |Queue(s1, m)| ensures FunctorOk(s1, m, Queue(s1, m)[i]) && Queue(s1, m)[i].id != x {
      assert FunctorOk(s, m, Queue(s, m)[i]);
    }
  }

  lemma DoKeepsInv(s: State, a: Action)
    requires Inv(s) && Enabled(s, a) && !DoubleClose(a)
    ensures Inv(Do(s, a))
  {
    match a {
      case Accept(fd, l) => AcceptKeepsInv(s, fd, l);
      case RunFunctor(l) => FunctorKeepsInv(s, l);
      case Event(id, revents, eof) => EventKeepsInv(s, id, revents, eof);
      case Traffic(id, shutdown, writing) =>
        LiveIsUnqueued(s, id);
        MoveTraffic(s, id, shutdown, writing);
      case Release(id) => ReleaseKeepsInv(s, id);
    }
  }

  lemma ReadMask(revents: Events)
    ensures Wants(revents, READ_EVENT) <==> Wants(revents, EPOLLIN) || Wants(revents, EPOLLPRI)
  {
  }

  lemma EventKeepsInv(s: State, id: Id, revents: Events, eof: bool)
    requires Inv(s) && Enabled(s, Event(id, revents, eof)) && !DoubleClose(Event(id, revents, eof))
    ensures Inv(Do(s, Event(id, revents, eof)))
  {
    ReadMask(revents);
    LiveIsUnqueued(s, id);
    MoveDown(s, id);
  }

  /** The last reference goes only after `connectDestroyed`. */
  lemma UnreferencedIsDestroyed(s: State, id: Id)
    requires Inv(s) && id in s.conns && Unreferenced(s, id)
    ensures s.conns[id].stage == Destroyed && s.conns[id].index == New
    ensures forall l, fd :: fd in KernelOf(s, l) ==> KernelOf(s, l)[fd].owner != id
  {
    assert StageOk(s, id);
  }

  lemma ReleaseKeepsInv(s: State, id: Id)
    requires Inv(s) && Enabled(s, Release(id))
    ensures Inv(Do(s, Release(id)))
  {
    hide StageOk, History, QueuesOk, KernelOk;
    UnreferencedIsDestroyed(s, id);
    var s' := s.(released := s.released + {id});
    ReleasedStages(s, s', id);
    ReleasedQueues(s, s');
  }

  lemma ReleasedStages(s: State, s': State, id: Id)
    requires Inv(s) && id in s.conns && s.conns[id].stage == Destroyed
    requires s' == s.(released := s.released + {id})
    ensures forall x :: x in s'.conns ==> StageOk(s', x) && History(s', x)
  {
    forall x | x in s'.conns ensures StageOk(s', x) && History(s', x) {
      assert StageOk(s, x) && History(s, x);
      assert Queue(s', s.conns[x].loop) == Queue(s, s.conns[x].loop) && Queue(s', 0) == Queue(s, 0);
    }
  }

  lemma ReleasedQueues(s: State, s': State)
    requires QueuesOk(s) && KernelOk(s)
    requires s'.queues == s.queues && s'.conns == s.conns && s'.kernels == s.kernels && s'.refused == s.refused
    ensures QueuesOk(s') && KernelOk(s')
  {
    assert forall l :: Queue(s', l) == Queue(s, l) && KernelOf(s', l) == KernelOf(s, l);
    forall l, i | 0 <= i < |Queue(s', l)| ensures FunctorOk(s', l, Queue(s', l)[i]) {
      assert FunctorOk(s, l, Queue(s, l)[i]);
    }
  }

  // ------------------------------------------------------------------ whole runs

  predicate Behaviour(s: State, run: seq<Action>)
    decreases |run|
  {
    run == [] || (Enabled(s, run[0]) && Behaviour(Do(s, run[0]), run[1..]))
  }

  function Reach(s: State, run: seq<Action>): State
    requires Behaviour(s, run)
    decreases |run|
  {
    if run == [] then s else Reach(Do(s, run[0]), run[1..])
  }

  ghost predicate Clean(run: seq<Action>) {
    forall a :: a in run ==> !DoubleClose(a)
  }

  lemma {:induction false} ReachKeepsInv(s: State, run: seq<Action>)
    requires Inv(s) && Behaviour(s, run) && Clean(run)
    ensures Inv(Reach(s, run))
    decreases |run|
  {
    if run != [] {
      DoKeepsInv(s, run[0]);
      ReachKeepsInv(Do(s, run[0]), run[1..]);
    }
  }

  /** Each connection comes up at most once, then goes down at most once, and nothing else. */
  lemma UpThenDown(run: seq<Action>, id: Id)
    requires Behaviour(START, run) && Clean(run)
    ensures CallbacksOf(Reach(START, run).callbacks, id) <= [CameUp(id), WentDown(id)]
    ensures id in Reach(START, run).conns && Reach(START, run).conns[id].stage != Accepted ==>
              CameUp(id) in CallbacksOf(Reach(START, run).callbacks, id)
  {
    ReachKeepsInv(START, run);
    var s := Reach(START, run);
    if id in s.conns {
      assert History(s, id);
    } else {
      StrangersSilent(s, id);
    }
  }

  /** Callbacks are only about connections that were accepted. */
  lemma StrangersSilent(s: State, id: Id)
    requires Inv(s) && id !in s.conns
    ensures CallbacksOf(s.callbacks, id) == []
  {
    NoCallbacks(s.callbacks, id);
  }

  /** `connectDestroyed` only ever runs on a connection that `handleClose` has taken down. */
  lemma DestroyedAfterClose(run: seq<Action>, l: Loop)
    requires Behaviour(START, run) && Clean(run)
    requires Queue(Reach(START, run), l) != [] && Queue(Reach(START, run), l)[0].Destroy?
    ensures var s := Reach(START, run);
            var id := Queue(s, l)[0].id;
            && id in s.conns && s.conns[id].st == Disconnected && s.conns[id].loop == l
            && CallbacksOf(s.callbacks, id) == [CameUp(id), WentDown(id)]
            && id !in s.connections
  {
    ReachKeepsInv(START, run);
    var s := Reach(START, run);
    var id := Queue(s, l)[0].id;
    assert FunctorOk(s, l, Queue(s, l)[0]);
    assert StageOk(s, id) && History(s, id);
  }

  /** When the last reference to a connection can go, no kernel set holds it and its channel is unregistered. */
  lemma ReleasedAfterRemoval(run: seq<Action>, id: Id)
    requires Behaviour(START, run) && Clean(run)
    requires id in Reach(START, run).conns && Unreferenced(Reach(START, run), id)
    ensures var s := Reach(START, run);
            && s.conns[id].index == New
            && CallbacksOf(s.callbacks, id) == [CameUp(id), WentDown(id)]
            && forall l, fd :: fd in KernelOf(s, l) ==> KernelOf(s, l)[fd].owner != id
  {
    ReachKeepsInv(START, run);
    UnreferencedIsDestroyed(Reach(START, run), id);
    assert History(Reach(START, run), id);
  }

  /** Every call of `epoll_ctl` is accepted, and the server's map holds only connections that still exist. */
  lemma CallsAccepted(run: seq<Action>)
    requires Behaviour(START, run) && Clean(run)
    ensures var s := Reach(START, run);
            !s.refused && forall id :: id in s.connections ==> id in s.conns && id !in s.released
  {
    ReachKeepsInv(START, run);
    var s := Reach(START, run);
    forall id | id in s.connections ensures id in s.conns && id !in s.released {
      assert id in s.conns && StageOk(s, id);
    }
  }

  /** No connection has a number that is still to be given out. */
  ghost predicate Numbered(s: State) {
    (forall id :: id in s.conns ==> id < s.nextId) && s.connections <= s.conns.Keys
  }

  /** No number is given out, and none comes into the map. */
  ghost predicate SameNames(s: State, s': State) {
    s'.conns.Keys == s.conns.Keys && s'.nextId == s.nextId && s'.connections <= s.connections
  }

  lemma EstablishNames(s: State, id: Id)
    requires id in s.conns
    ensures SameNames(s, ConnectEstablished(s, id))
  {
  }

  lemma DownNames(s: State, id: Id)
    requires id in s.conns
    ensures SameNames(s, TakeDown(s, id))
  {
  }

  lemma CloseNames(s: State, id: Id)
    requires id in s.conns
    ensures SameNames(s, HandleClose(s, id))
  {
    DownNames(s, id);
    hide TakeDown;
  }

  lemma DestroyNames(s: State, id: Id)
    requires id in s.conns
    ensures SameNames(s, ConnectDestroyed(s, id))
  {
    DownNames(s, id);
    hide TakeDown;
  }

  lemma FunctorNames(s: State, f: Functor)
    requires f.id in s.conns
    ensures SameNames(s, Dispatch(s, f))
  {
    match f {
      case Establish(id) => EstablishNames(s, id);
      case Remove(id) =>
      case Destroy(id) => DestroyNames(s, id);
    }
  }

  lemma TrafficNames(s: State, id: Id, shutdown: bool, writing: bool)
    requires id in s.conns
    ensures SameNames(s, Converse(s, id, shutdown, writing))
  {
  }

  lemma DoKeepsNumbered(s: State, a: Action)
    requires Numbered(s) && Enabled(s, a)
    ensures Numbered(Do(s, a))
  {
    hide ConnectEstablished, Dispatch, Converse, HandleClose;
    match a {
      case Accept(fd, l) => EstablishNames(Listed(s, fd, l), s.nextId);
      case RunFunctor(l) => FunctorNames(s.(queues := s.queues[l := Queue(s, l)[1..]]), Queue(s, l)[0]);
      case Event(id, revents, eof) =>
        CloseNames(s, id);
        CloseNames(HandleClose(s, id), id);
      case Traffic(id, shutdown, writing) => TrafficNames(s, id, shutdown, writing);
      case Release(id) =>
    }
  }

  lemma {:induction false} ReachKeepsNumbered(s: State, run: seq<Action>)
    requires Numbered(s) && Behaviour(s, run)
    ensures Numbered(Reach(s, run))
    decreases |run|
  {
    hide Numbered, Do, Enabled;
    if run != [] {
      DoKeepsNumbered(s, run[0]);
      ReachKeepsNumbered(Do(s, run[0]), run[1..]);
    }
  }

  /** In every run the next name is in no one's use, so the server's map is never overwritten. */
  lemma NamesFresh(run: seq<Action>)
    requires Behaviour(START, run)
    ensures Reach(START, run).nextId !in Reach(START, run).conns
    ensures Reach(START, run).nextId !in Reach(START, run).connections
  {
    ReachKeepsNumbered(START, run);
  }

  lemma CloseSays(s: State, id: Id)
    requires id in s.conns
    ensures id in HandleClose(s, id).conns
    ensures HandleClose(s, id).callbacks == s.callbacks + [WentDown(id)]
    ensures CallbacksOf(HandleClose(s, id).callbacks, id) == CallbacksOf(s.callbacks, id) + [WentDown(id)]
  {
    CallbacksSnoc(s.callbacks, WentDown(id), id);
  }

  lemma RegisteredIsUp(s: State, id: Id)
    requires Inv(s) && Registered(s, id)
    ensures CallbacksOf(s.callbacks, id) == [CameUp(id)]
  {
    assert History(s, id);
  }

  /**
   * On a live connection an event produces at most one down callback, unless it reports a
   * hangup with urgent data and no input and the read then meets end of file: exactly then
   * there are two.
   */
  lemma DownOnceExactly(s: State, id: Id, revents: Events, eof: bool)
    requires Inv(s) && Registered(s, id)
    ensures CallbacksOf(HandleEvent(s, id, revents, eof).callbacks, id) <= [CameUp(id), WentDown(id)]
            <==> !(ClosesTwice(revents) && eof)
  {
    hide HandleClose, CallbacksOf;
    ReadMask(revents);
    RegisteredIsUp(s, id);
    CloseSays(s, id);
    CloseSays(HandleClose(s, id), id);
  }

  lemma {:induction false} CallbacksPrefix(log: seq<Callback>, more: seq<Callback>, id: Id)
    requires log <= more
    ensures CallbacksOf(log, id) <= CallbacksOf(more, id)
    decreases |more|
  {
    if |log| < |more| {
      CallbacksPrefix(log, more[..|more| - 1], id);
    } else {
      assert log == more;
    }
  }

  lemma DoKeepsCallbacks(s: State, a: Action)
    requires Enabled(s, a)
    ensures s.callbacks <= Do(s, a).callbacks
  {
    hide ConnectEstablished, Dispatch, HandleClose, Wants;
    match a {
      case Accept(fd, l) =>
        if l == 0 {
          EstablishKeepsCallbacks(Listed(s, fd, l), s.nextId);
        }
      case RunFunctor(l) =>
        FunctorKeepsCallbacks(s.(queues := s.queues[l := Queue(s, l)[1..]]), Queue(s, l)[0]);
      case Event(id, revents, eof) =>
        CloseSays(s, id);
        CloseSays(HandleClose(s, id), id);
      case Traffic(id, shutdown, writing) =>
      case Release(id) =>
    }
  }

  lemma EstablishKeepsCallbacks(s: State, id: Id)
    requires id in s.conns
    ensures s.callbacks <= ConnectEstablished(s, id).callbacks
  {
  }

  lemma FunctorKeepsCallbacks(s: State, f: Functor)
    requires f.id in s.conns
    ensures s.callbacks <= Dispatch(s, f).callbacks
  {
  }

  lemma {:induction false} ReachKeepsCallbacks(s: State, run: seq<Action>, id: Id)
    requires Behaviour(s, run)
    ensures CallbacksOf(s.callbacks, id) <= CallbacksOf(Reach(s, run).callbacks, id)
    decreases |run|
  {
    hide Do, Enabled;
    if run != [] {
      DoKeepsCallbacks(s, run[0]);
      CallbacksPrefix(s.callbacks, Do(s, run[0]).callbacks, id);
      ReachKeepsCallbacks(Do(s, run[0]), run[1..], id);
    }
  }

  /** A second down callback is never made good. */
  lemma {:induction false} DoubleCloseShows(s: State, run: seq<Action>) returns (id: Id)
    requires Inv(s) && Behaviour(s, run) && !Clean(run)
    ensures !(CallbacksOf(Reach(s, run).callbacks, id) <= [CameUp(id), WentDown(id)])
    decreases |run|
  {
    hide Inv, CallbacksOf, HandleEvent;
    if DoubleClose(run[0]) {
      id := run[0].id;
      DownOnceExactly(s, id, run[0].revents, run[0].eof);
      ReachKeepsCallbacks(Do(s, run[0]), run[1..], id);
    } else {
      DoKeepsInv(s, run[0]);
      assert run == [run[0]] + run[1..];
      id := DoubleCloseShows(Do(s, run[0]), run[1..]);
    }
  }

  /** Over whole runs: every connection comes up once and goes down once exactly if no event closed twice. */
  lemma UpThenDownExactly(run: seq<Action>)
    requires Behaviour(START, run)
    ensures (forall id :: CallbacksOf(Reach(START, run).callbacks, id) <= [CameUp(id), WentDown(id)]) <==> Clean(run)
  {
    hide CallbacksOf;
    if Clean(run) {
      forall id ensures CallbacksOf(Reach(START, run).callbacks, id) <= [CameUp(id), WentDown(id)] {
        UpThenDown(run, id);
      }
    } else {
      var _ := DoubleCloseShows(START, run);
    }
  }

  lemma TwoSteps(s: State, a: Action, b: Action)
    requires Enabled(s, a) && Enabled(Do(s, a), b)
    ensures Behaviour(s, [a, b]) && Reach(s, [a, b]) == Do(Do(s, a), b)
  {
    hide Enabled, Do;
    var s1 := Do(s, a);
    var s2 := Do(s1, b);
    assert [a, b][1..] == [b] && [b][1..] == [];
    assert Behaviour(s2, []) && Reach(s2, []) == s2;
    assert Behaviour(s1, [b]) && Reach(s1, [b]) == s2;
  }

  lemma FirstAccepted()
    ensures Enabled(START, Accept(5, 0))
    ensures var s := Do(START, Accept(5, 0)); Registered(s, 1) && s.callbacks == [CameUp(1)]
  {
    UpShape(Listed(START, 5, 0), 1);
  }

  lemma ClosedTwice(s: State, id: Id, revents: Events)
    requires Registered(s, id) && ClosesTwice(revents)
    ensures HandleEvent(s, id, revents, true).callbacks == s.callbacks + [WentDown(id), WentDown(id)]
  {
    CloseSays(s, id);
    CloseSays(HandleClose(s, id), id);
    hide HandleClose, CallbacksOf;
    ReadMask(revents);
    assert HandleEvent(s, id, revents, true) == HandleClose(HandleClose(s, id), id);
  }

  /** One connection, hung up with urgent data unread: two down callbacks. */
  lemma DownTwice()
    ensures var run := [Accept(5, 0), Event(1, With(EPOLLHUP, EPOLLPRI), true)];
            Behaviour(START, run) && Reach(START, run).callbacks == [CameUp(1), WentDown(1), WentDown(1)]
  {
    hide NewConnection, HandleEvent;
    FirstAccepted();
    ClosedTwice(Do(START, Accept(5, 0)), 1, With(EPOLLHUP, EPOLLPRI));
    TwoSteps(START, Accept(5, 0), Event(1, With(EPOLLHUP, EPOLLPRI), true));
  }
}

/** The server object: its map and its counter are fields, the loops and connections are its surroundings. */
module TcpServers {
  import opened Epoll
  import OutputStream
  import opened Lifecycle

  class TcpServer {
    var connections: set<Id>
    var nextConnId: Id
    var world: Lifecycle.State // all else: connections, queues and kernel sets

    ghost function View(): Lifecycle.State
      reads this
    {
      world.(connections := connections, nextId := nextConnId)
    }

    constructor ()
      ensures View() == START && Inv(View())
    {
      connections, nextConnId, world := {}, 1, START;
    }

    /** Accepts on the main loop; the connection is established there at once, or on its I/O loop later. */
    method NewConnection(sockfd: Fd, ioLoop: Loop)
      requires Inv(View()) && Enabled(View(), Accept(sockfd, ioLoop))
      modifies this
      ensures Inv(View()) && View() == Do(old(View()), Accept(sockfd, ioLoop))
      ensures old(nextConnId) !in old(connections) && connections == old(connections) + {old(nextConnId)}
    {
      hide Lifecycle.Inv;
      AcceptKeepsInv(View(), sockfd, ioLoop);
      FreshName(View());
      var id := nextConnId;
      nextConnId := nextConnId + 1;
      connections := connections + {id};
      var conn := Connection(ioLoop, sockfd, OutputStream.Connecting, New, NONE_EVENT, Accepted);
      world := world.(conns := world.conns[id := conn]);
      if ioLoop == 0 {
        world := ConnectEstablished(world, id);
      } else {
        world := Enqueue(world, ioLoop, Establish(id));
      }
    }

    /** Off the map, with the destruction queued where the connection lives; completes a close. */
    method RemoveConnectionInLoop(id: Id)
      requires id in View().conns
      modifies this
      ensures View() == Lifecycle.RemoveConnectionInLoop(old(View()), id)
      ensures ClosedOff(old(View()), id) ==> Inv(View())
    {
      if ClosedOff(View(), id) {
        MoveOut(View(), id);
      }
      hide Lifecycle.Inv, ClosedOff;
      connections := connections - {id};
      world := Enqueue(Mark(world, id, world.conns[id].st, Unlisted), world.conns[id].loop, Destroy(id));
    }

    /** The close callback: on either kind of loop it completes a close. */
    method RemoveConnection(id: Id)
      requires id in View().conns
      modifies this
      ensures View() == Lifecycle.RemoveConnection(old(View()), id)
      ensures ClosedOff(old(View()), id) ==> Inv(View())
    {
      if ClosedOff(View(), id) {
        MoveAway(View(), id);
      }
      hide Lifecycle.Inv, ClosedOff;
      if world.conns[id].loop == 0 {
        RemoveConnectionInLoop(id);
      } else {
        world := Enqueue(world, 0, Remove(id));
      }
    }

    /** The main loop runs the removal at the head of its queue. */
    method RunRemoval()
      requires Inv(View()) && Enabled(View(), RunFunctor(0)) && Queue(View(), 0)[0].Remove?
      modifies this
      ensures Inv(View()) && View() == Do(old(View()), RunFunctor(0))
      ensures connections == old(connections) - {old(Queue(View(), 0)[0].id)}
    {
      hide Lifecycle.Inv;
      DoKeepsInv(View(), RunFunctor(0));
      var id := Queue(world, 0)[0].id;
      world := world.(queues := world.queues[0 := Queue(world, 0)[1..]]);
      RemoveConnectionInLoop(id);
    }
  }
}
