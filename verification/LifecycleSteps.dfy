/** What each step of the lifecycle does, told from its inputs, and on which loop it does it. */
module LifecycleSteps {
  import opened Epoll
  import OutputStream
  import opened Lifecycle

  // ------------------------------------------------------------------ events

  /** A hangup without input. */
  predicate HangsUp(revents: Events) {
    revents.hup && !revents.pollin
  }

  /** Something to read, and the read meets end of file. */
  predicate ReadsEof(revents: Events, eof: bool) {
    (revents.pollin || revents.pri) && eof
  }

  /** How often an event closes the connection. */
  function Closes(revents: Events, eof: bool): (n: nat)
    ensures n <= 2
  {
    (if HangsUp(revents) then 1 else 0) + (if ReadsEof(revents, eof) then 1 else 0)
  }

  function Downs(id: Id, n: nat): seq<Callback> {
    if n == 0 then [] else Downs(id, n - 1) + [WentDown(id)]
  }

  /** `id` is down and out of its loop's kernel set, and its removal is on its way. */
  ghost predicate Leaving(s: State, id: Id) {
    && id in s.conns && !Registered(s, id) && s.conns[id].st == OutputStream.Disconnected
    && if s.conns[id].loop == 0 then id !in s.connections && Destroy(id) in Queue(s, 0)
       else id in s.connections && Remove(id) in Queue(s, 0)
  }

  lemma EventCases(s: State, id: Id, revents: Events, eof: bool)
    requires id in s.conns
    ensures id in HandleClose(s, id).conns
    ensures HandleEvent(s, id, revents, eof) ==
            match Closes(revents, eof)
            case 0 => s
            case 1 => HandleClose(s, id)
            case _ => HandleClose(HandleClose(s, id), id)
  {
    CloseSays(s, id);
    hide HandleClose, CallbacksOf;
  }

  /**
   * What an event does to a live connection: nothing, one close, or two. One takes it down
   * and out of the kernel set with its removal queued; after two it is back in the kernel
   * set, with an empty mask.
   */
  lemma EventExactly(s: State, id: Id, revents: Events, eof: bool)
    requires Inv(s) && Registered(s, id)
    ensures var s', n := HandleEvent(s, id, revents, eof), Closes(revents, eof);
            && CallbacksOf(s'.callbacks, id) == [CameUp(id)] + Downs(id, n)
            && (n == 0 ==> s' == s)
            && (n == 1 ==> Inv(s') && Leaving(s', id))
            && (n == 2 ==> Registered(s', id) && KernelOf(s', s'.conns[id].loop)[s'.conns[id].fd].events == NONE_EVENT)
  {
    hide *;
    IsKnown(s, id);
    EventSays(s, id, revents, eof);
    EventCases(s, id, revents, eof);
    CloseLeaves(s, id);
    Reclosed(s, id);
  }

  lemma EventSays(s: State, id: Id, revents: Events, eof: bool)
    requires Inv(s) && Registered(s, id)
    ensures CallbacksOf(HandleEvent(s, id, revents, eof).callbacks, id) ==
            [CameUp(id)] + Downs(id, Closes(revents, eof))
  {
    hide *;
    IsKnown(s, id);
    EventCases(s, id, revents, eof);
    SaidAfterClose(s, id);
    DownsUpTo2(id);
    assert [CameUp(id)] + [] == [CameUp(id)];
    assert [CameUp(id)] + [WentDown(id)] == [CameUp(id), WentDown(id)];
    assert [CameUp(id)] + [WentDown(id), WentDown(id)] == [CameUp(id), WentDown(id), WentDown(id)];
  }

  lemma SaidAfterClose(s: State, id: Id)
    requires Inv(s) && Registered(s, id)
    ensures CallbacksOf(s.callbacks, id) == [CameUp(id)]
    ensures id in HandleClose(s, id).conns
    ensures CallbacksOf(HandleClose(s, id).callbacks, id) == [CameUp(id), WentDown(id)]
    ensures CallbacksOf(HandleClose(HandleClose(s, id), id).callbacks, id) == [CameUp(id), WentDown(id), WentDown(id)]
  {
    hide *;
    IsKnown(s, id);
    RegisteredIsUp(s, id);
    CloseSays(s, id);
    CloseSays(HandleClose(s, id), id);
  }

  lemma IsKnown(s: State, id: Id)
    requires Registered(s, id)
    ensures id in s.conns
  {
  }

  lemma DownsUpTo2(id: Id)
    ensures Downs(id, 0) == [] && Downs(id, 1) == [WentDown(id)] && Downs(id, 2) == [WentDown(id), WentDown(id)]
  {
    assert Downs(id, 1) == Downs(id, 0) + [WentDown(id)];
    assert Downs(id, 2) == Downs(id, 1) + [WentDown(id)];
  }

  lemma CloseLeaves(s: State, id: Id)
    requires Inv(s) && Registered(s, id)
    ensures Inv(HandleClose(s, id)) && Leaving(HandleClose(s, id), id)
  {
    LiveIsUnqueued(s, id);
    MoveDown(s, id);
    CloseShape(s, id);
    var s' := HandleClose(s, id);
    assert StageOk(s', id);
    hide HandleClose, StageOk;
    NotLiveNotRegistered(s', id);
  }

  /** Where a close leaves the connection. */
  lemma CloseShape(s: State, id: Id)
    requires Inv(s) && Registered(s, id)
    ensures var s' := HandleClose(s, id);
            && id in s'.conns && s'.conns[id].loop == s.conns[id].loop && s'.conns[id].fd == s.conns[id].fd
            && s'.conns[id].stage == (if s.conns[id].loop == 0 then Unlisted else Closed)
            && s'.conns[id].IsDown()
            && s'.kernels == s.kernels[s.conns[id].loop := KernelOf(s, s.conns[id].loop) - {s.conns[id].fd}]
  {
    assert StageOk(s, id);
    DownShape(s, id);
    hide TakeDown;
  }

  lemma NotLiveNotRegistered(s: State, id: Id)
    requires Inv(s) && id in s.conns && s.conns[id].stage != Live
    ensures !Registered(s, id)
  {
  }

  /** A second close finds the descriptor deleted and adds it again. */
  lemma Reclosed(s: State, id: Id)
    requires Inv(s) && Registered(s, id)
    ensures var s1 := HandleClose(s, id);
            && id in s1.conns
            && var s' := HandleClose(s1, id);
               && Registered(s', id)
               && KernelOf(s', s'.conns[id].loop)[s'.conns[id].fd].events == NONE_EVENT
  {
    CloseShape(s, id);
    AddedAgain(HandleClose(s, id), id);
  }

  lemma AddedAgain(s: State, id: Id)
    requires id in s.conns && s.conns[id].IsDown() && s.conns[id].fd !in KernelOf(s, s.conns[id].loop)
    ensures var s' := HandleClose(s, id);
            && Registered(s', id)
            && KernelOf(s', s'.conns[id].loop)[s'.conns[id].fd].events == NONE_EVENT
  {
    var s1 := TakeDown(s, id);
    assert KernelOf(s1, s.conns[id].loop)[s.conns[id].fd] == Interest(NONE_EVENT, id);
    hide TakeDown;
  }

  /** Once down, for good: no later event of it, no later callback. */
  lemma DownForGood(s: State, run: seq<Action>, id: Id)
    requires Inv(s) && Behaviour(s, run) && Clean(run)
    requires WentDown(id) in CallbacksOf(s.callbacks, id)
    ensures CallbacksOf(Reach(s, run).callbacks, id) == [CameUp(id), WentDown(id)]
    ensures !Registered(Reach(s, run), id)
  {
    ReachKeepsInv(s, run);
    ReachKeepsCallbacks(s, run, id);
    var s' := Reach(s, run);
    hide Behaviour, Reach;
    var k :| 0 <= k < |CallbacksOf(s.callbacks, id)| && CallbacksOf(s.callbacks, id)[k] == WentDown(id);
    assert CallbacksOf(s'.callbacks, id)[k] == WentDown(id);
    DownIsNotLive(s', id);
  }

  lemma DownIsNotLive(s: State, id: Id)
    requires Inv(s) && WentDown(id) in CallbacksOf(s.callbacks, id)
    ensures CallbacksOf(s.callbacks, id) == [CameUp(id), WentDown(id)] && !Registered(s, id)
  {
    if id !in s.conns {
      StrangersSilent(s, id);
    } else {
      assert History(s, id);
      NotLiveNotRegistered(s, id);
    }
  }

  // ------------------------------------------------------------------ accepting and traffic

  /** A new connection belongs to the loop it was given to: up at once on the main loop, queued to an I/O loop. */
  lemma AcceptExactly(s: State, fd: Fd, l: Loop)
    requires Inv(s) && Enabled(s, Accept(fd, l))
    ensures var s', id := Do(s, Accept(fd, l)), s.nextId;
            && s'.connections == s.connections + {id} && id !in s.connections
            && id in s'.conns && s'.conns[id].loop == l && s'.conns[id].fd == fd
            && if l == 0 then Registered(s', id) && s'.callbacks == s.callbacks + [CameUp(id)]
               else Queue(s', l) == Queue(s, l) + [Establish(id)] && s'.callbacks == s.callbacks
  {
    hide Inv, InvBut, ConnectEstablished;
    FreshName(s);
    var s1 := Listed(s, fd, l);
    NewIsApart(s, s1, fd, l);
    NotRegistered(s1, s.nextId);
    if l == 0 {
      UpShape(s1, s.nextId);
    }
  }

  /** The state after traffic in which `shutdown` may have been asked for. */
  function Asked(st: OutputStream.St, shutdown: bool): OutputStream.St {
    if shutdown && st == OutputStream.Connected then OutputStream.Disconnecting else st
  }

  /** Traffic sets the write interest and nothing else of the mask; `shutdown` counts only while connected. */
  lemma TrafficExactly(s: State, id: Id, shutdown: bool, writing: bool)
    requires Inv(s) && Registered(s, id)
    ensures var s' := Do(s, Traffic(id, shutdown, writing));
            && Registered(s', id)
            && s'.conns[id].st == Asked(s.conns[id].st, shutdown)
            && KernelOf(s', s'.conns[id].loop)[s'.conns[id].fd].events == s.conns[id].events.(out := writing)
  {
    assert StageOk(s, id);
    var s' := Do(s, Traffic(id, shutdown, writing));
    TrafficShape(s, id, shutdown, writing);
    assert s'.conns[id].events == s.conns[id].events.(out := writing);
    hide Converse, Inv;
  }

  // ------------------------------------------------------------------ on which loop

  /** The loop whose thread takes this step. */
  function LoopOf(s: State, a: Action): Loop
    requires Enabled(s, a)
  {
    match a
    case Accept(_, _) => 0
    case RunFunctor(l) => l
    case Event(id, _, _) => s.conns[id].loop
    case Traffic(id, _, _) => s.conns[id].loop
    case Release(_) => 0
  }

  /** Nothing of `id`'s own has changed: not its state, mask or mark, and no callback was given for it. */
  ghost predicate Untouched(s: State, s': State, id: Id) {
    id in s.conns ==>
      && id in s'.conns
      && s'.conns[id] == s.conns[id].(stage := s'.conns[id].stage)
      && CallbacksOf(s'.callbacks, id) == CallbacksOf(s.callbacks, id)
  }

  lemma EstablishTouches(s: State, x: Id, id: Id)
    requires x in s.conns && id != x
    ensures Untouched(s, ConnectEstablished(s, x), id)
  {
    CallbacksSnoc(s.callbacks, CameUp(x), id);
  }

  lemma DownTouches(s: State, x: Id, id: Id)
    requires x in s.conns && id != x
    ensures Untouched(s, TakeDown(s, x), id)
  {
    CallbacksSnoc(s.callbacks, WentDown(x), id);
  }

  lemma RemovalTouches(s: State, x: Id, id: Id)
    requires x in s.conns
    ensures Untouched(s, RemoveConnectionInLoop(s, x), id) && Untouched(s, RemoveConnection(s, x), id)
  {
  }

  lemma CloseTouches(s: State, x: Id, id: Id)
    requires x in s.conns && id != x
    ensures x in HandleClose(s, x).conns && Untouched(s, HandleClose(s, x), id)
  {
    DownTouches(s, x, id);
    RemovalTouches(TakeDown(s, x), x, id);
    CloseSays(s, x);
    hide TakeDown, RemoveConnection, CallbacksOf;
  }

  lemma DestroyTouches(s: State, x: Id, id: Id)
    requires x in s.conns && id != x
    ensures Untouched(s, ConnectDestroyed(s, x), id)
  {
    DownTouches(s, x, id);
    hide TakeDown, CallbacksOf;
  }

  lemma FunctorTouches(s: State, l: Loop, id: Id)
    requires Inv(s) && Enabled(s, RunFunctor(l)) && id in s.conns && s.conns[id].loop != l
    ensures Untouched(s, Do(s, RunFunctor(l)), id)
  {
    var f := Queue(s, l)[0];
    assert FunctorOk(s, l, f);
    var s1 := s.(queues := s.queues[l := Queue(s, l)[1..]]);
    hide Inv, ConnectEstablished, RemoveConnectionInLoop, ConnectDestroyed, CallbacksOf;
    match f {
      case Establish(x) => EstablishTouches(s1, x, id);
      case Remove(x) => RemovalTouches(s1, x, id);
      case Destroy(x) => DestroyTouches(s1, x, id);
    }
  }

  lemma TrafficTouches(s: State, x: Id, shutdown: bool, writing: bool, id: Id)
    requires x in s.conns && id != x
    ensures Untouched(s, Converse(s, x, shutdown, writing), id)
  {
  }

  /** A connection's state, mask and callbacks are touched only by its own loop. */
  lemma OwnLoopOnly(s: State, a: Action, id: Id)
    requires Inv(s) && Enabled(s, a) && id in s.conns && s.conns[id].loop != LoopOf(s, a)
    ensures Untouched(s, Do(s, a), id)
  {
    hide ConnectEstablished, Converse, HandleClose, Dispatch, CallbacksOf, Inv;
    match a {
      case Accept(fd, l) =>
        FreshName(s);
        EstablishTouches(Listed(s, fd, l), s.nextId, id);
      case RunFunctor(l) => FunctorTouches(s, l, id);
      case Event(x, revents, eof) =>
        CloseTouches(s, x, id);
        CloseTouches(HandleClose(s, x), x, id);
        EventCases(s, x, revents, eof);
      case Traffic(x, shutdown, writing) => TrafficTouches(s, x, shutdown, writing, id);
      case Release(x) =>
    }
  }

  /** The server's map is touched only on the main loop. */
  lemma MapOnMainLoop(s: State, a: Action)
    requires Inv(s) && Enabled(s, a) && Do(s, a).connections != s.connections
    ensures LoopOf(s, a) == 0
  {
    match a {
      case Accept(fd, l) =>
      case RunFunctor(l) =>
        assert FunctorOk(s, l, Queue(s, l)[0]);
        FunctorMap(s.(queues := s.queues[l := Queue(s, l)[1..]]), Queue(s, l)[0]);
      case Event(id, revents, eof) =>
        EventCases(s, id, revents, eof);
        CloseMap(s, id);
        CloseMap(HandleClose(s, id), id);
      case Traffic(id, shutdown, writing) =>
      case Release(id) =>
    }
  }

  lemma FunctorMap(s: State, f: Functor)
    requires f.id in s.conns
    ensures Dispatch(s, f).connections == if f.Remove? then s.connections - {f.id} else s.connections
  {
  }

  lemma CloseMap(s: State, id: Id)
    requires id in s.conns
    ensures id in HandleClose(s, id).conns && HandleClose(s, id).conns[id].loop == s.conns[id].loop
    ensures HandleClose(s, id).connections == if s.conns[id].loop == 0 then s.connections - {id} else s.connections
  {
  }

  // ------------------------------------------------------------------ when nothing is queued

  /** With all queues run empty, every connection is up and registered, or gone without a trace. */
  lemma AllSettled(run: seq<Action>, id: Id)
    requires Behaviour(START, run) && Clean(run) && id in Reach(START, run).conns
    requires forall l :: Queue(Reach(START, run), l) == []
    ensures var s := Reach(START, run);
            if id in s.connections then Registered(s, id) && CallbacksOf(s.callbacks, id) == [CameUp(id)]
            else && !Registered(s, id) && Unreferenced(s, id)
                 && CallbacksOf(s.callbacks, id) == [CameUp(id), WentDown(id)]
  {
    ReachKeepsInv(START, run);
    Settled(Reach(START, run), id);
  }

  lemma Settled(s: State, id: Id)
    requires Inv(s) && id in s.conns && forall l :: Queue(s, l) == []
    ensures if id in s.connections then Registered(s, id) && CallbacksOf(s.callbacks, id) == [CameUp(id)]
            else && !Registered(s, id) && Unreferenced(s, id)
                 && CallbacksOf(s.callbacks, id) == [CameUp(id), WentDown(id)]
  {
    assert StageOk(s, id) && History(s, id);
    assert Queue(s, s.conns[id].loop) == [] && Queue(s, 0) == [];
    forall l | l in s.queues ensures s.queues[l] == [] {
      assert Queue(s, l) == [];
    }
    hide CallbacksOf;
  }
}
