/**
 * The cross-thread hand-off of mymuduo/EventLoop.cpp: one loop thread, any number of other
 * threads, and the steps in which they touch the queue, the flags and the eventfd.
 */
module HandOff {
  import opened Bytes

  type Functor = nat
  type Thread = nat

  /** An eventfd counter cannot exceed 2^64 - 2; a write that would is refused. */
  const COUNTER_MAX: nat := 0xFFFF_FFFF_FFFF_FFFE

  /** What all threads share. */
  datatype Shared = Shared(pending: seq<Functor>, quit: bool, calling: bool, counter: nat)

  function Push(sh: Shared, f: Functor): Shared {
    sh.(pending := sh.pending + [f])
  }

  function Wake(sh: Shared): Shared {
    sh.(counter := if sh.counter < COUNTER_MAX then sh.counter + 1 else sh.counter)
  }

  function SetQuit(sh: Shared): Shared {
    sh.(quit := true)
  }

  function Drain(sh: Shared): Shared {
    sh.(counter := 0)
  }

  function SetCalling(sh: Shared, calling: bool): Shared {
    sh.(calling := calling)
  }

  function TakeAll(sh: Shared): Shared {
    sh.(pending := [])
  }

  /** `queueInLoop`'s test, made after the push. */
  predicate NeedsWake(sh: Shared, inLoopThread: bool) {
    !inLoopThread || sh.calling
  }

  /** Where the loop thread is. */
  datatype Pc =
    | CheckQuit
    | AtPoll
    | Dispatch(wakeupActive: bool) // handlers run; the eventfd may still have to be read
    | Swap                         // calling is set, the lock not yet taken
    | RunBatch(rest: seq<Functor>)
    | Done

  /** A call of `queueInLoop` or `quit` that has made its change and not yet its write. */
  datatype Owing = Deciding | MustWake

  datatype State = State(
    sh: Shared, pc: Pc,
    own: Option<Owing>,           // the loop thread's own unfinished call
    owed: map<Thread, Owing>,     // the other threads' unfinished calls
    pushes: seq<Functor>,         // history: all pushes, in lock order
    executed: seq<Functor>,       // history: all functors run
    swapped: seq<Functor>,        // history: executed plus batch at the last swap
    rounds: nat,                  // history: completed calls of doPendingFunctors
    unread: nat)                  // history: eventfd writes since it was last read

  const START := State(Shared([], false, false, 0), CheckQuit, None, map[], [], [], [], 0, 0)

  datatype Action =
    | OtherPush(t: Thread, f: Functor)
    | OtherQuit(t: Thread)
    | OtherDecide(t: Thread)
    | OtherWake(t: Thread)
    | LoopTest
    | PollReturn(wakeupActive: bool)
    | ReadEventfd
    | EndDispatch
    | TakeBatch
    | RunFunctor
    | EndBatch
    | LoopPush(f: Functor)
    | LoopQuit
    | LoopDecide
    | LoopWake

  /** User code runs on the loop thread in handlers and in functors, one call at a time. */
  predicate InUserCode(s: State) {
    (s.pc.Dispatch? || s.pc.RunBatch?) && s.own.None?
  }

  predicate Enabled(s: State, a: Action) {
    match a
    case OtherPush(t, _) => t !in s.owed
    case OtherQuit(t) => t !in s.owed
    case OtherDecide(t) => t in s.owed && s.owed[t] == Deciding
    case OtherWake(t) => t in s.owed && s.owed[t] == MustWake
    case LoopTest => s.pc.CheckQuit?
    case PollReturn(active) => s.pc.AtPoll? && (active ==> s.sh.counter > 0)
    case ReadEventfd => s.pc == Dispatch(true) && s.own.None?
    case EndDispatch => s.pc == Dispatch(false) && s.own.None?
    case TakeBatch => s.pc.Swap?
    case RunFunctor => s.pc.RunBatch? && s.pc.rest != [] && s.own.None?
    case EndBatch => s.pc == RunBatch([]) && s.own.None?
    case LoopPush(_) => InUserCode(s)
    case LoopQuit => InUserCode(s)
    case LoopDecide => s.own == Some(Deciding)
    case LoopWake => s.own == Some(MustWake)
  }

  function Do(s: State, a: Action): State
    requires Enabled(s, a)
  {
    match a
    case OtherPush(t, f) => s.(sh := Push(s.sh, f), pushes := s.pushes + [f], owed := s.owed[t := Deciding])
    case OtherQuit(t) => s.(sh := SetQuit(s.sh), owed := s.owed[t := Deciding])
    case OtherDecide(t) => s.(owed := if NeedsWake(s.sh, false) then s.owed[t := MustWake] else s.owed - {t})
    case OtherWake(t) => s.(sh := Wake(s.sh), owed := s.owed - {t}, unread := s.unread + 1)
    case LoopTest => s.(pc := if s.sh.quit then Done else AtPoll)
    case PollReturn(active) => s.(pc := Dispatch(active))
    case ReadEventfd => s.(sh := Drain(s.sh), pc := Dispatch(false), unread := 0)
    case EndDispatch => s.(sh := SetCalling(s.sh, true), pc := Swap)
    case TakeBatch =>
      s.(sh := TakeAll(s.sh), pc := RunBatch(s.sh.pending), swapped := s.executed + s.sh.pending)
    case RunFunctor => s.(pc := RunBatch(s.pc.rest[1..]), executed := s.executed + [s.pc.rest[0]])
    case EndBatch => s.(sh := SetCalling(s.sh, false), pc := CheckQuit, rounds := s.rounds + 1)
    case LoopPush(f) => s.(sh := Push(s.sh, f), pushes := s.pushes + [f], own := Some(Deciding))
    case LoopQuit => s.(sh := SetQuit(s.sh))
    case LoopDecide => s.(own := if NeedsWake(s.sh, true) then Some(MustWake) else None)
    case LoopWake => s.(sh := Wake(s.sh), own := None, unread := s.unread + 1)
  }

  predicate Behaviour(s: State, run: seq<Action>)
    decreases |run|
  {
    run == [] || (Enabled(s, run[0]) && Behaviour(Do(s, run[0]), run[1..]))
  }

  function Reach(s: State, run: seq<Action>): State
    requires Behaviour(s, run)
    decreases |run|
  {
    if run == [] then s else Reach(Do(s, run[0]), run[1..])
  }

  lemma {:induction false} ReachSnoc(s: State, run: seq<Action>, a: Action)
    requires Behaviour(s, run) && Enabled(Reach(s, run), a)
    ensures Behaviour(s, run + [a]) && Reach(s, run + [a]) == Do(Reach(s, run), a)
    decreases |run|
  {
    if run == [] {
      assert run + [a] == [a] && [a][1..] == [];
      assert Behaviour(Do(s, a), []);
    } else {
      ReachSnoc(Do(s, run[0]), run[1..], a);
      assert (run + [a])[1..] == run[1..] + [a];
    }
  }

  // ------------------------------------------------------------------ the invariant

  /** Functors taken and not yet run. */
  function Rest(s: State): seq<Functor> {
    if s.pc.RunBatch? then s.pc.rest else []
  }

  /** First in, first out, each exactly once. */
  predicate Fifo(s: State) {
    && s.executed + Rest(s) + s.sh.pending == s.pushes
    && s.executed + Rest(s) == s.swapped
  }

  predicate FlagExact(s: State) {
    && (s.sh.calling <==> s.pc.Swap? || s.pc.RunBatch?)
    && (s.own.Some? ==> s.pc.Dispatch? || s.pc.RunBatch?)
  }

  /** A wakeup is there to be seen, or some thread is still going to write it. */
  predicate WakeupComing(s: State) {
    s.sh.counter > 0 || s.owed != map[]
  }

  /** The loop will take the queue before it polls again, or is itself about to write the eventfd. */
  predicate LoopWillLook(s: State) {
    s.pc.Dispatch? || s.pc.Swap? || s.own.Some?
  }

  predicate NeverLost(s: State) {
    && (s.sh.pending != [] ==> WakeupComing(s) || LoopWillLook(s))
    && (s.pc.AtPoll? && s.sh.quit ==> WakeupComing(s))
  }

  /** The counter is the writes not yet read, up to its maximum. */
  predicate CounterExact(s: State) {
    s.sh.counter == Min(s.unread, COUNTER_MAX)
  }

  predicate Inv(s: State) {
    Fifo(s) && FlagExact(s) && NeverLost(s) && CounterExact(s)
  }

  lemma DoKeepsFifo(s: State, a: Action)
    requires Fifo(s) && Enabled(s, a)
    ensures Fifo(Do(s, a))
  {
    if a.RunFunctor? {
      var rest := s.pc.rest;
      assert rest == [rest[0]] + rest[1..];
      assert s.executed + [rest[0]] + rest[1..] == s.executed + rest;
    }
  }

  lemma OwedAfter(owed: map<Thread, Owing>, t: Thread, o: Owing)
    ensures owed[t := o] != map[]
  {
    assert t in owed[t := o];
  }

  lemma DoKeepsNeverLost(s: State, a: Action)
    requires NeverLost(s) && FlagExact(s) && Enabled(s, a)
    ensures NeverLost(Do(s, a))
  {
    match a {
      case OtherPush(t, _) => OwedAfter(s.owed, t, Deciding);
      case OtherQuit(t) => OwedAfter(s.owed, t, Deciding);
      case OtherDecide(t) => OwedAfter(s.owed, t, MustWake);
      case _ =>
    }
  }

  lemma {:induction false} ReachKeepsInv(s: State, run: seq<Action>)
    requires Inv(s) && Behaviour(s, run)
    ensures Inv(Reach(s, run))
    decreases |run|
  {
    if run != [] {
      DoKeepsFifo(s, run[0]);
      DoKeepsNeverLost(s, run[0]);
      ReachKeepsInv(Do(s, run[0]), run[1..]);
    }
  }

  // ------------------------------------------------------------------ what every interleaving keeps

  /**
   * No lost wakeup: when the loop is about to block with functors queued, or with `quit`
   * set, the eventfd is readable or some thread still has its write to do.
   */
  lemma NoLostWakeup(run: seq<Action>)
    requires Behaviour(START, run) && Reach(START, run).pc.AtPoll?
    requires Reach(START, run).sh.pending != [] || Reach(START, run).sh.quit
    ensures var s := Reach(START, run); s.sh.counter > 0 || exists t :: t in s.owed
  {
    ReachKeepsInv(START, run);
    var s := Reach(START, run);
    if s.owed != map[] {
      assert exists t :: t in s.owed;
    }
  }

  /** No false alarm either: the wakeup channel is reported only for a write made since the last read. */
  lemma WakeupsAreReal(run: seq<Action>)
    requires Behaviour(START, run)
    ensures var s := Reach(START, run); Enabled(s, PollReturn(true)) <==> s.pc.AtPoll? && s.unread > 0
  {
    ReachKeepsInv(START, run);
  }

  /** In every reachable state the pushes are the executed, the running and the queued functors, in lock order. */
  lemma FifoExactlyOnce(run: seq<Action>)
    requires Behaviour(START, run)
    ensures var s := Reach(START, run); s.pushes == s.executed + Rest(s) + s.sh.pending
  {
    ReachKeepsInv(START, run);
  }

  /** A call that took its batch ends with exactly what was there at the swap run, whatever is queued meanwhile. */
  lemma {:induction false} BatchExact(s: State, run: seq<Action>)
    requires Inv(s) && s.pc.RunBatch? && Behaviour(s, run)
    ensures var s' := Reach(s, run);
            && s'.rounds >= s.rounds
            && (s'.rounds == s.rounds ==> s'.pc.RunBatch? && s'.swapped == s.swapped)
            && (s'.rounds == s.rounds + 1 && s'.pc.CheckQuit? ==> s'.executed == s.swapped)
            && s.swapped <= s'.swapped
    decreases |run|
  {
    if run != [] {
      var s1 := Do(s, run[0]);
      ReachKeepsInv(s, [run[0]]);
      assert Reach(s, [run[0]]) == s1;
      ReachKeepsInv(s, run);
      if s1.pc.RunBatch? {
        BatchExact(s1, run[1..]);
      } else {
        AfterBatch(s1, run[1..]);
      }
    }
  }

  /** After a batch: execution only grows, and not before the next batch is taken. */
  lemma {:induction false} AfterBatch(s: State, run: seq<Action>)
    requires Fifo(s) && !s.pc.RunBatch? && Behaviour(s, run)
    ensures var s' := Reach(s, run);
            && s'.rounds >= s.rounds && s.executed <= s'.executed
            && (s'.rounds == s.rounds && s'.pc.CheckQuit? ==> s'.executed == s.executed)
    decreases |run|
  {
    ExecutionGrows(s, run);
    if run != [] {
      var s1 := Do(s, run[0]);
      DoKeepsFifo(s, run[0]);
      if !s1.pc.RunBatch? {
        AfterBatch(s1, run[1..]);
      } else {
        StaysInBatch(s1, run[1..]);
      }
    }
  }

  lemma {:induction false} ExecutionGrows(s: State, run: seq<Action>)
    requires Behaviour(s, run)
    ensures s.executed <= Reach(s, run).executed && s.rounds <= Reach(s, run).rounds
    decreases |run|
  {
    if run != [] {
      ExecutionGrows(Do(s, run[0]), run[1..]);
    }
  }

  lemma {:induction false} StaysInBatch(s: State, run: seq<Action>)
    requires s.pc.RunBatch? && Behaviour(s, run)
    ensures Reach(s, run).rounds == s.rounds ==> Reach(s, run).pc.RunBatch?
    decreases |run|
  {
    if run != [] {
      var s1 := Do(s, run[0]);
      if s1.pc.RunBatch? {
        StaysInBatch(s1, run[1..]);
      } else {
        ExecutionGrows(s1, run[1..]);
      }
    }
  }

  /** Everything in `prefix` has been run, or will be by the end of this round. */
  predicate Promised(s: State, prefix: seq<Functor>, round: nat) {
    if s.rounds > round then prefix <= s.executed
    else s.rounds == round && prefix <= s.pushes && match s.pc
      case AtPoll => true
      case Dispatch(_) => true
      case Swap => true
      case RunBatch(rest) => prefix <= s.executed + rest
      case _ => false
  }

  lemma {:induction false} PromiseKept(s: State, run: seq<Action>, prefix: seq<Functor>, round: nat)
    requires Fifo(s) && Promised(s, prefix, round) && Behaviour(s, run)
    ensures Promised(Reach(s, run), prefix, round)
    decreases |run|
  {
    if run != [] {
      DoKeepsFifo(s, run[0]);
      var s1 := Do(s, run[0]);
      if run[0].RunFunctor? {
        assert s1.executed + s1.pc.rest == s.executed + s.pc.rest;
      }
      if run[0].TakeBatch? {
        assert s.pushes == s.executed + s.sh.pending;
      }
      PromiseKept(s1, run[1..], prefix, round);
    }
  }

  /** `quit` is set, and at most the round in progress is still completed. */
  predicate Ending(s: State, round: nat) {
    s.sh.quit && (s.rounds <= round || (s.rounds == round + 1 && (s.pc.CheckQuit? || s.pc.Done?)))
  }

  lemma {:induction false} EndingStays(s: State, run: seq<Action>, round: nat)
    requires Ending(s, round) && Behaviour(s, run)
    ensures Ending(Reach(s, run), round)
    decreases |run|
  {
    if run != [] {
      EndingStays(Do(s, run[0]), run[1..], round);
    }
  }

  /** After a call of `quit`, from any thread, the loop completes at most the round it is in, and then ends. */
  lemma QuitStops(before: seq<Action>, quit: Action, after: seq<Action>)
    requires Behaviour(START, before) && (quit.OtherQuit? || quit.LoopQuit?) && Enabled(Reach(START, before), quit)
    requires Behaviour(Do(Reach(START, before), quit), after)
    ensures var s, s' := Reach(START, before), Reach(Do(Reach(START, before), quit), after);
            && s'.sh.quit && s'.rounds <= s.rounds + 1
            && (s'.rounds == s.rounds + 1 ==> s'.pc.CheckQuit? || s'.pc.Done?)
  {
    EndingStays(Do(Reach(START, before), quit), after, Reach(START, before).rounds);
  }

  /** Whatever was queued when the loop went to poll has been run when that round ends. */
  lemma NextRoundServes(before: seq<Action>, after: seq<Action>)
    requires Behaviour(START, before) && Reach(START, before).pc.AtPoll?
    requires Behaviour(Reach(START, before), after)
    requires Reach(Reach(START, before), after).rounds > Reach(START, before).rounds
    ensures Reach(START, before).pushes <= Reach(Reach(START, before), after).executed
  {
    ReachKeepsInv(START, before);
    var s := Reach(START, before);
    PromiseKept(s, after, s.pushes, s.rounds);
  }
}

/** The loop object. Each method is the steps of the hand-off that one uninterrupted call takes. */
module EventLoops {
  import opened Bytes
  import opened HandOff

  /** What a functor or a handler asks of the loop it runs on. */
  datatype Request = QueueRequest(f: Functor) | QuitRequest

  /** One return of `poll`: whether the wakeup channel is active, and what the other channels' handlers ask for. */
  datatype Poll = Poll(reported: bool, before: seq<Request>, after: seq<Request>)

  function Queued(requests: seq<Request>): seq<Functor> {
    if requests == [] then []
    else
      var before, last := Queued(requests[..|requests| - 1]), requests[|requests| - 1];
      if last.QueueRequest? then before + [last.f] else before
  }

  /** What a batch queues in turn, in order. */
  function Requeued(code: Functor -> seq<Request>, batch: seq<Functor>): seq<Functor> {
    if batch == [] then [] else Requeued(code, batch[..|batch| - 1]) + Queued(code(batch[|batch| - 1]))
  }

  predicate Quits(code: Functor -> seq<Request>, batch: seq<Functor>) {
    exists f :: f in batch && QuitRequest in code(f)
  }

  // ------------------------------------------------------------------ the steps of a call

  /** `queueInLoop` from thread `caller`, or from the loop thread itself. */
  ghost function QueueSteps(caller: Option<Thread>, f: Functor, calling: bool): seq<Action> {
    match caller
    case Some(t) => [OtherPush(t, f), OtherDecide(t), OtherWake(t)]
    case None => [LoopPush(f), LoopDecide] + if calling then [LoopWake] else []
  }

  ghost function QuitSteps(caller: Option<Thread>): seq<Action> {
    match caller
    case Some(t) => [OtherQuit(t), OtherDecide(t), OtherWake(t)]
    case None => [LoopQuit]
  }

  /** User code on the loop thread. */
  ghost function UserSteps(requests: seq<Request>, calling: bool): seq<Action> {
    if requests == [] then []
    else UserSteps(requests[..|requests| - 1], calling) +
         match requests[|requests| - 1]
         case QueueRequest(f) => QueueSteps(None, f, calling)
         case QuitRequest => QuitSteps(None)
  }

  ghost function BatchSteps(code: Functor -> seq<Request>, batch: seq<Functor>): seq<Action> {
    if batch == [] then []
    else BatchSteps(code, batch[..|batch| - 1]) + [RunFunctor] + UserSteps(code(batch[|batch| - 1]), true)
  }

  /** `doPendingFunctors`. */
  ghost function FunctorSteps(code: Functor -> seq<Request>, batch: seq<Functor>): seq<Action> {
    [EndDispatch, TakeBatch] + BatchSteps(code, batch) + [EndBatch]
  }

  /** The handlers of one poll: that of the wakeup channel, if it was reported, among the others. */
  ghost function HandlerSteps(poll: Poll): seq<Action> {
    [PollReturn(poll.reported)] + UserSteps(poll.before, false) +
    (if poll.reported then [ReadEventfd] else []) + UserSteps(poll.after, false)
  }

  /** Who may call: another thread that is in no call, or user code on the loop thread. */
  predicate MayCall(s: State, caller: Option<Thread>) {
    match caller
    case Some(t) => t !in s.owed
    case None => InUserCode(s)
  }

  /** The loop thread is where it was, and no call is left unfinished that was not before. */
  ghost predicate SamePlace(s: State, s': State) {
    && s'.pc == s.pc && s'.own == s.own && s'.owed == s.owed
    && s'.executed == s.executed && s'.rounds == s.rounds && s'.sh.calling == s.sh.calling
  }

  class EventLoop {
    const code: Functor -> seq<Request> // what each functor does when it runs
    var pendingFunctors: seq<Functor>
    var quit: bool
    var callingPendingFunctors: bool
    var eventfd: nat
    var called: seq<Functor>            // the functors called so far
    ghost var run: seq<Action>          // the steps taken so far
    ghost var state: State              // the state they lead to

    ghost function View(): Shared
      reads this
    {
      Shared(pendingFunctors, quit, callingPendingFunctors, eventfd)
    }

    /** The steps so far are a run of the hand-off, and the fields are what its threads share. */
    ghost predicate Valid()
      reads this
    {
      Reached() && state.sh == View()
    }

    ghost predicate Reached()
      reads `run, `state
    {
      Behaviour(START, run) && state == Reach(START, run)
    }

    constructor (code: Functor -> seq<Request>)
      ensures Valid() && run == [] && called == [] && this.code == code
    {
      this.code := code;
      pendingFunctors, quit, callingPendingFunctors, eventfd, called := [], false, false, 0, [];
      run, state := [], START;
    }

    ghost method Record(a: Action)
      requires Reached() && Enabled(state, a)
      modifies this`run, this`state
      ensures Reached() && run == old(run) + [a] && state == Do(old(state), a)
    {
      ReachSnoc(START, run, a);
      run, state := run + [a], Do(state, a);
    }

    lemma FlagIsExact()
      requires Reached()
      ensures FlagExact(state)
    {
      ReachKeepsInv(START, run);
    }

    /** The write that `queueInLoop` or `quit` owes. */
    method Wakeup(caller: Option<Thread>)
      requires Valid()
      requires Enabled(state, if caller.Some? then OtherWake(caller.value) else LoopWake)
      modifies this`eventfd, this`run, this`state
      ensures Valid() && eventfd > 0
      ensures run == old(run) + [if caller.Some? then OtherWake(caller.value) else LoopWake]
      ensures state == Do(old(state), if caller.Some? then OtherWake(caller.value) else LoopWake)
    {
      hide EventLoop.Reached;
      if eventfd < COUNTER_MAX {
        eventfd := eventfd + 1;
      }
      Record(if caller.Some? then OtherWake(caller.value) else LoopWake);
    }

    /** The wakeup channel's handler. */
    method HandleRead()
      requires Valid() && state.pc == Dispatch(true) && state.own.None?
      modifies this`eventfd, this`run, this`state
      ensures Valid() && eventfd == 0 && run == old(run) + [ReadEventfd] && state == Do(old(state), ReadEventfd)
    {
      hide EventLoop.Reached;
      eventfd := 0;
      Record(ReadEventfd);
    }

    method Quit(caller: Option<Thread>)
      requires Valid() && MayCall(state, caller)
      modifies this`quit, this`eventfd, this`run, this`state
      ensures Valid() && run == old(run) + QuitSteps(caller)
      ensures quit && SamePlace(old(state), state) && (caller.Some? ==> eventfd > 0)
      ensures eventfd >= old(eventfd)
    {
      hide EventLoop.Reached;
      quit := true;
      match caller {
        case Some(t) =>
          Record(OtherQuit(t));
          Record(OtherDecide(t));
          Wakeup(caller);
          assert state.owed == old(state).owed;
        case None =>
          Record(LoopQuit);
      }
    }

    method QueueInLoop(cb: Functor, caller: Option<Thread>)
      requires Valid() && MayCall(state, caller)
      modifies this`pendingFunctors, this`eventfd, this`run, this`state
      ensures Valid() && run == old(run) + QueueSteps(caller, cb, callingPendingFunctors)
      ensures pendingFunctors == old(pendingFunctors) + [cb] && SamePlace(old(state), state)
      ensures caller.Some? || callingPendingFunctors ==> eventfd > 0
      ensures eventfd >= old(eventfd)
    {
      hide EventLoop.Reached;
      pendingFunctors := pendingFunctors + [cb];
      Record(if caller.Some? then OtherPush(caller.value, cb) else LoopPush(cb));
      Record(if caller.Some? then OtherDecide(caller.value) else LoopDecide);
      if caller.Some? || callingPendingFunctors {
        Wakeup(caller);
      }
      assert state.owed == old(state).owed;
    }

    /** User code on the loop thread, as a handler or as a functor. */
    method Perform(requests: seq<Request>)
      requires Valid() && InUserCode(state)
      modifies this`pendingFunctors, this`quit, this`eventfd, this`run, this`state
      ensures Valid() && run == old(run) + UserSteps(requests, callingPendingFunctors)
      ensures pendingFunctors == old(pendingFunctors) + Queued(requests) && SamePlace(old(state), state)
      ensures quit == (old(quit) || QuitRequest in requests)
      ensures callingPendingFunctors && Queued(requests) != [] ==> eventfd > 0
      ensures eventfd >= old(eventfd)
    {
      hide EventLoop.Reached, Queued, UserSteps;
      NoRequests(callingPendingFunctors);
      for i := 0 to |requests|
        invariant Valid() && run == old(run) + UserSteps(requests[..i], callingPendingFunctors)
        invariant pendingFunctors == old(pendingFunctors) + Queued(requests[..i]) && SamePlace(old(state), state)
        invariant quit == (old(quit) || QuitRequest in requests[..i])
        invariant callingPendingFunctors && Queued(requests[..i]) != [] ==> eventfd > 0
        invariant eventfd >= old(eventfd)
      {
        NextRequest(requests, i, callingPendingFunctors);
        match requests[i] {
          case QueueRequest(f) => QueueInLoop(f, None);
          case QuitRequest => Quit(None);
        }
      }
      assert requests[..|requests|] == requests;
    }

    method RunInLoop(cb: Functor, caller: Option<Thread>)
      requires Valid() && MayCall(state, caller)
      modifies this
      ensures Valid() && SamePlace(old(state), state)
      ensures caller.None? ==> called == old(called) + [cb]
                               && run == old(run) + UserSteps(code(cb), callingPendingFunctors)
      ensures caller.Some? ==> called == old(called) && run == old(run) + QueueSteps(caller, cb, callingPendingFunctors)
    {
      if caller.None? {
        called := called + [cb];
        Perform(code(cb));
      } else {
        QueueInLoop(cb, caller);
      }
    }

    /** One functor of the batch. */
    method RunOne(functor: Functor)
      requires Valid() && state.pc.RunBatch? && state.own.None?
      requires state.pc.rest != [] && state.pc.rest[0] == functor
      modifies this
      ensures Valid() && callingPendingFunctors
      ensures run == old(run) + [RunFunctor] + UserSteps(code(functor), true)
      ensures state.pc == RunBatch(old(state).pc.rest[1..]) && state.own.None? && state.owed == old(state).owed
      ensures state.rounds == old(state).rounds && state.executed == old(state).executed + [functor]
      ensures called == old(called) + [functor]
      ensures pendingFunctors == old(pendingFunctors) + Queued(code(functor))
      ensures quit == (old(quit) || QuitRequest in code(functor))
      ensures Queued(code(functor)) != [] ==> eventfd > 0
      ensures eventfd >= old(eventfd)
    {
      hide EventLoop.Reached, Queued, UserSteps;
      FlagIsExact();
      Record(RunFunctor);
      called := called + [functor];
      Perform(code(functor));
    }

    /** The swap. */
    method TakeFunctors() returns (functors: seq<Functor>)
      requires Valid() && state.pc == Dispatch(false) && state.own.None?
      modifies this`callingPendingFunctors, this`pendingFunctors, this`run, this`state
      ensures Valid() && run == old(run) + [EndDispatch, TakeBatch]
      ensures functors == old(pendingFunctors) && pendingFunctors == []
      ensures state == Do(Do(old(state), EndDispatch), TakeBatch)
    {
      hide EventLoop.Reached;
      callingPendingFunctors := true;
      Record(EndDispatch);
      functors := pendingFunctors;
      pendingFunctors := [];
      Record(TakeBatch);
    }

    /** The loop over the functors taken. */
    method RunAll(functors: seq<Functor>)
      requires Valid() && state.pc == RunBatch(functors) && state.own.None? && pendingFunctors == []
      modifies this
      ensures Valid() && callingPendingFunctors && run == old(run) + BatchSteps(code, functors)
      ensures state.pc == RunBatch([]) && state.own.None? && state.owed == old(state).owed
      ensures state.rounds == old(state).rounds && state.executed == old(state).executed + functors
      ensures called == old(called) + functors && pendingFunctors == Requeued(code, functors)
      ensures pendingFunctors != [] ==> eventfd > 0
      ensures quit == (old(quit) || Quits(code, functors))
    {
      hide EventLoop.Reached, Queued, UserSteps, BatchSteps, Requeued, Quits;
      BatchStart(code);
      FlagIsExact();
      for i := 0 to |functors|
        invariant Valid() && run == old(run) + BatchSteps(code, functors[..i])
        invariant state.pc == RunBatch(functors[i..]) && state.own.None? && state.owed == old(state).owed
        invariant state.rounds == old(state).rounds && callingPendingFunctors
        invariant state.executed == old(state).executed + functors[..i]
        invariant called == old(called) + functors[..i]
        invariant pendingFunctors == Requeued(code, functors[..i])
        invariant pendingFunctors != [] ==> eventfd > 0
        invariant quit == (old(quit) || Quits(code, functors[..i]))
      {
        BatchNext(code, functors, i);
        RunOne(functors[i]);
      }
      assert functors[..|functors|] == functors;
    }

    /**
     * Runs exactly the functors present at the swap, whatever they do; what they queue
     * waits for the next call, with a wakeup left for it.
     */
    method DoPendingFunctors()
      requires Valid() && state.pc == Dispatch(false) && state.own.None?
      modifies this
      ensures Valid() && run == old(run) + FunctorSteps(code, old(pendingFunctors))
      ensures state.pc.CheckQuit? && state.own.None? && state.owed == old(state).owed
      ensures state.rounds == old(state).rounds + 1
      ensures state.executed == old(state).executed + old(pendingFunctors)
      ensures called == old(called) + old(pendingFunctors)
      ensures pendingFunctors == Requeued(code, old(pendingFunctors))
      ensures pendingFunctors != [] ==> eventfd > 0
      ensures quit == (old(quit) || Quits(code, old(pendingFunctors)))
    {
      hide EventLoop.Reached, BatchSteps, Requeued, Quits;
      var functors := TakeFunctors();
      RunAll(functors);
      callingPendingFunctors := false;
      Record(EndBatch);
    }

    /** The handlers of one poll. */
    method HandleEvents(poll: Poll)
      requires Valid() && state.pc.AtPoll? && (poll.reported ==> eventfd > 0)
      modifies this
      ensures Valid() && run == old(run) + HandlerSteps(poll)
      ensures state.pc == Dispatch(false) && state.own.None? && state.owed == old(state).owed
      ensures state.rounds == old(state).rounds && state.executed == old(state).executed && called == old(called)
      ensures pendingFunctors == old(pendingFunctors) + Queued(poll.before) + Queued(poll.after)
      ensures quit == (old(quit) || QuitRequest in poll.before || QuitRequest in poll.after)
    {
      hide EventLoop.Reached, Queued, UserSteps;
      FlagIsExact();
      Record(PollReturn(poll.reported));
      Perform(poll.before);
      if poll.reported {
        HandleRead();
      }
      Perform(poll.after);
    }

    /** One round of `loop`: everything queued before the swap is called, in order. */
    method Round(poll: Poll)
      requires Valid() && state.pc.AtPoll? && (poll.reported ==> eventfd > 0)
      modifies this
      ensures Valid() && state.pc.CheckQuit? && state.own.None? && state.owed == old(state).owed
      ensures state.rounds == old(state).rounds + 1
      ensures var batch := old(pendingFunctors) + Queued(poll.before) + Queued(poll.after);
              && run == old(run) + HandlerSteps(poll) + FunctorSteps(code, batch)
              && called == old(called) + batch && state.executed == old(state).executed + batch
              && pendingFunctors == Requeued(code, batch)
              && quit == (old(quit) || QuitRequest in poll.before || QuitRequest in poll.after || Quits(code, batch))
      ensures pendingFunctors != [] ==> eventfd > 0
    {
      hide EventLoop.Reached, Queued, HandlerSteps, FunctorSteps, Requeued, Quits;
      HandleEvents(poll);
      DoPendingFunctors();
    }

    /**
     * `loop` over the given polls: it makes a round for each until `quit` is set, everything
     * queued by then has been called or is queued, in order, and going back to poll with
     * something queued it leaves itself a wakeup.
     */
    method Loop(polls: seq<Poll>) returns (rounds: nat)
      requires Valid() && state.pc.CheckQuit? && called == state.executed
      modifies this
      ensures Valid() && rounds <= |polls| && (rounds < |polls| ==> quit)
      ensures state.pc == if quit then Done else AtPoll
      ensures state.rounds == old(state).rounds + rounds && state.owed == old(state).owed
      ensures called == state.executed && called + pendingFunctors == state.pushes
      ensures rounds > 0 ==> old(state).pushes <= called
      ensures rounds > 0 && pendingFunctors != [] ==> eventfd > 0
    {
      hide EventLoop.Reached, Queued, HandlerSteps, FunctorSteps, Requeued, Quits;
      QueueIsExact();
      Record(LoopTest);
      rounds := 0;
      while !quit && rounds < |polls|
        invariant Valid() && rounds <= |polls|
        invariant state.pc == if quit then Done else AtPoll
        invariant state.rounds == old(state).rounds + rounds && state.owed == old(state).owed
        invariant called == state.executed
        invariant old(called) <= called
        invariant if rounds == 0 then pendingFunctors == old(pendingFunctors) && called == old(called)
                  else old(called) + old(pendingFunctors) <= called
        invariant rounds > 0 && pendingFunctors != [] ==> eventfd > 0
      {
        var poll := polls[rounds];
        Round(poll.(reported := poll.reported && eventfd > 0));
        Record(LoopTest);
        rounds := rounds + 1;
      }
      QueueIsExact();
    }

    lemma QueueIsExact()
      requires Valid()
      ensures state.pushes == state.executed + Rest(state) + pendingFunctors
    {
      FifoExactlyOnce(run);
    }
  }

  lemma NoRequests(calling: bool)
    ensures UserSteps([], calling) == [] && Queued([]) == []
  {
  }

  lemma NextRequest(requests: seq<Request>, i: nat, calling: bool)
    requires i < |requests|
    ensures UserSteps(requests[..i + 1], calling) == UserSteps(requests[..i], calling) +
              match requests[i]
              case QueueRequest(f) => QueueSteps(None, f, calling)
              case QuitRequest => QuitSteps(None)
    ensures Queued(requests[..i + 1]) ==
            if requests[i].QueueRequest? then Queued(requests[..i]) + [requests[i].f] else Queued(requests[..i])
    ensures QuitRequest in requests[..i + 1] <==> QuitRequest in requests[..i] || requests[i] == QuitRequest
  {
    assert requests[..i + 1][..i] == requests[..i];
    assert requests[..i + 1] == requests[..i] + [requests[i]];
  }

  lemma BatchStart(code: Functor -> seq<Request>)
    ensures BatchSteps(code, []) == [] && Requeued(code, []) == [] && !Quits(code, [])
  {
  }

  lemma BatchNext(code: Functor -> seq<Request>, batch: seq<Functor>, i: nat)
    requires i < |batch|
    ensures BatchSteps(code, batch[..i + 1]) ==
            BatchSteps(code, batch[..i]) + [RunFunctor] + UserSteps(code(batch[i]), true)
    ensures Requeued(code, batch[..i + 1]) == Requeued(code, batch[..i]) + Queued(code(batch[i]))
    ensures Quits(code, batch[..i + 1]) == (Quits(code, batch[..i]) || QuitRequest in code(batch[i]))
    ensures batch[i..][0] == batch[i] && batch[i..][1..] == batch[i + 1..]
    ensures batch[..i + 1] == batch[..i] + [batch[i]]
  {
    assert batch[..i + 1][..i] == batch[..i];
    assert batch[..i + 1] == batch[..i] + [batch[i]];
  }
}
