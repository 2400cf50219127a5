/**
 * The timer queue of mymuduo/TimerQueue.cpp as a state machine on values: a set of active
 * timers, the batch being run, and the one-shot timerfd. Callbacks are the additions and
 * cancellations that happen while a batch is running.
 */
module Timers {
  import opened Bytes

  type Ptr = nat // the address of a Timer; 0 is the null pointer
  type Time = int // microseconds

  datatype Timer = Timer(expiration: Time, interval: real, sequence: int) {
    predicate Repeats() {
      interval > 0.0
    }

    /** The interval in whole microseconds, truncated. */
    function Delta(): (d: int)
      ensures Repeats() ==> d >= 0 && d as real <= interval * 1000000.0 < d as real + 1.0
    {
      Truncate(interval * 1000000.0)
    }

    function Restarted(now: Time): Timer {
      this.(expiration := if Repeats() then now + Delta() else 0)
    }
  }

  function Truncate(x: real): (n: int)
    ensures x >= 0.0 ==> n >= 0 && n as real <= x < n as real + 1.0
  {
    if x < 0.0 then -((-x).Floor) else x.Floor
  }

  /** The timerfd: when it will fire, and the clock reading it was armed at. */
  datatype Arming = Arming(deadline: Time, at: Time)

  /** At least 100 microseconds ahead. */
  function Arm(when: Time, clock: Time): (a: Arming)
    ensures a.deadline == Max(when, clock + 100) && a.at == clock
  {
    Arming(clock + Max(when - clock, 100), clock)
  }

  datatype Phase = Idle | Running(batch: seq<Ptr>, done: nat, now: Time)

  /** One callback: which timer, in which batch, at which `now`, and when it had been due. */
  datatype Ran = Ran(timer: Ptr, batch: nat, now: Time, due: Time)

  type Store = map<Ptr, Timer>

  datatype State = State(
    store: Store,
    active: set<Ptr>,
    phase: Phase,
    canceling: set<Ptr>,
    armed: Option<Arming>,
    finished: set<Ptr>,   // history: one-shot timers that have had their batch
    cancelled: set<Ptr>,  // history: timers taken out by cancel
    batches: nat,         // history: completed batches
    log: seq<Ran>)        // history: all callbacks

  const START := State(map[], {}, Idle, {}, None, {}, {}, 0, [])

  function Elements(s: seq<Ptr>): set<Ptr> {
    set p | p in s
  }

  function InBatch(s: State): set<Ptr> {
    if s.phase.Running? then Elements(s.phase.batch) else {}
  }

  predicate Known(store: Store, ps: set<Ptr>) {
    ps <= store.Keys
  }

  /** The order of `std::set<std::pair<Timestamp, TimerPtr>>`. */
  predicate Before(store: Store, p: Ptr, q: Ptr)
    requires p in store && q in store
  {
    store[p].expiration < store[q].expiration || (store[p].expiration == store[q].expiration && p < q)
  }

  predicate Ordered(store: Store, ps: seq<Ptr>)
    requires Known(store, Elements(ps))
  {
    forall i, j :: 0 <= i < j < |ps| ==> Before(store, ps[i], ps[j])
  }

  /** The plain filter: everything due strictly before `now`. */
  function Due(store: Store, ps: set<Ptr>, now: Time): set<Ptr>
    requires Known(store, ps)
  {
    set p | p in ps && store[p].expiration < now
  }

  predicate IsEarliest(store: Store, ps: set<Ptr>, t: Time)
    requires Known(store, ps)
  {
    (exists p :: p in ps && store[p].expiration == t) && forall p :: p in ps ==> t <= store[p].expiration
  }

  predicate EarliestChanged(store: Store, ps: set<Ptr>, when: Time)
    requires Known(store, ps)
  {
    forall p :: p in ps ==> when < store[p].expiration
  }

  // ------------------------------------------------------------------ the actions

  datatype Action =
    | Add(p: Ptr, timer: Timer, clock: Time)
    | Cancel(p: Ptr)
    | Fire(now: Time, batch: seq<Ptr>)
    | RunNext
    | Finish(next: Time, clock: Time)

  /** The timers of a finished batch that go back into the queue. */
  function Again(s: State): set<Ptr>
    requires s.phase.Running? && Known(s.store, Elements(s.phase.batch))
  {
    set p | p in s.phase.batch && s.store[p].Repeats() && p !in s.canceling
  }

  function RestartedStore(s: State): (store: Store)
    requires s.phase.Running? && Known(s.store, Elements(s.phase.batch))
    ensures store.Keys == s.store.Keys
  {
    map p | p in s.store :: if p in Again(s) then s.store[p].Restarted(s.phase.now) else s.store[p]
  }

  predicate Formed(s: State) {
    Known(s.store, s.active) && Known(s.store, InBatch(s)) && (s.phase.Running? ==> s.phase.done <= |s.phase.batch|)
  }

  /** Clock readings are after the epoch; a batch is the due timers in order; `next` is the head afterwards. */
  predicate Enabled(s: State, a: Action) {
    Formed(s) && match a
    case Add(p, _, _) => p != 0 && p !in s.store
    case Cancel(_) => true
    case Fire(now, batch) =>
      s.phase.Idle? && now > 0 && Elements(batch) == Due(s.store, s.active, now) && Ordered(s.store, batch)
    case RunNext => s.phase.Running? && s.phase.done < |s.phase.batch|
    case Finish(next, _) =>
      && s.phase.Running? && s.phase.done == |s.phase.batch|
      && var queue := s.active + Again(s);
         queue != {} ==> IsEarliest(RestartedStore(s), queue, next)
  }

  function Do(s: State, a: Action): State
    requires Enabled(s, a)
  {
    match a
    case Add(p, timer, clock) =>
      s.(store := s.store[p := timer], active := s.active + {p},
         armed := if EarliestChanged(s.store, s.active, timer.expiration) then Some(Arm(timer.expiration, clock))
                  else s.armed)
    case Cancel(p) =>
      if p in s.active then s.(active := s.active - {p}, cancelled := s.cancelled + {p})
      else if s.phase.Running? then s.(canceling := s.canceling + {p})
      else s
    case Fire(now, batch) =>
      s.(active := s.active - Elements(batch), phase := Running(batch, 0, now), canceling := {}, armed := None)
    case RunNext =>
      var p := s.phase.batch[s.phase.done];
      s.(phase := s.phase.(done := s.phase.done + 1),
         log := s.log + [Ran(p, s.batches, s.phase.now, s.store[p].expiration)])
    case Finish(next, clock) =>
      var batch := Elements(s.phase.batch);
      s.(store := RestartedStore(s), active := s.active + Again(s), phase := Idle,
         finished := s.finished + (set p | p in batch && !s.store[p].Repeats()),
         cancelled := s.cancelled + (set p | p in batch && s.store[p].Repeats() && p in s.canceling),
         batches := s.batches + 1,
         armed := if s.active + Again(s) != {} && next > 0 then Some(Arm(next, clock)) else s.armed)
  }

  // ------------------------------------------------------------------ accounting

  /** Every inserted timer is in exactly one place. */
  predicate Accounted(s: State) {
    && s.store.Keys == s.active + InBatch(s) + s.finished + s.cancelled
    && BatchApart(s) && s.active !! s.finished && s.active !! s.cancelled
    && InBatch(s) !! s.finished && InBatch(s) !! s.cancelled && s.finished !! s.cancelled
  }

  predicate BatchApart(s: State) {
    && s.active !! InBatch(s)
    && (s.phase.Running? ==> forall i, j :: 0 <= i < j < |s.phase.batch| ==> s.phase.batch[i] != s.phase.batch[j])
  }

  lemma DoKeepsAccounts(s: State, a: Action)
    requires Formed(s) && Accounted(s) && Enabled(s, a)
    ensures Formed(Do(s, a)) && Accounted(Do(s, a))
  {
    match a {
      case Add(p, timer, clock) =>
      case Cancel(p) =>
      case Fire(now, batch) => FireKeepsAccounts(s, now, batch);
      case RunNext =>
      case Finish(next, clock) => FinishKeepsAccounts(s, next, clock);
    }
  }

  lemma FireKeepsAccounts(s: State, now: Time, batch: seq<Ptr>)
    requires Formed(s) && Accounted(s) && Enabled(s, Fire(now, batch))
    ensures Formed(Do(s, Fire(now, batch))) && Accounted(Do(s, Fire(now, batch)))
  {
    assert Elements(batch) <= s.active;
    forall i, j | 0 <= i < j < |batch| ensures batch[i] != batch[j] {
      assert Before(s.store, batch[i], batch[j]);
    }
  }

  lemma FinishKeepsAccounts(s: State, next: Time, clock: Time)
    requires Formed(s) && Accounted(s) && Enabled(s, Finish(next, clock))
    ensures Formed(Do(s, Finish(next, clock))) && Accounted(Do(s, Finish(next, clock)))
  {
    var s' := Do(s, Finish(next, clock));
    forall p | p in InBatch(s) ensures p in s'.active || p in s'.finished || p in s'.cancelled {
    }
  }

  // ------------------------------------------------------------------ arming

  /** The timerfd will fire no later than the head of the queue, or 100 microseconds after it was armed. */
  predicate ArmedFor(s: State, arming: Arming)
    requires Formed(s)
  {
    forall p :: p in s.active ==> arming.deadline <= Max(s.store[p].expiration, arming.at + 100)
  }

  /**
   * Between batches anything queued is covered; within one, an arming made by a callback is
   * right and a head at or before the epoch has one.
   */
  predicate Covered(s: State)
    requires Formed(s)
  {
    && (s.armed.Some? ==> ArmedFor(s, s.armed.value))
    && (s.phase.Idle? && s.active != {} ==> s.armed.Some?)
    && (s.phase.Running? ==>
          s.phase.now > 0 && forall p :: p in s.active && s.store[p].expiration <= 0 ==> s.armed.Some?)
  }

  lemma AddKeepsCovered(s: State, p: Ptr, timer: Timer, clock: Time)
    requires Formed(s) && Covered(s) && Enabled(s, Add(p, timer, clock))
    ensures Formed(Do(s, Add(p, timer, clock))) && Covered(Do(s, Add(p, timer, clock)))
  {
    var s' := Do(s, Add(p, timer, clock));
    if !EarliestChanged(s.store, s.active, timer.expiration) {
      var q :| q in s.active && s.store[q].expiration <= timer.expiration;
      assert s'.store[q] == s.store[q];
    }
  }

  lemma FinishKeepsCovered(s: State, next: Time, clock: Time)
    requires Formed(s) && Covered(s) && Enabled(s, Finish(next, clock))
    ensures Formed(Do(s, Finish(next, clock))) && Covered(Do(s, Finish(next, clock)))
  {
    var s' := Do(s, Finish(next, clock));
    if s'.active != {} {
      assert IsEarliest(s'.store, s'.active, next);
      if next <= 0 {
        var q :| q in s'.active && s'.store[q].expiration == next;
        if q in Again(s) {
          RestartedIsPositive(s, q);
        }
        assert q in s.active && s.store[q].expiration == next;
        var arming := s'.armed.value;
        forall p | p in s'.active ensures arming.deadline <= Max(s'.store[p].expiration, arming.at + 100) {
          assert next <= s'.store[p].expiration;
        }
      }
    }
  }

  lemma RestartedIsPositive(s: State, p: Ptr)
    requires Formed(s) && s.phase.Running? && s.phase.now > 0 && p in Again(s)
    ensures RestartedStore(s)[p].expiration > 0
  {
  }

  lemma DoKeepsCovered(s: State, a: Action)
    requires Formed(s) && Accounted(s) && Covered(s) && Enabled(s, a)
    ensures Formed(Do(s, a)) && Covered(Do(s, a))
  {
    DoKeepsAccounts(s, a);
    match a {
      case Add(p, timer, clock) => AddKeepsCovered(s, p, timer, clock);
      case Cancel(p) =>
      case Fire(now, batch) =>
      case RunNext =>
      case Finish(next, clock) => FinishKeepsCovered(s, next, clock);
    }
  }

  // ------------------------------------------------------------------ rate

  /** The batch times of one timer's callbacks, in order. */
  function RunsOf(log: seq<Ran>, p: Ptr): seq<Time> {
    if log == [] then []
    else
      var before, last := RunsOf(log[..|log| - 1], p), log[|log| - 1];
      if last.timer == p then before + [last.now] else before
  }

  predicate Spaced(times: seq<Time>, d: int) {
    forall i :: 0 <= i < |times| - 1 ==> times[i] + d < times[i + 1]
  }

  /** A timer that may still run: it is due exactly one interval after its last run. */
  predicate Waiting(t: Timer, times: seq<Time>) {
    times != [] ==> t.Repeats() && times[|times| - 1] + t.Delta() == t.expiration
  }

  predicate RateOf(s: State, p: Ptr)
    requires Formed(s) && p in s.store
  {
    var t, times := s.store[p], RunsOf(s.log, p);
    && Spaced(times, t.Delta())
    && (!t.Repeats() ==> |times| <= 1)
    && (p in s.active ==> Waiting(t, times))
  }

  predicate BatchRate(s: State, i: nat)
    requires Formed(s) && s.phase.Running? && i < |s.phase.batch|
  {
    var p := s.phase.batch[i];
    var t, times := s.store[p], RunsOf(s.log, p);
    if i < s.phase.done then times != [] && times[|times| - 1] == s.phase.now
    else t.expiration < s.phase.now && Waiting(t, times)
  }

  predicate Rated(s: State)
    requires Formed(s)
  {
    && (forall p :: p in s.store ==> RateOf(s, p))
    && (s.phase.Running? ==> forall i :: 0 <= i < |s.phase.batch| ==> BatchRate(s, i))
    && (forall i :: 0 <= i < |s.log| ==> s.log[i].timer in s.store && s.log[i].due < s.log[i].now)
  }

  lemma RunsOfSnoc(log: seq<Ran>, r: Ran, p: Ptr)
    ensures RunsOf(log + [r], p) == if r.timer == p then RunsOf(log, p) + [r.now] else RunsOf(log, p)
  {
    assert (log + [r])[..|log|] == log;
  }

  lemma {:induction false} NeverRan(log: seq<Ran>, p: Ptr)
    requires forall i :: 0 <= i < |log| ==> log[i].timer != p
    ensures RunsOf(log, p) == []
  {
    if log != [] {
      NeverRan(log[..|log| - 1], p);
    }
  }

  lemma AddKeepsRate(s: State, p: Ptr, timer: Timer, clock: Time)
    requires Formed(s) && Accounted(s) && Rated(s) && Enabled(s, Add(p, timer, clock))
    ensures Formed(Do(s, Add(p, timer, clock))) && Rated(Do(s, Add(p, timer, clock)))
  {
    var s' := Do(s, Add(p, timer, clock));
    NeverRan(s.log, p);
    forall q | q in s'.store ensures RateOf(s', q) {
      assert q != p ==> RateOf(s, q);
    }
    if s.phase.Running? {
      forall i | 0 <= i < |s.phase.batch| ensures BatchRate(s', i) {
        assert BatchRate(s, i) && s.phase.batch[i] in InBatch(s);
      }
    }
  }

  lemma FireKeepsRate(s: State, now: Time, batch: seq<Ptr>)
    requires Formed(s) && Accounted(s) && Rated(s) && Enabled(s, Fire(now, batch))
    ensures Formed(Do(s, Fire(now, batch))) && Rated(Do(s, Fire(now, batch)))
  {
    FireKeepsAccounts(s, now, batch);
    var s' := Do(s, Fire(now, batch));
    forall p | p in s'.store ensures RateOf(s', p) {
      assert RateOf(s, p);
    }
    forall i | 0 <= i < |batch| ensures BatchRate(s', i) {
      assert batch[i] in Elements(batch) && RateOf(s, batch[i]);
    }
  }

  lemma RunKeepsRate(s: State)
    requires Formed(s) && Accounted(s) && Rated(s) && Enabled(s, RunNext)
    ensures Formed(Do(s, RunNext)) && Rated(Do(s, RunNext))
  {
    var s' := Do(s, RunNext);
    var k := s.phase.done;
    var p := s.phase.batch[k];
    var r := Ran(p, s.batches, s.phase.now, s.store[p].expiration);
    assert BatchRate(s, k) && p in InBatch(s);
    forall q | q in s'.store ensures RateOf(s', q) {
      assert RateOf(s, q);
      RunsOfSnoc(s.log, r, q);
    }
    forall i | 0 <= i < |s.phase.batch| ensures BatchRate(s', i) {
      assert BatchRate(s, i);
      RunsOfSnoc(s.log, r, s.phase.batch[i]);
      assert i != k ==> s.phase.batch[i] != p;
    }
  }

  lemma FinishKeepsRate(s: State, next: Time, clock: Time)
    requires Formed(s) && Accounted(s) && Rated(s) && Enabled(s, Finish(next, clock))
    ensures Formed(Do(s, Finish(next, clock))) && Rated(Do(s, Finish(next, clock)))
  {
    FinishKeepsAccounts(s, next, clock);
    var s' := Do(s, Finish(next, clock));
    forall p | p in s'.store ensures RateOf(s', p) {
      assert RateOf(s, p);
      if p in Again(s) {
        var i :| 0 <= i < |s.phase.batch| && s.phase.batch[i] == p;
        assert BatchRate(s, i);
      }
    }
  }

  lemma DoKeepsRate(s: State, a: Action)
    requires Formed(s) && Accounted(s) && Rated(s) && Enabled(s, a)
    ensures Formed(Do(s, a)) && Rated(Do(s, a))
  {
    DoKeepsAccounts(s, a);
    match a {
      case Add(p, timer, clock) => AddKeepsRate(s, p, timer, clock);
      case Cancel(p) => CancelKeepsRate(s, p);
      case Fire(now, batch) => FireKeepsRate(s, now, batch);
      case RunNext => RunKeepsRate(s);
      case Finish(next, clock) => FinishKeepsRate(s, next, clock);
    }
  }

  lemma CancelKeepsRate(s: State, p: Ptr)
    requires Formed(s) && Rated(s)
    ensures Formed(Do(s, Cancel(p))) && Rated(Do(s, Cancel(p)))
  {
    var s' := Do(s, Cancel(p));
    forall q | q in s'.store ensures RateOf(s', q) {
      assert RateOf(s, q);
    }
    if s.phase.Running? {
      forall i | 0 <= i < |s.phase.batch| ensures BatchRate(s', i) {
        assert BatchRate(s, i);
      }
    }
  }

  // ------------------------------------------------------------------ whole runs

  predicate Inv(s: State) {
    Formed(s) && Accounted(s) && Covered(s) && Rated(s)
  }

  lemma DoKeepsInv(s: State, a: Action)
    requires Inv(s) && Enabled(s, a)
    ensures Inv(Do(s, a))
  {
    DoKeepsAccounts(s, a);
    DoKeepsCovered(s, a);
    DoKeepsRate(s, a);
  }

  predicate Behaviour(s: State, run: seq<Action>)
    decreases |run|
  {
    run == [] || (Enabled(s, run[0]) && Behaviour(Do(s, run[0]), run[1..]))
  }

  function Reach(s: State, run: seq<Action>): State
    requires Behaviour(s, run)
    decreases |run|
  {
    if run == [] then s else Reach(Do(s, run[0]), run[1..])
  }

  /** Every mix of add, cancel, fire and additions and cancellations inside callbacks keeps the invariant. */
  lemma {:induction false} ReachKeepsInv(s: State, run: seq<Action>)
    requires Inv(s) && Behaviour(s, run)
    ensures Inv(Reach(s, run))
    decreases |run|
  {
    if run != [] {
      DoKeepsInv(s, run[0]);
      ReachKeepsInv(Do(s, run[0]), run[1..]);
    }
  }

  lemma {:induction false} ReachSnoc(s: State, run: seq<Action>, a: Action)
    requires Behaviour(s, run) && Enabled(Reach(s, run), a)
    ensures Behaviour(s, run + [a]) && Reach(s, run + [a]) == Do(Reach(s, run), a)
    decreases |run|
  {
    if run == [] {
      assert run + [a] == [a] && [a][1..] == [];
      assert Behaviour(Do(s, a), []);
    } else {
      ReachSnoc(Do(s, run[0]), run[1..], a);
      assert (run + [a])[1..] == run[1..] + [a];
    }
  }

  /** No stranded timer: between batches, whatever is queued the timerfd is armed early enough for. */
  lemma NoStrandedTimer(run: seq<Action>, p: Ptr)
    requires Behaviour(START, run)
    requires Reach(START, run).phase.Idle? && p in Reach(START, run).active
    ensures var s := Reach(START, run);
            && p in s.store && s.armed.Some?
            && s.armed.value.deadline <= Max(s.store[p].expiration, s.armed.value.at + 100)
  {
    ReachKeepsInv(START, run);
  }

  /** Every inserted timer is in exactly one of active, running batch, finished and cancelled. */
  lemma TimerAccounting(run: seq<Action>, p: Ptr)
    requires Behaviour(START, run)
    ensures var s := Reach(START, run);
            var places := [p in s.active, p in InBatch(s), p in s.finished, p in s.cancelled];
            && (p in s.store <==> true in places)
            && forall i, j :: 0 <= i < j < 4 ==> !(places[i] && places[j])
  {
    ReachKeepsInv(START, run);
    assert Accounted(Reach(START, run));
  }

  lemma {:induction false} SpacedOut(times: seq<Time>, d: int, i: nat, j: nat)
    requires Spaced(times, d) && i < j < |times|
    ensures times[j] - times[i] > (j - i) * d
    decreases j
  {
    if j > i + 1 {
      SpacedOut(times, d, i, j - 1);
      assert times[j - 1] + d < times[j - 1 + 1];
      assert (j - i) * d == (j - 1 - i) * d + d;
    }
  }

  /** Rate: one-shot timers run at most once, repeating ones at most once per interval. */
  lemma TimerRate(run: seq<Action>, p: Ptr, i: nat, j: nat)
    requires Behaviour(START, run) && p in Reach(START, run).store
    requires i < j < |RunsOf(Reach(START, run).log, p)|
    ensures var s := Reach(START, run);
            var times := RunsOf(s.log, p);
            s.store[p].Repeats() && times[j] - times[i] > (j - i) * s.store[p].Delta()
  {
    ReachKeepsInv(START, run);
    var s := Reach(START, run);
    assert RateOf(s, p);
    SpacedOut(RunsOf(s.log, p), s.store[p].Delta(), i, j);
  }

  /** A queued timer that has run is due exactly one interval after the batch it last ran in. */
  lemma NextDueExactly(run: seq<Action>, p: Ptr)
    requires Behaviour(START, run) && p in Reach(START, run).active && RunsOf(Reach(START, run).log, p) != []
    ensures var s := Reach(START, run);
            var times := RunsOf(s.log, p);
            p in s.store && s.store[p].expiration == times[|times| - 1] + s.store[p].Delta()
  {
    ReachKeepsInv(START, run);
    assert RateOf(Reach(START, run), p);
  }

  /** No callback runs in a batch whose `now` is at or before the timer's expiration. */
  lemma NeverEarly(run: seq<Action>, i: nat)
    requires Behaviour(START, run) && i < |Reach(START, run).log|
    ensures Reach(START, run).log[i].due < Reach(START, run).log[i].now
  {
    ReachKeepsInv(START, run);
    assert Rated(Reach(START, run));
  }

  // ------------------------------------------------------------------ what becomes of a timer

  /** `p` is the timer that was added as `timer`: same interval, and first due when it was asked for. */
  predicate IsAdded(s: State, p: Ptr, timer: Timer) {
    && p in s.store
    && s.store[p].interval == timer.interval
    && (RunsOf(s.log, p) == [] ==> s.store[p].expiration == timer.expiration)
  }

  lemma IsAddedStays(s: State, a: Action, p: Ptr, timer: Timer)
    requires Inv(s) && Enabled(s, a) && IsAdded(s, p, timer)
    ensures IsAdded(Do(s, a), p, timer)
  {
    match a {
      case Finish(next, clock) =>
        if p in Again(s) {
          var i :| 0 <= i < |s.phase.batch| && s.phase.batch[i] == p;
          assert BatchRate(s, i);
        }
      case RunNext =>
        var q := s.phase.batch[s.phase.done];
        RunsOfSnoc(s.log, Ran(q, s.batches, s.phase.now, s.store[q].expiration), p);
      case _ =>
    }
  }

  lemma {:induction false} IsAddedInReach(s: State, run: seq<Action>, p: Ptr, timer: Timer)
    requires Inv(s) && Behaviour(s, run) && IsAdded(s, p, timer)
    ensures IsAdded(Reach(s, run), p, timer)
    decreases |run|
  {
    hide Inv, Enabled, Do, IsAdded;
    if run != [] {
      DoKeepsInv(s, run[0]);
      IsAddedStays(s, run[0], p, timer);
      IsAddedInReach(Do(s, run[0]), run[1..], p, timer);
    }
  }

  lemma {:induction false} AddedInRun(s: State, run: seq<Action>, p: Ptr, timer: Timer, clock: Time)
    requires Inv(s) && Behaviour(s, run) && Add(p, timer, clock) in run
    ensures IsAdded(Reach(s, run), p, timer)
    decreases |run|
  {
    hide Inv;
    DoKeepsInv(s, run[0]);
    if run[0] == Add(p, timer, clock) {
      IsAddedInReach(Do(s, run[0]), run[1..], p, timer);
    } else {
      assert run == [run[0]] + run[1..];
      AddedInRun(Do(s, run[0]), run[1..], p, timer, clock);
    }
  }

  /** Cancellation asked for, whether or not it has taken effect. */
  predicate CancelSeen(s: State, p: Ptr) {
    p in s.cancelled || p in s.canceling
  }

  lemma {:induction false} OnlyWhenAsked(s: State, run: seq<Action>, p: Ptr)
    requires Behaviour(s, run) && !CancelSeen(s, p) && Cancel(p) !in run
    ensures !CancelSeen(Reach(s, run), p)
    decreases |run|
  {
    if run != [] {
      assert run[0] != Cancel(p);
      OnlyWhenAsked(Do(s, run[0]), run[1..], p);
    }
  }

  /** Finished timers are one-shot, and have run exactly once. */
  predicate FinishedOnce(s: State) {
    forall p :: p in s.finished ==> p in s.store && s.store[p].interval <= 0.0 && |RunsOf(s.log, p)| == 1
  }

  lemma FinishKeepsOnce(s: State, next: Time, clock: Time)
    requires Inv(s) && FinishedOnce(s) && Enabled(s, Finish(next, clock))
    ensures FinishedOnce(Do(s, Finish(next, clock)))
  {
    var s' := Do(s, Finish(next, clock));
    forall p | p in s'.finished
      ensures p in s'.store && s'.store[p].interval <= 0.0 && |RunsOf(s'.log, p)| == 1
    {
      assert p in s.store && RateOf(s, p);
      if p !in s.finished {
        var i :| 0 <= i < |s.phase.batch| && s.phase.batch[i] == p;
        assert BatchRate(s, i);
      }
    }
  }

  lemma DoKeepsOnce(s: State, a: Action)
    requires Inv(s) && FinishedOnce(s) && Enabled(s, a)
    ensures FinishedOnce(Do(s, a))
  {
    match a {
      case Finish(next, clock) => FinishKeepsOnce(s, next, clock);
      case RunNext =>
        var q := s.phase.batch[s.phase.done];
        assert q in InBatch(s);
        forall p | p in s.finished ensures RunsOf(Do(s, a).log, p) == RunsOf(s.log, p) {
          RunsOfSnoc(s.log, Ran(q, s.batches, s.phase.now, s.store[q].expiration), p);
        }
      case _ =>
    }
  }

  lemma {:induction false} ReachKeepsOnce(s: State, run: seq<Action>)
    requires Inv(s) && FinishedOnce(s) && Behaviour(s, run)
    ensures FinishedOnce(Reach(s, run))
    decreases |run|
  {
    hide Inv, FinishedOnce, Enabled, Do;
    if run != [] {
      DoKeepsInv(s, run[0]);
      DoKeepsOnce(s, run[0]);
      ReachKeepsOnce(Do(s, run[0]), run[1..]);
    }
  }

  /**
   * What becomes of a timer. After every run that added it, it is there under its interval
   * and, until it runs, due when asked for; only a cancelled timer is among the cancelled, only
   * a one-shot timer that ran exactly once among the finished. So an uncancelled timer is
   * waiting or in the running batch, for good if it repeats and until it has run if not.
   */
  lemma TimerFate(run: seq<Action>, p: Ptr, timer: Timer, clock: Time)
    requires Behaviour(START, run) && Add(p, timer, clock) in run
    ensures var s := Reach(START, run);
            && p in s.store && s.store[p].interval == timer.interval
            && (RunsOf(s.log, p) == [] ==> s.store[p].expiration == timer.expiration)
            && (p in s.cancelled ==> Cancel(p) in run)
            && (p in s.finished ==> timer.interval <= 0.0 && |RunsOf(s.log, p)| == 1)
            && (Cancel(p) !in run && timer.interval > 0.0 ==> p in s.active || p in InBatch(s))
            && (Cancel(p) !in run && RunsOf(s.log, p) == [] ==> p in s.active || p in InBatch(s))
  {
    ReachKeepsInv(START, run);
    AddedInRun(START, run, p, timer, clock);
    ReachKeepsOnce(START, run);
    if Cancel(p) !in run {
      OnlyWhenAsked(START, run, p);
    }
  }

  // ------------------------------------------------------------------ no false alarm

  /** `arming` is for `p`'s expiration, and `p` is queued or was cancelled since. */
  predicate IsFor(s: State, arming: Arming, p: Ptr) {
    && p in s.store && (p in s.active || p in s.cancelled)
    && arming.deadline == Max(s.store[p].expiration, arming.at + 100)
  }

  ghost predicate ArmedForTimer(s: State) {
    s.armed.Some? ==> exists p :: IsFor(s, s.armed.value, p)
  }

  lemma DoKeepsArmedForTimer(s: State, a: Action)
    requires Inv(s) && ArmedForTimer(s) && Enabled(s, a)
    ensures ArmedForTimer(Do(s, a))
  {
    var s' := Do(s, a);
    match a {
      case Add(p, timer, clock) =>
        if s'.armed != s.armed {
          assert IsFor(s', s'.armed.value, p);
        } else if s.armed.Some? {
          var q :| IsFor(s, s.armed.value, q);
          assert IsFor(s', s.armed.value, q);
        }
      case Finish(next, clock) => FinishKeepsArmedForTimer(s, next, clock);
      case Fire(_, _) =>
      case _ =>
        if s.armed.Some? {
          var q :| IsFor(s, s.armed.value, q);
          assert IsFor(s', s.armed.value, q);
        }
    }
  }

  lemma FinishKeepsArmedForTimer(s: State, next: Time, clock: Time)
    requires Inv(s) && ArmedForTimer(s) && Enabled(s, Finish(next, clock))
    ensures ArmedForTimer(Do(s, Finish(next, clock)))
  {
    var s' := Do(s, Finish(next, clock));
    if s'.active != {} && next > 0 {
      assert IsEarliest(s'.store, s'.active, next);
      var q :| q in s'.active && s'.store[q].expiration == next;
      assert IsFor(s', s'.armed.value, q);
    } else if s.armed.Some? {
      var q :| IsFor(s, s.armed.value, q);
      assert q !in InBatch(s);
      assert IsFor(s', s.armed.value, q);
    }
  }

  lemma {:induction false} ReachKeepsArmedForTimer(s: State, run: seq<Action>)
    requires Inv(s) && ArmedForTimer(s) && Behaviour(s, run)
    ensures ArmedForTimer(Reach(s, run))
    decreases |run|
  {
    hide Inv, ArmedForTimer, Enabled, Do;
    if run != [] {
      DoKeepsInv(s, run[0]);
      DoKeepsArmedForTimer(s, run[0]);
      ReachKeepsArmedForTimer(Do(s, run[0]), run[1..]);
    }
  }

  /**
   * No false alarm: the timerfd is only ever armed for a timer that is queued, or was
   * cancelled since. So as long as nothing has been cancelled it is armed for exactly the
   * earliest queued timer, and after any run for none that was not asked for.
   */
  lemma ArmedForTheEarliest(run: seq<Action>)
    requires Behaviour(START, run) && Reach(START, run).armed.Some?
    ensures var s := Reach(START, run);
            var deadline, at := s.armed.value.deadline, s.armed.value.at;
            && (exists p :: IsFor(s, s.armed.value, p))
            && (forall p :: p in s.active ==> p in s.store && deadline <= Max(s.store[p].expiration, at + 100))
            && (s.cancelled == {} ==> exists p :: p in s.active && deadline == Max(s.store[p].expiration, at + 100))
  {
    ReachKeepsInv(START, run);
    ReachKeepsArmedForTimer(START, run);
    var s := Reach(START, run);
    hide Behaviour, Reach;
    var p :| IsFor(s, s.armed.value, p);
  }

  // ------------------------------------------------------------------ cancellation

  predicate Gone(s: State, p: Ptr) {
    p in s.finished || p in s.cancelled
  }

  /** Gone, or going when the current batch ends. */
  predicate Doomed(s: State, p: Ptr) {
    Gone(s, p) || (p in InBatch(s) && p in s.canceling)
  }

  lemma DoomedStays(s: State, a: Action, p: Ptr)
    requires Inv(s) && Enabled(s, a) && Doomed(s, p)
    ensures Doomed(Do(s, a), p)
    ensures Do(s, a).batches > s.batches ==> Gone(Do(s, a), p)
  {
    DoKeepsInv(s, a);
  }

  /** After a timer is doomed it runs in no later batch; once it is gone, never again. */
  lemma {:induction false} DoomedRuns(s: State, run: seq<Action>, p: Ptr)
    requires Inv(s) && Behaviour(s, run) && Doomed(s, p)
    ensures s.log <= Reach(s, run).log
    ensures forall k :: |s.log| <= k < |Reach(s, run).log| && Reach(s, run).log[k].timer == p ==>
              !Gone(s, p) && Reach(s, run).log[k].batch == s.batches
    decreases |run|
  {
    hide Covered, Rated;
    if run != [] {
      DoKeepsInv(s, run[0]);
      DoomedStays(s, run[0], p);
      var s1 := Do(s, run[0]);
      DoomedRuns(s1, run[1..], p);
      if run[0].RunNext? && s.phase.batch[s.phase.done] == p {
        assert p in InBatch(s);
      }
    }
  }

  /** Cancelled while active: never runs again. */
  lemma CancelActive(before: seq<Action>, p: Ptr, after: seq<Action>)
    requires Behaviour(START, before) && p in Reach(START, before).active
    requires Enabled(Reach(START, before), Cancel(p)) && Behaviour(Do(Reach(START, before), Cancel(p)), after)
    ensures var was := Reach(START, before).log;
            var log := Reach(Do(Reach(START, before), Cancel(p)), after).log;
            was <= log && forall k :: |was| <= k < |log| ==> log[k].timer != p
  {
    ReachKeepsInv(START, before);
    DoKeepsInv(Reach(START, before), Cancel(p));
    DoomedRuns(Do(Reach(START, before), Cancel(p)), after, p);
  }

  /** Cancelled while its batch is running: may still run in that batch, in no later one. */
  lemma CancelInBatch(before: seq<Action>, p: Ptr, after: seq<Action>)
    requires Behaviour(START, before) && p in InBatch(Reach(START, before))
    requires Enabled(Reach(START, before), Cancel(p)) && Behaviour(Do(Reach(START, before), Cancel(p)), after)
    ensures var s := Reach(START, before);
            var log := Reach(Do(s, Cancel(p)), after).log;
            s.log <= log && forall k :: |s.log| <= k < |log| && log[k].timer == p ==> log[k].batch == s.batches
  {
    ReachKeepsInv(START, before);
    DoKeepsInv(Reach(START, before), Cancel(p));
    DoomedRuns(Do(Reach(START, before), Cancel(p)), after, p);
  }

  // ------------------------------------------------------------------ the batch is determined

  /** There is only one listing of the due timers in order. */
  lemma {:induction false} BatchUnique(store: Store, a: seq<Ptr>, b: seq<Ptr>)
    requires Known(store, Elements(a)) && Elements(a) == Elements(b)
    requires Ordered(store, a) && Ordered(store, b)
    ensures a == b
    decreases |a|
  {
    EmptyElements(a);
    EmptyElements(b);
    if a != [] {
      assert a[0] in Elements(a) && b[0] in Elements(b);
      HeadIsFirst(store, a, b[0]);
      HeadIsFirst(store, b, a[0]);
      TailElements(store, a);
      TailElements(store, b);
      BatchUnique(store, a[1..], b[1..]);
    }
  }

  lemma EmptyElements(s: seq<Ptr>)
    ensures Elements(s) == {} <==> s == []
  {
    if s != [] {
      assert s[0] in Elements(s);
    }
  }

  lemma HeadIsFirst(store: Store, s: seq<Ptr>, p: Ptr)
    requires Known(store, Elements(s)) && Ordered(store, s) && p in Elements(s)
    ensures p == s[0] || Before(store, s[0], p)
  {
    var i :| 0 <= i < |s| && s[i] == p;
    assert s[0] in Elements(s);
  }

  lemma TailElements(store: Store, a: seq<Ptr>)
    requires a != [] && Known(store, Elements(a)) && Ordered(store, a)
    ensures Elements(a[1..]) == Elements(a) - {a[0]}
  {
    forall i | 0 < i < |a| ensures a[i] != a[0] {
      assert Before(store, a[0], a[i]);
    }
    forall p | p in Elements(a) && p != a[0] ensures p in a[1..] {
      var i :| 0 <= i < |a| && a[i] == p;
      assert a[1..][i - 1] == p;
    }
  }
}
