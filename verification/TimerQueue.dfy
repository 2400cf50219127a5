/**
 * `TimerQueue` of mymuduo/TimerQueue.cpp: an ordered list of entries beside a set of active
 * timers, kept in agreement by every method, refining the state machine of `Timers`.
 */
module TimerQueues {
  import opened Bytes
  import opened Timers

  /** `std::pair<Timestamp, TimerPtr>`. */
  datatype Entry = Entry(when: Time, p: Ptr)

  predicate Less(a: Entry, b: Entry) {
    a.when < b.when || (a.when == b.when && a.p < b.p)
  }

  predicate Sorted(es: seq<Entry>) {
    forall i, j :: 0 <= i < j < |es| ==> Less(es[i], es[j])
  }

  ghost function Members(es: seq<Entry>): set<Entry> {
    set e | e in es
  }

  /** `std::pair<TimerPtr, int64_t>`. */
  datatype ActiveTimer = ActiveTimer(p: Ptr, sequence: int)

  ghost function Ptrs(ts: set<ActiveTimer>): set<Ptr> {
    set t | t in ts :: t.p
  }

  /** The entries a set of timers should have. */
  ghost function Entries(store: Store, ps: set<Ptr>): set<Entry>
    requires Known(store, ps)
  {
    set p | p in ps :: Entry(store[p].expiration, p)
  }

  // ------------------------------------------------------------------ the ordered set

  /** `std::set::insert`: goes before the first entry that is not less. */
  method SetInsert(es: seq<Entry>, e: Entry) returns (r: seq<Entry>)
    requires Sorted(es) && e !in es
    ensures Sorted(r) && Members(r) == Members(es) + {e}
  {
    var k := 0;
    while k < |es| && Less(es[k], e)
      invariant k <= |es|
      invariant forall i :: 0 <= i < k ==> Less(es[i], e)
    {
      k := k + 1;
    }
    r := es[..k] + [e] + es[k..];
    assert forall i :: k <= i < |es| ==> Less(e, es[i]);
    assert es == es[..k] + es[k..];
    assert forall x :: x in r <==> x in es[..k] || x == e || x in es[k..];
    assert forall x :: x in es <==> x in es[..k] || x in es[k..];
  }

  method SetErase(es: seq<Entry>, e: Entry) returns (r: seq<Entry>)
    requires Sorted(es)
    ensures Sorted(r) && Members(r) == Members(es) - {e}
  {
    var k := 0;
    while k < |es| && es[k] != e
      invariant k <= |es|
      invariant forall i :: 0 <= i < k ==> es[i] != e
    {
      k := k + 1;
    }
    if k == |es| {
      return es;
    }
    r := es[..k] + es[k + 1..];
    assert es == es[..k] + [e] + es[k + 1..];
    assert forall i :: k < i < |es| ==> es[i] != e;
    assert forall x :: x in r <==> x in es[..k] || x in es[k + 1..];
    assert forall x :: x in es <==> x in es[..k] || x == e || x in es[k + 1..];
  }

  /** `upper_bound` of `(now, nullptr)`: with no null entries this is the first entry not before `now`. */
  method UpperBound(es: seq<Entry>, now: Time) returns (k: nat)
    requires Sorted(es) && forall e :: e in es ==> e.p != 0
    ensures k <= |es|
    ensures forall i :: 0 <= i < k ==> es[i].when < now
    ensures forall i :: k <= i < |es| ==> es[i].when >= now
  {
    var sentry := Entry(now, 0);
    k := 0;
    while k < |es| && !Less(sentry, es[k])
      invariant k <= |es|
      invariant forall i :: 0 <= i < k ==> es[i].when < now
    {
      k := k + 1;
    }
    assert forall i :: k < i < |es| ==> Less(es[k], es[i]);
  }

  /** Seconds and nanoseconds until `when`, at least 100 microseconds. */
  method HowMuchTimeFromNow(when: Time, clock: Time) returns (sec: int, nsec: int)
    ensures 0 <= nsec < 1_000_000_000 && sec >= 0
    ensures clock * 1000 + sec * 1_000_000_000 + nsec == Arm(when, clock).deadline * 1000
  {
    var microseconds := when - clock;
    if microseconds < 100 {
      microseconds := 100;
    }
    sec := microseconds / 1_000_000;
    nsec := microseconds % 1_000_000 * 1000;
  }

  /** The listing of a batch. */
  function Timed(es: seq<Entry>): (ps: seq<Ptr>)
    ensures |ps| == |es| && forall i :: 0 <= i < |es| ==> ps[i] == es[i].p
  {
    seq(|es|, i requires 0 <= i < |es| => es[i].p)
  }

  lemma EntryOf(store: Store, ps: set<Ptr>, es: seq<Entry>, i: nat)
    requires Known(store, ps) && Members(es) == Entries(store, ps) && i < |es|
    ensures es[i].p in ps && es[i] == Entry(store[es[i].p].expiration, es[i].p)
  {
    assert es[i] in Members(es);
  }

  /** The part of the list before `now` is the plain filter, in order; the rest are the others' entries. */
  lemma SplitDue(store: Store, ps: set<Ptr>, es: seq<Entry>, k: nat, now: Time)
    requires Known(store, ps) && Sorted(es) && Members(es) == Entries(store, ps) && k <= |es|
    requires forall i :: 0 <= i < k ==> es[i].when < now
    requires forall i :: k <= i < |es| ==> es[i].when >= now
    ensures Elements(Timed(es[..k])) == Due(store, ps, now)
    ensures Ordered(store, Timed(es[..k]))
    ensures Sorted(es[k..]) && Members(es[k..]) == Entries(store, ps - Due(store, ps, now))
  {
    var batch := Timed(es[..k]);
    forall p ensures p in Elements(batch) <==> p in Due(store, ps, now) {
      if p in Elements(batch) {
        var i :| 0 <= i < k && batch[i] == p;
        EntryOf(store, ps, es, i);
      }
      if p in Due(store, ps, now) {
        var i := IndexOf(store, ps, es, p);
        assert batch[i] == p;
      }
    }
    forall i | 0 <= i < k ensures batch[i] in store && store[batch[i]].expiration == es[i].when {
      EntryOf(store, ps, es, i);
    }
    forall i, j | 0 <= i < j < k ensures Before(store, batch[i], batch[j]) {
      assert Less(es[i], es[j]);
    }
    RestMembers(store, ps, es, k, now);
  }

  lemma RestMembers(store: Store, ps: set<Ptr>, es: seq<Entry>, k: nat, now: Time)
    requires Known(store, ps) && Sorted(es) && Members(es) == Entries(store, ps) && k <= |es|
    requires forall i :: 0 <= i < k ==> es[i].when < now
    requires forall i :: k <= i < |es| ==> es[i].when >= now
    ensures Members(es[k..]) == Entries(store, ps - Due(store, ps, now))
  {
    forall e ensures e in Members(es[k..]) <==> e in Entries(store, ps - Due(store, ps, now)) {
      if e in Members(es[k..]) {
        var i :| k <= i < |es| && es[i] == e;
        EntryOf(store, ps, es, i);
      }
      if e in Entries(store, ps - Due(store, ps, now)) {
        var i := IndexOf(store, ps, es, e.p);
        assert es[k..][i - k] == e;
      }
    }
  }

  lemma IndexOf(store: Store, ps: set<Ptr>, es: seq<Entry>, p: Ptr) returns (i: nat)
    requires Known(store, ps) && Members(es) == Entries(store, ps) && p in ps
    ensures i < |es| && es[i] == Entry(store[p].expiration, p)
  {
    assert Entry(store[p].expiration, p) in Members(es);
    i :| 0 <= i < |es| && es[i] == Entry(store[p].expiration, p);
  }

  /** What a callback may do to the queue, with the ids that `addTimer` gave out. */
  datatype Request =
    | AddRequest(p: Ptr, timer: Timer, clock: Time)
    | CancelRequest(p: Ptr, sequence: int)
  {
    ghost predicate Authentic(sequenceOf: Ptr -> int) {
      match this
      case AddRequest(p, timer, _) => timer.sequence == sequenceOf(p)
      case CancelRequest(p, sequence) => sequence == sequenceOf(p)
    }

    ghost function Action(): Timers.Action {
      match this
      case AddRequest(p, timer, clock) => Add(p, timer, clock)
      case CancelRequest(p, _) => Cancel(p)
    }
  }

  /** Every timer added is a new object: its address is not null and not in use. */
  ghost predicate Allocates(used: set<Ptr>, requests: seq<Request>)
    decreases |requests|
  {
    requests == [] ||
    match requests[0]
    case AddRequest(p, _, _) => p != 0 && p !in used && Allocates(used + {p}, requests[1..])
    case CancelRequest(_, _) => Allocates(used, requests[1..])
  }

  ghost function Actions(requests: seq<Request>): (actions: seq<Action>) {
    seq(|requests|, i requires 0 <= i < |requests| => requests[i].Action())
  }

  /** What the `i`-th callback of a batch asks for. */
  function CallbackAt(callbacks: seq<seq<Request>>, i: nat): seq<Request> {
    if i < |callbacks| then callbacks[i] else []
  }

  /** The first `n` callbacks of a batch, each followed by what it asks for. */
  ghost function Interleaved(callbacks: seq<seq<Request>>, n: nat): seq<Action> {
    if n == 0 then []
    else Interleaved(callbacks, n - 1) + [Timers.RunNext] + Actions(CallbackAt(callbacks, n - 1))
  }

  /** The requests of the callbacks from the `i`-th on. */
  ghost function From(callbacks: seq<seq<Request>>, i: nat): seq<Request> {
    if i < |callbacks| then Flatten(callbacks[i..]) else []
  }

  lemma FromNext(callbacks: seq<seq<Request>>, i: nat)
    ensures From(callbacks, i) == CallbackAt(callbacks, i) + From(callbacks, i + 1)
  {
    if i < |callbacks| {
      assert callbacks[i..][1..] == callbacks[i + 1..];
    }
  }

  /** A batch's entries in the log. */
  ghost function Entered(store: Store, batch: seq<Ptr>, number: nat, now: Time): (entries: seq<Ran>)
    requires Known(store, Elements(batch))
    ensures |entries| == |batch|
  {
    seq(|batch|, i requires 0 <= i < |batch| =>
      assert batch[i] in Elements(batch); Ran(batch[i], number, now, store[batch[i]].expiration))
  }

  lemma EnteredNext(store: Store, batch: seq<Ptr>, number: nat, now: Time, i: nat)
    requires Known(store, Elements(batch)) && i < |batch|
    ensures var entries := Entered(store, batch, number, now);
            && batch[i] in store
            && entries[..i + 1] == entries[..i] + [Ran(batch[i], number, now, store[batch[i]].expiration)]
  {
    assert batch[i] in Elements(batch);
  }

  /** Nothing in the store is replaced. */
  ghost predicate Extends(store: Store, before: Store) {
    forall p :: p in before ==> p in store && store[p] == before[p]
  }

  class TimerQueue {
    ghost const sequenceOf: Ptr -> int // a Timer's sequence number never changes
    var store: Store                   // the Timer objects
    var timers: seq<Entry>
    var activeTimers: set<ActiveTimer>
    var cancelingTimers: set<ActiveTimer>
    var callingExpiredTimers: bool
    var timerfd: Option<Arming>
    ghost var phase: Phase
    ghost var finished: set<Ptr>
    ghost var cancelled: set<Ptr>
    ghost var batches: nat
    ghost var log: seq<Ran>

    /** The two ordered sets describe the same timers, each entry under its timer's current expiration. */
    ghost predicate Agree()
      reads `store, `timers, `activeTimers, `cancelingTimers
    {
      && Known(store, Ptrs(activeTimers))
      && Sorted(timers)
      && Members(timers) == Entries(store, Ptrs(activeTimers))
      && Numbered()
    }

    ghost predicate Numbered()
      reads `store, `activeTimers, `cancelingTimers
    {
      && (forall t :: t in activeTimers ==> t.sequence == sequenceOf(t.p))
      && (forall t :: t in cancelingTimers ==> t.sequence == sequenceOf(t.p))
      && (forall p :: p in store ==> p != 0 && store[p].sequence == sequenceOf(p))
    }

    ghost function View(): Timers.State
      reads this
    {
      Timers.State(store, Ptrs(activeTimers), phase, Ptrs(cancelingTimers), timerfd, finished, cancelled, batches, log)
    }

    ghost predicate Valid()
      reads this
    {
      Agree() && Inv(View()) && callingExpiredTimers == phase.Running?
    }

    constructor (ghost sequenceOf: Ptr -> int)
      ensures Valid() && View() == Timers.START && this.sequenceOf == sequenceOf
    {
      this.sequenceOf := sequenceOf;
      store, timers, activeTimers, cancelingTimers := map[], [], {}, {};
      callingExpiredTimers, timerfd, phase := false, None, Idle;
      finished, cancelled, batches, log := {}, {}, 0, [];
    }

    method Insert(p: Ptr) returns (earliestChanged: bool)
      requires Agree() && p in store && p !in Ptrs(activeTimers)
      modifies this`timers, this`activeTimers
      ensures Agree() && Ptrs(activeTimers) == old(Ptrs(activeTimers)) + {p}
      ensures earliestChanged == EarliestChanged(store, old(Ptrs(activeTimers)), store[p].expiration)
    {
      var e := Entry(store[p].expiration, p);
      earliestChanged := timers == [] || e.when < timers[0].when;
      ghost var was := Ptrs(activeTimers);
      HeadDecides(e.when);
      assert e !in Entries(store, was);
      timers := SetInsert(timers, e);
      activeTimers := activeTimers + {ActiveTimer(p, store[p].sequence)};
      assert Ptrs(activeTimers) == was + {p};
      assert Entries(store, was + {p}) == Entries(store, was) + {e};
    }

    /** The first entry carries the earliest expiration. */
    lemma HeadDecides(when: Time)
      requires Agree()
      ensures timers == [] <==> Ptrs(activeTimers) == {}
      ensures timers != [] ==> IsEarliest(store, Ptrs(activeTimers), timers[0].when)
      ensures (timers == [] || when < timers[0].when) <==> EarliestChanged(store, Ptrs(activeTimers), when)
    {
      forall p | p in Ptrs(activeTimers) ensures timers != [] && timers[0].when <= store[p].expiration {
        var e := Entry(store[p].expiration, p);
        assert e in Members(timers);
        var i :| 0 <= i < |timers| && timers[i] == e;
        assert i > 0 ==> Less(timers[0], timers[i]);
      }
      if timers != [] {
        assert timers[0] in Entries(store, Ptrs(activeTimers));
      }
    }

    method ResetTimerfd(expiration: Time, clock: Time)
      modifies this`timerfd
      ensures timerfd == Some(Arm(expiration, clock))
    {
      var sec, nsec := HowMuchTimeFromNow(expiration, clock);
      timerfd := Some(Arming(clock + sec * 1_000_000 + nsec / 1000, clock));
    }

    method AddTimerInLoop(p: Ptr, timer: Timer, clock: Time)
      requires Valid() && p != 0 && p !in store && timer.sequence == sequenceOf(p)
      modifies this
      ensures Valid() && Enabled(old(View()), Add(p, timer, clock))
      ensures View() == Do(old(View()), Add(p, timer, clock))
    {
      hide Accounted, Covered, Rated;
      DoKeepsInv(View(), Add(p, timer, clock));
      ghost var was, before := Ptrs(activeTimers), store;
      store := store[p := timer];
      assert Entries(store, was) == Entries(before, was);
      var earliestChanged := Insert(p);
      assert EarliestChanged(store, was, timer.expiration) == EarliestChanged(before, was, timer.expiration);
      if earliestChanged {
        ResetTimerfd(timer.expiration, clock);
      }
    }

    method CancelInLoop(p: Ptr, sequence: int)
      requires Valid() && sequence == sequenceOf(p)
      modifies this
      ensures Valid() && View() == Do(old(View()), Cancel(p))
    {
      hide Accounted, Covered, Rated;
      DoKeepsInv(View(), Cancel(p));
      var timer := ActiveTimer(p, sequence);
      assert timer in activeTimers <==> p in Ptrs(activeTimers);
      if timer in activeTimers {
        EraseActive(timer);
        cancelled := cancelled + {p};
      } else if callingExpiredTimers {
        ghost var was := cancelingTimers;
        cancelingTimers := cancelingTimers + {timer};
        assert Ptrs(cancelingTimers) == Ptrs(was) + {p};
      }
    }

    method EraseActive(timer: ActiveTimer)
      requires Agree() && timer in activeTimers
      modifies this`timers, this`activeTimers
      ensures Agree() && Ptrs(activeTimers) == old(Ptrs(activeTimers)) - {timer.p}
    {
      ghost var was := Ptrs(activeTimers);
      var e := Entry(store[timer.p].expiration, timer.p);
      timers := SetErase(timers, e);
      activeTimers := activeTimers - {timer};
      assert Ptrs(activeTimers) == was - {timer.p};
      assert Entries(store, was - {timer.p}) == Entries(store, was) - {e};
    }

    /** Takes everything due strictly before `now` out of both sets, and returns it in order. */
    method GetExpired(now: Time) returns (expired: seq<Entry>)
      requires Agree()
      modifies this`timers, this`activeTimers
      ensures Agree()
      ensures Elements(Timed(expired)) == Due(store, old(Ptrs(activeTimers)), now)
      ensures Ordered(store, Timed(expired))
      ensures Ptrs(activeTimers) == old(Ptrs(activeTimers)) - Elements(Timed(expired))
    {
      ghost var was := Ptrs(activeTimers);
      forall e | e in timers ensures e.p != 0 {
        assert e in Members(timers);
      }
      var end := UpperBound(timers, now);
      SplitDue(store, was, timers, end, now);
      expired := timers[..end];
      ghost var batch := Timed(expired);
      timers := timers[end..];
      for i := 0 to |expired|
        invariant Numbered() && Ptrs(activeTimers) == was - Elements(batch[..i])
        modifies this`activeTimers
      {
        assert batch[i] in Elements(batch);
        var p := expired[i].p;
        ghost var left := activeTimers;
        activeTimers := activeTimers - {ActiveTimer(p, store[p].sequence)};
        Removed(left, p);
        assert Elements(batch[..i + 1]) == Elements(batch[..i]) + {p};
      }
      assert batch[..|expired|] == batch;
    }

    lemma Removed(ts: set<ActiveTimer>, p: Ptr)
      requires forall t :: t in ts ==> t.sequence == sequenceOf(t.p)
      ensures Ptrs(ts - {ActiveTimer(p, sequenceOf(p))}) == Ptrs(ts) - {p}
    {
    }

    /** The first half of `handleRead`: the timerfd is read and the batch is taken. */
    method BeginBatch(now: Time) returns (expired: seq<Entry>)
      requires Valid() && phase.Idle? && now > 0
      modifies this
      ensures Valid() && Enabled(old(View()), Fire(now, Timed(expired)))
      ensures View() == Do(old(View()), Fire(now, Timed(expired)))
    {
      hide Accounted, Covered, Rated;
      ghost var s := View();
      expired := TakeBatch(now);
      DoKeepsInv(s, Fire(now, Timed(expired)));
    }

    method TakeBatch(now: Time) returns (expired: seq<Entry>)
      requires Agree()
      modifies this`timerfd, this`timers, this`activeTimers, this`cancelingTimers, this`callingExpiredTimers, this`phase
      ensures Agree() && callingExpiredTimers
      ensures Elements(Timed(expired)) == Due(store, old(Ptrs(activeTimers)), now) && Ordered(store, Timed(expired))
      ensures View() == old(View()).(active := old(Ptrs(activeTimers)) - Elements(Timed(expired)),
                                     phase := Running(Timed(expired), 0, now), canceling := {}, armed := None)
    {
      timerfd := None;
      expired := GetExpired(now);
      callingExpiredTimers := true;
      cancelingTimers := {};
      phase := Running(Timed(expired), 0, now);
    }

    /** One callback. */
    method RunNext(p: Ptr)
      requires Valid() && phase.Running? && phase.done < |phase.batch| && p == phase.batch[phase.done]
      modifies this`phase, this`log
      ensures Valid() && Enabled(old(View()), Timers.RunNext) && View() == Do(old(View()), Timers.RunNext)
    {
      hide Accounted, Covered, Rated;
      DoKeepsInv(View(), Timers.RunNext);
      log := log + [Ran(p, batches, phase.now, store[p].expiration)];
      phase := phase.(done := phase.done + 1);
    }

    /** What the store looks like when the first `i` of the batch have been dealt with. */
    ghost function AgainSoFar(s: Timers.State, i: nat): set<Ptr>
      requires Formed(s) && s.phase.Running? && i <= |s.phase.batch|
    {
      set p | p in s.phase.batch[..i] && s.store[p].Repeats() && p !in s.canceling
    }

    ghost function StoreSoFar(s: Timers.State, i: nat): Store
      requires Formed(s) && s.phase.Running? && i <= |s.phase.batch|
    {
      map p | p in s.store :: if p in AgainSoFar(s, i) then s.store[p].Restarted(s.phase.now) else s.store[p]
    }

    lemma SoFarStep(s: Timers.State, i: nat)
      requires Formed(s) && s.phase.Running? && i < |s.phase.batch|
      ensures var p := s.phase.batch[i];
              p in s.store &&
              AgainSoFar(s, i + 1) == AgainSoFar(s, i) + (if s.store[p].Repeats() && p !in s.canceling then {p} else {})
    {
      var p := s.phase.batch[i];
      assert p in InBatch(s);
      assert s.phase.batch[..i + 1] == s.phase.batch[..i] + [p];
    }

    /** Puts the uncancelled repeating timers of the batch back and arms the timerfd for the new head. */
    method Reset(expired: seq<Entry>, now: Time, clock: Time) returns (ghost next: Time)
      requires Agree() && Formed(View()) && BatchApart(View())
      requires phase.Running? && phase.batch == Timed(expired) && phase.now == now
      modifies this`store, this`timers, this`activeTimers, this`timerfd
      ensures Agree() && store == RestartedStore(old(View()))
      ensures Ptrs(activeTimers) == old(Ptrs(activeTimers)) + Again(old(View()))
      ensures phase.done == |phase.batch| ==> Enabled(old(View()), Finish(next, clock))
      ensures timerfd == if Ptrs(activeTimers) != {} && next > 0 then Some(Arm(next, clock)) else old(timerfd)
    {
      ghost var s := View();
      for i := 0 to |expired|
        invariant Agree() && store == StoreSoFar(s, i)
        invariant Ptrs(activeTimers) == s.active + AgainSoFar(s, i)
        modifies this`store, this`timers, this`activeTimers
      {
        PutBack(s, i, expired[i].p, now);
      }
      assert s.phase.batch[..|expired|] == s.phase.batch;
      HeadDecides(0);
      var nextExpire := 0;
      next := 0;
      if timers != [] {
        assert timers[0] in Members(timers);
        nextExpire := store[timers[0].p].expiration;
        next := nextExpire;
      }
      if nextExpire > 0 {
        ResetTimerfd(nextExpire, clock);
      }
    }

    method PutBack(ghost s: Timers.State, ghost i: nat, p: Ptr, now: Time)
      requires Formed(s) && BatchApart(s) && s.phase.Running? && i < |s.phase.batch|
      requires p == s.phase.batch[i] && now == s.phase.now
      requires Agree() && store == StoreSoFar(s, i) && Ptrs(cancelingTimers) == s.canceling
      requires Ptrs(activeTimers) == s.active + AgainSoFar(s, i)
      modifies this`store, this`timers, this`activeTimers
      ensures Agree() && store == StoreSoFar(s, i + 1)
      ensures Ptrs(activeTimers) == s.active + AgainSoFar(s, i + 1)
    {
      SoFarStep(s, i);
      ghost var was, before := Ptrs(activeTimers), store;
      assert p in InBatch(s) && p !in was;
      assert store[p] == s.store[p];
      var timer := ActiveTimer(p, store[p].sequence);
      assert timer in cancelingTimers <==> p in Ptrs(cancelingTimers);
      if store[p].Repeats() && timer !in cancelingTimers {
        store := store[p := store[p].Restarted(now)];
        assert Entries(store, was) == Entries(before, was);
        var _ := Insert(p);
      }
    }

    /** The second half of `handleRead`. */
    method EndBatch(expired: seq<Entry>, now: Time, clock: Time) returns (ghost next: Time)
      requires Valid() && phase.Running? && phase.done == |phase.batch|
      requires phase.batch == Timed(expired) && phase.now == now
      modifies this
      ensures Valid() && Enabled(old(View()), Finish(next, clock))
      ensures View() == Do(old(View()), Finish(next, clock))
    {
      hide Covered, Rated;
      ghost var s := View();
      next := CloseBatch(expired, now, clock);
      DoKeepsInv(s, Finish(next, clock));
    }

    method CloseBatch(expired: seq<Entry>, now: Time, clock: Time) returns (ghost next: Time)
      requires Agree() && Formed(View()) && BatchApart(View())
      requires phase.Running? && phase.done == |phase.batch| && phase.batch == Timed(expired) && phase.now == now
      modifies this
      ensures Agree() && !callingExpiredTimers
      ensures Enabled(old(View()), Finish(next, clock)) && View() == Do(old(View()), Finish(next, clock))
    {
      hide Agree, BatchApart, Again, RestartedStore;
      ghost var s := View();
      callingExpiredTimers := false;
      next := Reset(expired, now, clock);
      ghost var after := Do(s, Finish(next, clock));
      finished, cancelled, batches, phase := after.finished, after.cancelled, after.batches, Idle;
    }

    /** One thing a callback asks of the queue. */
    method Perform(r: Request, ghost later: seq<Request>, ghost s: Timers.State, ghost run: seq<Action>)
      requires Valid() && r.Authentic(sequenceOf) && Allocates(store.Keys, [r] + later)
      requires Behaviour(s, run) && Reach(s, run) == View()
      modifies this
      ensures Valid() && Allocates(store.Keys, later)
      ensures Behaviour(s, run + [r.Action()]) && Reach(s, run + [r.Action()]) == View()
      ensures phase == old(phase) && log == old(log) && batches == old(batches) && Extends(store, old(store))
    {
      hide Agree, Accounted, Covered, Rated;
      assert ([r] + later)[1..] == later;
      match r {
        case AddRequest(p, timer, clock) =>
          AddTimerInLoop(p, timer, clock);
          assert store.Keys == old(store.Keys) + {p};
        case CancelRequest(p, sequence) =>
          CancelInLoop(p, sequence);
      }
      ReachSnoc(s, run, r.Action());
    }

    method Callback(requests: seq<Request>, ghost later: seq<Request>, ghost s: Timers.State, ghost run: seq<Action>)
      requires Valid() && forall r :: r in requests ==> r.Authentic(sequenceOf)
      requires Allocates(store.Keys, requests + later)
      requires Behaviour(s, run) && Reach(s, run) == View()
      modifies this
      ensures Valid() && Allocates(store.Keys, later)
      ensures Behaviour(s, run + Actions(requests)) && Reach(s, run + Actions(requests)) == View()
      ensures phase == old(phase) && log == old(log) && batches == old(batches) && Extends(store, old(store))
    {
      hide Agree, Inv, Allocates, Behaviour, Reach;
      assert run + Actions([]) == run && requests[0..] == requests;
      assert requests[..0] == [];
      for i := 0 to |requests|
        invariant Valid() && Allocates(store.Keys, requests[i..] + later)
        invariant Behaviour(s, run + Actions(requests[..i])) && Reach(s, run + Actions(requests[..i])) == View()
        invariant phase == old(phase) && log == old(log) && batches == old(batches) && Extends(store, old(store))
      {
        assert requests[i..] + later == [requests[i]] + (requests[i + 1..] + later);
        assert run + Actions(requests[..i + 1]) == run + Actions(requests[..i]) + [requests[i].Action()];
        Perform(requests[i], requests[i + 1..] + later, s, run + Actions(requests[..i]));
      }
      assert requests[|requests|..] + later == later && requests[..|requests|] == requests;
    }

    /** The `i`-th callback and everything it asks for. */
    method RunCallback(p: Ptr, requests: seq<Request>, ghost later: seq<Request>,
                       ghost s: Timers.State, ghost run: seq<Action>)
      requires Valid() && phase.Running? && phase.done < |phase.batch| && p == phase.batch[phase.done] && p in store
      requires forall r :: r in requests ==> r.Authentic(sequenceOf)
      requires Allocates(store.Keys, requests + later)
      requires Behaviour(s, run) && Reach(s, run) == View()
      modifies this
      ensures Valid() && Allocates(store.Keys, later)
      ensures Behaviour(s, run + [Timers.RunNext] + Actions(requests))
      ensures Reach(s, run + [Timers.RunNext] + Actions(requests)) == View()
      ensures phase == old(phase).(done := old(phase).done + 1)
      ensures log == old(log) + [Ran(p, old(batches), phase.now, old(store)[p].expiration)]
      ensures batches == old(batches) && Extends(store, old(store))
    {
      hide Agree, Inv, Allocates, Behaviour, Reach;
      RunNext(p);
      ReachSnoc(s, run, Timers.RunNext);
      Callback(requests, later, s, run + [Timers.RunNext]);
    }

    /** The loop over the batch. */
    method RunBatch(expired: seq<Entry>, now: Time, callbacks: seq<seq<Request>>, ghost s: Timers.State,
                    ghost run: seq<Action>)
      requires Valid() && phase == Running(Timed(expired), 0, now) && Known(store, Elements(Timed(expired)))
      requires forall c, r :: c in callbacks && r in c ==> r.Authentic(sequenceOf)
      requires Allocates(store.Keys, From(callbacks, 0))
      requires Behaviour(s, run) && Reach(s, run) == View()
      modifies this
      ensures Valid() && phase == Running(Timed(expired), |expired|, now) && batches == old(batches)
      ensures log == old(log) + Entered(old(store), Timed(expired), old(batches), now)
      ensures Behaviour(s, run + Interleaved(callbacks, |expired|))
      ensures Reach(s, run + Interleaved(callbacks, |expired|)) == View()
    {
      hide TimerQueue.Valid, Allocates, Behaviour, Reach, Interleaved, Actions, Entered, From;
      ghost var batch, done := Timed(expired), run;
      ghost var entries := Entered(store, batch, batches, now);
      InterleavedNext(callbacks, 0);
      for i := 0 to |expired|
        invariant Valid() && phase == Running(batch, i, now)
        invariant batches == old(batches) && Extends(store, old(store))
        invariant Allocates(store.Keys, From(callbacks, i))
        invariant |entries| == |batch| && log == old(log) + entries[..i]
        invariant done == run + Interleaved(callbacks, i)
        invariant Behaviour(s, done) && Reach(s, done) == View()
      {
        FromNext(callbacks, i);
        InterleavedNext(callbacks, i);
        EnteredNext(old(store), batch, batches, now, i);
        RunCallback(expired[i].p, CallbackAt(callbacks, i), From(callbacks, i + 1), s, done);
        done := done + [Timers.RunNext] + Actions(CallbackAt(callbacks, i));
      }
    }

    /**
     * A whole `handleRead`, whatever the callbacks add and cancel: the due timers run in
     * order, each followed by its requests, and the machine goes through exactly those steps.
     */
    method HandleRead(now: Time, clock: Time, callbacks: seq<seq<Request>>)
      returns (ghost batch: seq<Ptr>, ghost next: Time)
      requires Valid() && phase.Idle? && now > 0
      requires forall c, r :: c in callbacks && r in c ==> r.Authentic(sequenceOf)
      requires Allocates(store.Keys, From(callbacks, 0))
      modifies this
      ensures Valid() && phase.Idle? && batches == old(batches) + 1
      ensures Enabled(old(View()), Fire(now, batch))
      ensures log == old(log) + Entered(old(store), batch, old(batches), now)
      ensures var run := [Fire(now, batch)] + Interleaved(callbacks, |batch|) + [Finish(next, clock)];
              Behaviour(old(View()), run) && View() == Reach(old(View()), run)
    {
      hide TimerQueue.Valid, Allocates, Behaviour, Reach, Interleaved, Ordered, RestartedStore, Again;
      ghost var s := View();
      NoSteps(s);
      var expired := BeginBatch(now);
      batch := Timed(expired);
      ReachSnoc(s, [], Fire(now, batch));
      ghost var run := [Fire(now, batch)];
      assert [] + run == run;
      RunBatch(expired, now, callbacks, s, run);
      run := run + Interleaved(callbacks, |batch|);
      next := EndBatch(expired, now, clock);
      ReachSnoc(s, run, Finish(next, clock));
    }
  }

  lemma NoSteps(s: Timers.State)
    ensures Behaviour(s, []) && Reach(s, []) == s
  {
  }

  lemma InterleavedNext(callbacks: seq<seq<Request>>, i: nat)
    ensures Interleaved(callbacks, 0) == []
    ensures Interleaved(callbacks, i + 1) ==
            Interleaved(callbacks, i) + [Timers.RunNext] + Actions(CallbackAt(callbacks, i))
  {
  }
}
