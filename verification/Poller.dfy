/** The kernel interest set as `epoll_ctl` maintains it, and the plan `updateChannel` follows. */
module Epoll {
  import opened Bytes

  type Fd = int

  /** An event mask, bit by bit. */
  datatype Events = Events(pollin: bool, pri: bool, out: bool, err: bool, hup: bool)

  const NONE_EVENT := Events(false, false, false, false, false)
  const EPOLLIN := NONE_EVENT.(pollin := true)
  const EPOLLPRI := NONE_EVENT.(pri := true)
  const EPOLLOUT := NONE_EVENT.(out := true)
  const EPOLLERR := NONE_EVENT.(err := true)
  const EPOLLHUP := NONE_EVENT.(hup := true)
  const READ_EVENT := With(EPOLLIN, EPOLLPRI)
  const WRITE_EVENT := EPOLLOUT

  /** `a | b`, `a & ~b` and `a & b != 0`. */
  function With(a: Events, b: Events): Events {
    Events(a.pollin || b.pollin, a.pri || b.pri, a.out || b.out, a.err || b.err, a.hup || b.hup)
  }

  function Without(a: Events, b: Events): Events {
    Events(a.pollin && !b.pollin, a.pri && !b.pri, a.out && !b.out, a.err && !b.err, a.hup && !b.hup)
  }

  predicate Wants(a: Events, b: Events) {
    (a.pollin && b.pollin) || (a.pri && b.pri) || (a.out && b.out) || (a.err && b.err) || (a.hup && b.hup)
  }

  /** What the kernel holds for a descriptor: the mask and the pointer given with it. */
  datatype Interest<C> = Interest(events: Events, owner: C)
  type Kernel<C> = map<Fd, Interest<C>>

  datatype Operation = ADD | MOD | DEL
  datatype Ctl<C> = Ctl(op: Operation, fd: Fd, interest: Interest<C>)

  /** The kernel refuses to add a present descriptor and to modify or delete an absent one. */
  predicate Permitted<C>(k: Kernel<C>, c: Ctl<C>) {
    c.op == ADD <==> c.fd !in k
  }

  function Obey<C>(k: Kernel<C>, c: Ctl<C>): Kernel<C> {
    if c.op == DEL then k - {c.fd} else k[c.fd := c.interest]
  }

  /** The kernel set after a history of calls, or `None` if one of them was refused. */
  function Replay<C>(log: seq<Ctl<C>>): Option<Kernel<C>> {
    if log == [] then Some(map[])
    else
      match Replay(log[..|log| - 1])
      case None => None
      case Some(k) => if Permitted(k, log[|log| - 1]) then Some(Obey(k, log[|log| - 1])) else None
  }

  lemma ReplaySnoc<C>(log: seq<Ctl<C>>, c: Ctl<C>)
    requires Replay(log).Some? && Permitted(Replay(log).value, c)
    ensures Replay(log + [c]) == Some(Obey(Replay(log).value, c))
  {
    assert (log + [c])[..|log|] == log;
  }

  /** A channel's registration mark: kNew, kAdded or kDeleted. */
  datatype Index = New | Added | Deleted

  /** Which call an update issues, and the mark it leaves. */
  function UpdateOperation(index: Index, events: Events): Operation {
    if index != Added then ADD else if events == NONE_EVENT then DEL else MOD
  }

  function UpdatedIndex(index: Index, events: Events): Index {
    if index == Added && events == NONE_EVENT then Deleted else Added
  }
}

/** `Channel` of mymuduo/Channel.cpp and `EPollPoller` of mymuduo/EPollPoller.cpp. */
module Poller {
  import opened Bytes
  import opened Epoll

  class Channel {
    const poller: EPollPoller
    const fd: Fd
    var events: Events
    var index: Index

    constructor (poller: EPollPoller, fd: Fd)
      requires poller.Valid()
      modifies poller`all
      ensures this.poller == poller && this.fd == fd && events == NONE_EVENT && index == New
      ensures poller.Valid() && poller.all == old(poller.all) + {this}
      ensures !IsReading() && !IsWriting()
    {
      this.poller, this.fd, events, index := poller, fd, NONE_EVENT, New;
      new;
      poller.all := poller.all + {this};
    }

    predicate IsNoneEvent()
      reads this
    {
      events == NONE_EVENT
    }

    predicate IsWriting()
      reads this
    {
      Wants(events, WRITE_EVENT)
    }

    predicate IsReading()
      reads this
    {
      Wants(events, READ_EVENT)
    }

    /** This channel is known to its poller, and a first registration would not meet a registered descriptor. */
    ghost predicate Ready()
      reads this, poller
    {
      this in poller.all && (index == New ==> fd !in poller.channels)
    }

    method EnableReading()
      requires Ready() && poller.Valid()
      modifies this, poller
      ensures Ready() && poller.Valid() && poller.all == old(poller.all)
      ensures events == With(old(events), READ_EVENT) && index == UpdatedIndex(old(index), events)
      ensures IsReading() && IsWriting() == old(IsWriting()) && index == Added
    {
      events := With(events, READ_EVENT);
      poller.UpdateChannel(this);
    }

    method DisableReading()
      requires Ready() && poller.Valid()
      modifies this, poller
      ensures Ready() && poller.Valid() && poller.all == old(poller.all)
      ensures events == Without(old(events), READ_EVENT) && index == UpdatedIndex(old(index), events)
      ensures !IsReading() && IsWriting() == old(IsWriting())
    {
      events := Without(events, READ_EVENT);
      poller.UpdateChannel(this);
    }

    method EnableWriting()
      requires Ready() && poller.Valid()
      modifies this, poller
      ensures Ready() && poller.Valid() && poller.all == old(poller.all)
      ensures events == With(old(events), WRITE_EVENT) && index == UpdatedIndex(old(index), events)
      ensures IsWriting() && IsReading() == old(IsReading()) && index == Added
    {
      events := With(events, WRITE_EVENT);
      poller.UpdateChannel(this);
    }

    method DisableWriting()
      requires Ready() && poller.Valid()
      modifies this, poller
      ensures Ready() && poller.Valid() && poller.all == old(poller.all)
      ensures events == Without(old(events), WRITE_EVENT) && index == UpdatedIndex(old(index), events)
      ensures !IsWriting() && IsReading() == old(IsReading()) && (IsReading() ==> index == Added)
    {
      events := Without(events, WRITE_EVENT);
      poller.UpdateChannel(this);
    }

    method DisableAll()
      requires Ready() && poller.Valid()
      modifies this, poller
      ensures Ready() && poller.Valid() && poller.all == old(poller.all)
      ensures events == NONE_EVENT && index == UpdatedIndex(old(index), events)
      ensures !IsReading() && !IsWriting()
    {
      events := NONE_EVENT;
      poller.UpdateChannel(this);
    }

    method Remove()
      requires Ready() && poller.Valid()
      modifies this`index, poller
      ensures Ready() && poller.Valid() && poller.all == old(poller.all)
      ensures index == New && fd !in poller.kernel && fd !in poller.channels
    {
      poller.RemoveChannel(this);
    }
  }

  class EPollPoller {
    var channels: map<Fd, Channel>
    var kernel: Kernel<Channel>          // the kernel's side
    ghost var all: set<Channel>          // every channel constructed on this poller
    ghost var log: seq<Ctl<Channel>>     // every epoll_ctl call ever issued

    /** The map, the marks and the kernel set tell the same story about which channels exist. */
    ghost predicate Consistent()
      reads this, all
    {
      && (forall c :: c in all ==> c.poller == this)
      && (forall c :: c in all ==> (c.index != New <==> c.fd in channels && channels[c.fd] == c))
      && (forall c :: c in all ==> (c.index == Added <==> c.fd in kernel && kernel[c.fd].owner == c))
      && (forall fd :: fd in channels ==> channels[fd] in all && channels[fd].fd == fd)
      && (forall fd :: fd in kernel ==> kernel[fd].owner in all && kernel[fd].owner.fd == fd)
      && Replay(log) == Some(kernel)
    }

    /** The kernel has this channel's current mask, and a deleted channel wants nothing. */
    ghost predicate InStep(c: Channel)
      reads this, c
    {
      && (c.index == Added ==> c.fd in kernel && kernel[c.fd].events == c.events)
      && (c.index == Deleted ==> c.events == NONE_EVENT)
    }

    ghost predicate Valid()
      reads this, all
    {
      Consistent() && forall c :: c in all ==> InStep(c)
    }

    constructor ()
      ensures Valid() && all == {} && kernel == map[] && channels == map[]
    {
      channels, kernel, all, log := map[], map[], {}, [];
    }

    /** `epoll_ctl`: callers have to show that the kernel accepts the call. */
    method Update(op: Operation, channel: Channel)
      requires Replay(log) == Some(kernel)
      requires Permitted(kernel, Ctl(op, channel.fd, Interest(channel.events, channel)))
      modifies this`kernel, this`log
      ensures kernel == Obey(old(kernel), Ctl(op, channel.fd, Interest(channel.events, channel)))
      ensures log == old(log) + [Ctl(op, channel.fd, Interest(channel.events, channel))]
      ensures Replay(log) == Some(kernel)
    {
      var call := Ctl(op, channel.fd, Interest(channel.events, channel));
      ReplaySnoc(log, call);
      kernel, log := Obey(kernel, call), log + [call];
    }

    method UpdateChannel(channel: Channel)
      requires Consistent() && channel.Ready() && channel.poller == this
      requires forall c :: c in all && c != channel ==> InStep(c)
      modifies this`channels, this`kernel, this`log, channel`index
      ensures Valid() && channel.Ready()
      ensures channel.index == UpdatedIndex(old(channel.index), channel.events)
      ensures var op := UpdateOperation(old(channel.index), channel.events);
              log == old(log) + [Ctl(op, channel.fd, Interest(channel.events, channel))]
    {
      hide Replay;
      var index := channel.index;
      if index == New || index == Deleted {
        if index == New {
          channels := channels[channel.fd := channel];
        }
        channel.index := Added;
        Update(ADD, channel);
      } else {
        if channel.IsNoneEvent() {
          Update(DEL, channel);
          channel.index := Deleted;
        } else {
          Update(MOD, channel);
        }
      }
    }

    method RemoveChannel(channel: Channel)
      requires Valid() && channel.Ready() && channel.poller == this
      modifies this`channels, this`kernel, this`log, channel`index
      ensures Valid() && channel.index == New
      ensures channel.fd !in channels && channel.fd !in kernel
      ensures log == old(log) || log == old(log) + [Ctl(DEL, channel.fd, Interest(channel.events, channel))]
    {
      hide Replay;
      channels := channels - {channel.fd};
      if channel.index == Added {
        Update(DEL, channel);
      }
      channel.index := New;
    }
  }
}

/** Whole runs of channel operations on one poller, against a per-descriptor reference. */
module PollerRuns {
  import opened Epoll
  import opened Poller

  datatype Request = EnableReading | DisableReading | EnableWriting | DisableWriting | DisableAll | Remove
  datatype Op = Op(fd: Fd, request: Request)

  /** What one channel goes through, with no kernel and no other channels in sight. */
  datatype Mark = Mark(index: Index, events: Events)

  function Wanted(events: Events, request: Request): Events {
    match request
    case EnableReading => With(events, READ_EVENT)
    case DisableReading => Without(events, READ_EVENT)
    case EnableWriting => With(events, WRITE_EVENT)
    case DisableWriting => Without(events, WRITE_EVENT)
    case DisableAll => NONE_EVENT
    case Remove => events
  }

  function Act(m: Mark, request: Request): Mark {
    var events := Wanted(m.events, request);
    if request.Remove? then Mark(New, events) else Mark(UpdatedIndex(m.index, events), events)
  }

  function Marked(ops: seq<Op>, fd: Fd): Mark {
    if ops == [] then Mark(New, NONE_EVENT)
    else
      var before, last := Marked(ops[..|ops| - 1], fd), ops[|ops| - 1];
      if last.fd == fd then Act(before, last.request) else before
  }

  /** A deleted channel wants nothing, after any operations. */
  lemma {:induction false} DeletedWantsNothing(ops: seq<Op>, fd: Fd)
    ensures Marked(ops, fd).index == Deleted ==> Marked(ops, fd).events == NONE_EVENT
  {
    if ops != [] {
      DeletedWantsNothing(ops[..|ops| - 1], fd);
    }
  }

  /** Whether the last request about reading asked for it. */
  function Reads(ops: seq<Op>, fd: Fd): bool {
    if ops == [] then false
    else
      var before, last := Reads(ops[..|ops| - 1], fd), ops[|ops| - 1];
      if last.fd != fd then before
      else
        match last.request
        case EnableReading => true
        case DisableReading => false
        case DisableAll => false
        case _ => before
  }

  /** Whether the last request about writing asked for it. */
  function Writes(ops: seq<Op>, fd: Fd): bool {
    if ops == [] then false
    else
      var before, last := Writes(ops[..|ops| - 1], fd), ops[|ops| - 1];
      if last.fd != fd then before
      else
        match last.request
        case EnableWriting => true
        case DisableWriting => false
        case DisableAll => false
        case _ => before
  }

  /** Whether the channel's last request was other than a removal. */
  function InUse(ops: seq<Op>, fd: Fd): bool {
    if ops == [] then false
    else if ops[|ops| - 1].fd != fd then InUse(ops[..|ops| - 1], fd)
    else !ops[|ops| - 1].request.Remove?
  }

  /**
   * The mask is what the last requests said, urgent data going with reading; a channel in
   * use that wants something is watched, one out of use is not; and a channel that was
   * watched and is silenced leaves the kernel set.
   */
  lemma {:induction false} WatchedAsAsked(ops: seq<Op>, fd: Fd)
    ensures var m := Marked(ops, fd);
            && m.events == Events(Reads(ops, fd), Reads(ops, fd), Writes(ops, fd), false, false)
            && (m.index == New <==> !InUse(ops, fd))
            && (InUse(ops, fd) && (Reads(ops, fd) || Writes(ops, fd)) ==> m.index == Added)
    ensures ops != [] && ops[|ops| - 1].fd == fd && Marked(ops[..|ops| - 1], fd).index == Added ==>
              InUse(ops, fd) && !Reads(ops, fd) && !Writes(ops, fd) ==> Marked(ops, fd).index == Deleted
  {
    if ops != [] {
      WatchedAsAsked(ops[..|ops| - 1], fd);
    }
  }

  method Perform(c: Channel, request: Request)
    requires c.Ready() && c.poller.Valid()
    modifies c, c.poller
    ensures c.Ready() && c.poller.Valid() && c.poller.all == old(c.poller.all)
    ensures Mark(c.index, c.events) == Act(Mark(old(c.index), old(c.events)), request)
  {
    match request {
      case EnableReading => c.EnableReading();
      case DisableReading => c.DisableReading();
      case EnableWriting => c.EnableWriting();
      case DisableWriting => c.DisableWriting();
      case DisableAll => c.DisableAll();
      case Remove => c.Remove();
    }
  }

  /**
   * Every run on channels with distinct descriptors: no `epoll_ctl` call is refused (the
   * poller's own preconditions), and the kernel ends up with exactly the added channels and
   * their current masks.
   */
  method Drive(ops: seq<Op>) returns (kernel: map<Fd, Events>, registered: set<Fd>)
    ensures forall fd :: fd in kernel <==> Marked(ops, fd).index == Added
    ensures forall fd :: fd in kernel ==> kernel[fd] == Marked(ops, fd).events
    ensures forall fd :: fd in registered <==> Marked(ops, fd).index != New
  {
    var poller := new EPollPoller();
    var channels: map<Fd, Channel> := map[];
    for i := 0 to |ops|
      invariant poller.Valid() && fresh(poller)
      invariant forall fd :: fd in channels ==>
                  fresh(channels[fd]) && channels[fd].fd == fd && channels[fd] in poller.all
      invariant forall c :: c in poller.all ==> c.fd in channels && channels[c.fd] == c
      invariant forall fd :: Marked(ops[..i], fd) ==
                  if fd in channels then Mark(channels[fd].index, channels[fd].events) else Mark(New, NONE_EVENT)
    {
      var fd, request := ops[i].fd, ops[i].request;
      if fd !in channels {
        var c := new Channel(poller, fd);
        channels := channels[fd := c];
      }
      assert ops[..i + 1][..i] == ops[..i];
      var c := channels[fd];
      assert c.Ready();
      Perform(c, request);
    }
    assert ops[..|ops|] == ops;
    kernel := map fd | fd in poller.kernel :: poller.kernel[fd].events;
    registered := poller.channels.Keys;
  }
}
