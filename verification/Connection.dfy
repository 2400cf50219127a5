/** The output side of a connection (mymuduo/TcpConnection.cpp) as a state machine on values. */
module OutputStream {
  import opened Bytes

  datatype St = Disconnected | Disconnecting | Connected | Connecting

  /** What one `write` on the socket reports. */
  datatype WriteResult = Wrote(n: nat) | WouldBlock | PeerGone | OtherError

  /** Marks left for the high-water property: a queued notification, or a drain by `handleWrite`. */
  datatype Note = Notice(length: nat) | Drained(left: nat)

  datatype Settings = Settings(mark: nat, notify: bool)

  /** `wire`, `accepted`, `shutdowns` and `notes` are history. */
  datatype Conn = Conn(
    st: St, writing: bool, pending: seq<byte>,
    wire: seq<byte>, accepted: seq<seq<byte>>, shutdowns: nat, notes: seq<Note>)

  const FRESH := Conn(Connecting, false, [], [], [], 0, [])

  // ------------------------------------------------------------------ the operations

  function Established(c: Conn): Conn {
    c.(st := Connected)
  }

  /** Crossing the mark from below. */
  predicate Crosses(cfg: Settings, before: nat, after: nat) {
    cfg.notify && after >= cfg.mark && before < cfg.mark
  }

  /** Queues what could not be written at once. */
  function Buffered(cfg: Settings, c: Conn, remaining: seq<byte>): Conn {
    if remaining == [] then c
    else
      var total := |c.pending| + |remaining|;
      c.(pending := c.pending + remaining, writing := true,
         notes := if Crosses(cfg, |c.pending|, total) then c.notes + [Notice(total)] else c.notes)
  }

  /** The message goes straight to the socket only if nothing is ahead of it. */
  predicate WritesDirectly(c: Conn) {
    !c.writing && c.pending == []
  }

  predicate DropsMessage(c: Conn, res: WriteResult) {
    WritesDirectly(c) && res.PeerGone?
  }

  function SendInLoop(cfg: Settings, c: Conn, data: seq<byte>, res: WriteResult): Conn
    requires res.Wrote? ==> res.n <= |data|
  {
    if c.st == Disconnected || DropsMessage(c, res) then c
    else
      var n := if WritesDirectly(c) && res.Wrote? then res.n else 0;
      Buffered(cfg, c.(wire := c.wire + data[..n], accepted := c.accepted + [data]), data[n..])
  }

  function Send(cfg: Settings, c: Conn, data: seq<byte>, res: WriteResult): Conn
    requires res.Wrote? ==> res.n <= |data|
  {
    if c.st == Connected then SendInLoop(cfg, c, data, res) else c
  }

  function ShutdownInLoop(c: Conn): Conn {
    if c.writing then c else c.(shutdowns := c.shutdowns + 1)
  }

  function Shutdown(c: Conn): Conn {
    if c.st == Connected then ShutdownInLoop(c.(st := Disconnecting)) else c
  }

  function HandleWrite(c: Conn, res: WriteResult): Conn
    requires res.Wrote? ==> res.n <= |c.pending|
  {
    if !c.writing || !res.Wrote? || res.n == 0 then c
    else
      var left := c.pending[res.n..];
      var c1 := c.(wire := c.wire + c.pending[..res.n], pending := left, notes := c.notes + [Drained(|left|)]);
      if left != [] then c1
      else
        var c2 := c1.(writing := false);
        if c2.st == Disconnecting then ShutdownInLoop(c2) else c2
  }

  function HandleClose(c: Conn): Conn {
    c.(st := Disconnected, writing := false)
  }

  // ------------------------------------------------------------------ runs

  datatype Event =
    | Up
    | Message(data: seq<byte>, res: WriteResult)
    | Writable(written: WriteResult)
    | ShutdownCall
    | Close

  /** The socket never writes more than it was given; a connection comes up once and closes after that. */
  predicate Possible(c: Conn, e: Event) {
    match e
    case Up => c.st == Connecting
    case Message(data, res) => res.Wrote? ==> res.n <= |data|
    case Writable(res) => res.Wrote? ==> res.n <= |c.pending|
    case ShutdownCall => true
    case Close => c.st != Connecting
  }

  function Step(cfg: Settings, c: Conn, e: Event): Conn
    requires Possible(c, e)
  {
    match e
    case Up => Established(c)
    case Message(data, res) => Send(cfg, c, data, res)
    case Writable(res) => HandleWrite(c, res)
    case ShutdownCall => Shutdown(c)
    case Close => HandleClose(c)
  }

  predicate PossibleRun(cfg: Settings, c: Conn, es: seq<Event>)
    decreases |es|
  {
    es == [] || (Possible(c, es[0]) && PossibleRun(cfg, Step(cfg, c, es[0]), es[1..]))
  }

  function Run(cfg: Settings, c: Conn, es: seq<Event>): Conn
    requires PossibleRun(cfg, c, es)
    decreases |es|
  {
    if es == [] then c else Run(cfg, Step(cfg, c, es[0]), es[1..])
  }

  // ------------------------------------------------------------------ the invariant

  /** Conservation: what is on the wire and what waits is exactly what was accepted, in order. */
  predicate Conserved(c: Conn) {
    c.wire + c.pending == Flatten(c.accepted)
  }

  /** Write interest tells whether output is pending, while it can be written. */
  predicate InterestExact(c: Conn) {
    match c.st
    case Connecting => !c.writing && c.pending == [] && c.accepted == [] && c.shutdowns == 0
    case Connected => c.writing <==> c.pending != []
    case Disconnecting => c.writing <==> c.pending != []
    case Disconnected => !c.writing
  }

  /** Write-side shutdown: never while connected, at most once, and as soon as everything is out. */
  predicate ShutdownExact(c: Conn) {
    && c.shutdowns <= 1
    && (c.st == Connected ==> c.shutdowns == 0)
    && (c.shutdowns == 1 ==> c.pending == [])
    && (c.st == Disconnecting ==> (c.shutdowns == 1 <==> c.pending == []))
  }

  /** No notification since the output was last below the mark. */
  predicate Rearmed(mark: nat, notes: seq<Note>) {
    notes == [] ||
    match notes[|notes| - 1]
    case Notice(_) => false
    case Drained(left) => left < mark || Rearmed(mark, notes[..|notes| - 1])
  }

  predicate NoticesReal(mark: nat, notes: seq<Note>) {
    notes == [] ||
    (var before := notes[..|notes| - 1];
     && NoticesReal(mark, before)
     && (notes[|notes| - 1].Notice? ==> Rearmed(mark, before) && notes[|notes| - 1].length >= mark))
  }

  predicate HighWaterExact(cfg: Settings, c: Conn) {
    NoticesReal(cfg.mark, c.notes) && (!Rearmed(cfg.mark, c.notes) ==> |c.pending| >= cfg.mark)
  }

  predicate Inv(cfg: Settings, c: Conn) {
    Conserved(c) && InterestExact(c) && ShutdownExact(c) && HighWaterExact(cfg, c)
  }

  lemma NotesSnoc(mark: nat, notes: seq<Note>, n: Note)
    ensures Rearmed(mark, notes + [n]) == (n.Drained? && (n.left < mark || Rearmed(mark, notes)))
    ensures NoticesReal(mark, notes + [n]) ==
            (NoticesReal(mark, notes) && (n.Notice? ==> Rearmed(mark, notes) && n.length >= mark))
  {
    assert (notes + [n])[..|notes|] == notes;
  }

  lemma SendConserves(cfg: Settings, c: Conn, data: seq<byte>, res: WriteResult)
    requires Conserved(c) && (c.st == Disconnected || WritesDirectly(c) || c.writing)
    requires res.Wrote? ==> res.n <= |data|
    ensures Conserved(SendInLoop(cfg, c, data, res))
  {
    if c.st != Disconnected && !DropsMessage(c, res) {
      var n := if WritesDirectly(c) && res.Wrote? then res.n else 0;
      FlattenSnoc(c.accepted, data);
      assert data == data[..n] + data[n..];
      Joined(c.wire, c.pending, data[..n], data[n..]);
    }
  }

  /** What goes out at once is behind nothing, or is nothing. */
  lemma Joined(wire: seq<byte>, pending: seq<byte>, now: seq<byte>, later: seq<byte>)
    requires pending == [] || now == []
    ensures (wire + now) + (pending + later) == (wire + pending) + (now + later)
  {
  }

  lemma SendMarks(cfg: Settings, c: Conn, data: seq<byte>, res: WriteResult)
    requires HighWaterExact(cfg, c) && (res.Wrote? ==> res.n <= |data|)
    ensures HighWaterExact(cfg, SendInLoop(cfg, c, data, res))
  {
    var c' := SendInLoop(cfg, c, data, res);
    NotesSnoc(cfg.mark, c.notes, Notice(|c'.pending|));
  }

  /**
   * When a `sendInLoop` fits the stream: while connected, after the close, when the peer is
   * gone, and while disconnecting if the shutdown is still to come or nothing is left over.
   */
  predicate Fits(c: Conn, data: seq<byte>, res: WriteResult)
    requires res.Wrote? ==> res.n <= |data|
  {
    match c.st
    case Connecting => res.PeerGone?
    case Disconnecting => c.pending != [] || res.PeerGone? || |data| == if res.Wrote? then res.n else 0
    case _ => true
  }

  /** A `sendInLoop` that runs after `shutdown` keeps the discipline exactly if it fits. */
  lemma SendFitsExactly(cfg: Settings, c: Conn, data: seq<byte>, res: WriteResult)
    requires Inv(cfg, c) && (res.Wrote? ==> res.n <= |data|)
    ensures Inv(cfg, SendInLoop(cfg, c, data, res)) <==> Fits(c, data, res)
  {
    hide Rearmed, NoticesReal;
    SendConserves(cfg, c, data, res);
    SendMarks(cfg, c, data, res);
  }

  lemma SendKeepsInv(cfg: Settings, c: Conn, data: seq<byte>, res: WriteResult)
    requires Inv(cfg, c) && (res.Wrote? ==> res.n <= |data|)
    ensures Inv(cfg, Send(cfg, c, data, res))
  {
    SendFitsExactly(cfg, c, data, res);
  }

  lemma HandleWriteKeepsInv(cfg: Settings, c: Conn, res: WriteResult)
    requires Inv(cfg, c) && (res.Wrote? ==> res.n <= |c.pending|)
    ensures Inv(cfg, HandleWrite(c, res))
  {
    var c' := HandleWrite(c, res);
    if c' != c {
      assert c.pending == c.pending[..res.n] + c.pending[res.n..];
      assert c'.wire + c'.pending == c.wire + c.pending;
      NotesSnoc(cfg.mark, c.notes, Drained(|c'.pending|));
    }
  }

  lemma StepKeepsInv(cfg: Settings, c: Conn, e: Event)
    requires Inv(cfg, c) && Possible(c, e)
    ensures Inv(cfg, Step(cfg, c, e))
  {
    match e {
      case Up =>
      case Message(data, res) => SendKeepsInv(cfg, c, data, res);
      case Writable(res) => HandleWriteKeepsInv(cfg, c, res);
      case ShutdownCall =>
      case Close =>
    }
  }

  // ------------------------------------------------------------------ what every run keeps

  /** Conservation, exact write interest, shutdown discipline and real crossings, in every run. */
  lemma {:induction false} RunKeepsInv(cfg: Settings, c: Conn, es: seq<Event>)
    requires Inv(cfg, c) && PossibleRun(cfg, c, es)
    ensures Inv(cfg, Run(cfg, c, es))
    decreases |es|
  {
    if es != [] {
      StepKeepsInv(cfg, c, es[0]);
      RunKeepsInv(cfg, Step(cfg, c, es[0]), es[1..]);
    }
  }

  lemma EveryRun(cfg: Settings, es: seq<Event>)
    requires PossibleRun(cfg, FRESH, es)
    ensures Inv(cfg, Run(cfg, FRESH, es))
  {
    RunKeepsInv(cfg, FRESH, es);
  }

  /** Conservation: what is on the wire, then what is pending, is what was accepted, in order. */
  lemma StreamConserved(cfg: Settings, es: seq<Event>)
    requires PossibleRun(cfg, FRESH, es)
    ensures var c := Run(cfg, FRESH, es); c.wire + c.pending == Flatten(c.accepted)
  {
    EveryRun(cfg, es);
  }

  /**
   * Graceful close: write interest is on exactly while output is pending, and the write side
   * is shut down at most once, only after `shutdown`, and then exactly when every accepted
   * byte is on the wire.
   */
  lemma GracefulClose(cfg: Settings, es: seq<Event>)
    requires PossibleRun(cfg, FRESH, es)
    ensures var c := Run(cfg, FRESH, es);
            && (c.st == Connected || c.st == Disconnecting ==> (c.writing <==> c.pending != []))
            && c.shutdowns <= 1
            && (c.shutdowns == 1 ==> c.wire == Flatten(c.accepted) && (c.st == Disconnecting || c.st == Disconnected))
            && (c.st == Disconnecting ==> (c.shutdowns == 1 <==> c.wire == Flatten(c.accepted)))
  {
    EveryRun(cfg, es);
    var c := Run(cfg, FRESH, es);
    assert |Flatten(c.accepted)| == |c.wire| + |c.pending|;
  }

  /** All or nothing: a message is accepted whole, or leaves no byte behind; and exactly when. */
  lemma SendAllOrNothing(cfg: Settings, c: Conn, data: seq<byte>, res: WriteResult)
    requires Inv(cfg, c) && (res.Wrote? ==> res.n <= |data|)
    ensures var c' := Send(cfg, c, data, res);
            if c.st != Connected || (c.pending == [] && res.PeerGone?) then c' == c
            else c'.accepted == c.accepted + [data] && c'.wire + c'.pending == c.wire + c.pending + data
  {
    SendKeepsInv(cfg, c, data, res);
    FlattenSnoc(c.accepted, data);
  }

  /** After the write-side shutdown nothing is accepted and nothing more reaches the wire. */
  lemma {:induction false} NothingAfterShutdown(cfg: Settings, c: Conn, es: seq<Event>)
    requires Inv(cfg, c) && c.shutdowns == 1 && PossibleRun(cfg, c, es)
    ensures var c' := Run(cfg, c, es);
            && c'.accepted == c.accepted && c'.wire == c.wire == Flatten(c.accepted) && c'.shutdowns == 1
    decreases |es|
  {
    if es != [] {
      StepKeepsInv(cfg, c, es[0]);
      NothingAfterShutdown(cfg, Step(cfg, c, es[0]), es[1..]);
    }
  }

  // ------------------------------------------------------------------ what the socket took

  /** Whether this event issues a `write`: a message with nothing ahead of it, or writability with output pending. */
  predicate Issues(c: Conn, e: Event) {
    match e
    case Message(_, _) => c.st == Connected && c.pending == []
    case Writable(_) => (c.st == Connected || c.st == Disconnecting) && c.pending != []
    case _ => false
  }

  /** How many bytes the socket reports to have taken. */
  function Took(e: Event): nat {
    match e
    case Message(_, Wrote(n)) => n
    case Writable(Wrote(n)) => n
    case _ => 0
  }

  /** All bytes the socket took in a run. */
  function Taken(cfg: Settings, c: Conn, es: seq<Event>): nat
    requires PossibleRun(cfg, c, es)
    decreases |es|
  {
    if es == [] then 0
    else (if Issues(c, es[0]) then Took(es[0]) else 0) + Taken(cfg, Step(cfg, c, es[0]), es[1..])
  }

  lemma StepTakes(cfg: Settings, c: Conn, e: Event)
    requires Inv(cfg, c) && Possible(c, e)
    ensures |Step(cfg, c, e).wire| == |c.wire| + if Issues(c, e) then Took(e) else 0
  {
  }

  lemma {:induction false} RunTakes(cfg: Settings, c: Conn, es: seq<Event>)
    requires Inv(cfg, c) && PossibleRun(cfg, c, es)
    ensures |Run(cfg, c, es).wire| == |c.wire| + Taken(cfg, c, es)
    decreases |es|
  {
    hide Inv, Possible, Step, Issues, Took;
    if es != [] {
      StepTakes(cfg, c, es[0]);
      StepKeepsInv(cfg, c, es[0]);
      RunTakes(cfg, Step(cfg, c, es[0]), es[1..]);
    }
  }

  /**
   * The wire is what the socket took: after every run it is the first bytes of the accepted
   * messages, as many as all `write` calls together reported, and the rest is pending.
   */
  lemma WireIsWhatWasTaken(cfg: Settings, es: seq<Event>)
    requires PossibleRun(cfg, FRESH, es)
    ensures var c, n := Run(cfg, FRESH, es), Taken(cfg, FRESH, es);
            && n <= |Flatten(c.accepted)|
            && c.wire == Flatten(c.accepted)[..n]
            && c.pending == Flatten(c.accepted)[n..]
  {
    RunTakes(cfg, FRESH, es);
    StreamConserved(cfg, es);
  }

  // ------------------------------------------------------------------ the connection's state

  /** `shutdown` is called at some time after the connection came up. */
  ghost predicate ShutAfterUp(es: seq<Event>) {
    exists i, j :: 0 <= i < j < |es| && es[i] == Up && es[j] == ShutdownCall
  }

  lemma {:induction false} StateFrom(cfg: Settings, c: Conn, es: seq<Event>)
    requires PossibleRun(cfg, c, es)
    ensures var st := Run(cfg, c, es).st;
            && (st == Connecting <==> c.st == Connecting && Up !in es)
            && (st == Disconnected <==> c.st == Disconnected || Close in es)
            && (st == Disconnecting <==>
                  && c.st != Disconnected && Close !in es
                  && (c.st == Disconnecting || (c.st == Connected && ShutdownCall in es)
                      || (c.st == Connecting && ShutAfterUp(es))))
    decreases |es|
  {
    if es != [] {
      var c1 := Step(cfg, c, es[0]);
      StateFrom(cfg, c1, es[1..]);
      assert es == [es[0]] + es[1..];
      StepState(cfg, c, es[0]);
      if c.st == Connecting {
        ShutAfterFirst(es);
      }
      hide Step;
    }
  }

  lemma StepState(cfg: Settings, c: Conn, e: Event)
    requires Possible(c, e)
    ensures var st := Step(cfg, c, e).st;
            match e
            case Up => c.st == Connecting && st == Connected
            case Close => c.st != Connecting && st == Disconnected
            case ShutdownCall => st == if c.st == Connected then Disconnecting else c.st
            case _ => st == c.st
  {
  }

  lemma ShutAfterFirst(es: seq<Event>)
    requires es != []
    ensures ShutAfterUp(es) <==> (es[0] == Up && ShutdownCall in es[1..]) || ShutAfterUp(es[1..])
  {
    var later := es[1..];
    if ShutAfterUp(es) {
      var i, j :| 0 <= i < j < |es| && es[i] == Up && es[j] == ShutdownCall;
      assert later[j - 1] == ShutdownCall;
      if i > 0 {
        assert later[i - 1] == Up;
      }
    }
    if es[0] == Up && ShutdownCall in later {
      var j :| 0 <= j < |later| && later[j] == ShutdownCall;
      assert es[j + 1] == ShutdownCall;
    }
    if ShutAfterUp(later) {
      var i, j :| 0 <= i < j < |later| && later[i] == Up && later[j] == ShutdownCall;
      assert es[i + 1] == Up && es[j + 1] == ShutdownCall;
    }
  }

  /** The state after a run, told from its events alone. */
  lemma StateExactly(cfg: Settings, es: seq<Event>)
    requires PossibleRun(cfg, FRESH, es)
    ensures Run(cfg, FRESH, es).st ==
            if Up !in es then Connecting
            else if Close in es then Disconnected
            else if ShutAfterUp(es) then Disconnecting
            else Connected
  {
    StateFrom(cfg, FRESH, es);
  }

  /**
   * `shutdown` while connected is carried out: nothing sent after it is accepted, and unless
   * the connection closes the write side is shut down, once, exactly when every accepted
   * byte is on the wire.
   */
  lemma ShutdownCarriedOut(cfg: Settings, before: seq<Event>, after: seq<Event>)
    requires PossibleRun(cfg, FRESH, before) && Run(cfg, FRESH, before).st == Connected
    requires PossibleRun(cfg, Run(cfg, FRESH, before), [ShutdownCall] + after)
    ensures var c, c' := Run(cfg, FRESH, before), Run(cfg, Run(cfg, FRESH, before), [ShutdownCall] + after);
            && c'.accepted == c.accepted
            && (Close in after ==> c'.st == Disconnected)
            && (Close !in after ==>
                  && c'.st == Disconnecting
                  && c'.shutdowns == (if c'.wire == Flatten(c.accepted) then 1 else 0))
  {
    EveryRun(cfg, before);
    var c := Run(cfg, FRESH, before);
    StepKeepsInv(cfg, c, ShutdownCall);
    var c1 := Step(cfg, c, ShutdownCall);
    assert ([ShutdownCall] + after)[1..] == after;
    StateFrom(cfg, c1, after);
    RunKeepsInv(cfg, c1, after);
    NothingAccepted(cfg, c1, after);
    var c' := Run(cfg, c1, after);
    assert |Flatten(c'.accepted)| == |c'.wire| + |c'.pending|;
  }

  lemma {:induction false} NothingAccepted(cfg: Settings, c: Conn, es: seq<Event>)
    requires (c.st == Disconnecting || c.st == Disconnected) && PossibleRun(cfg, c, es)
    ensures Run(cfg, c, es).accepted == c.accepted
    decreases |es|
  {
    if es != [] {
      NothingAccepted(cfg, Step(cfg, c, es[0]), es[1..]);
    }
  }

  /** A closed connection stays closed: no later event changes anything. */
  lemma {:induction false} ClosedForGood(cfg: Settings, c: Conn, es: seq<Event>)
    requires Inv(cfg, c) && c.st == Disconnected && PossibleRun(cfg, c, es)
    ensures Run(cfg, c, es) == c
    decreases |es|
  {
    if es != [] {
      ClosedForGood(cfg, Step(cfg, c, es[0]), es[1..]);
    }
  }

  /** `a` is what is left of `b` after leaving out some elements. */
  ghost predicate Subsequence<T>(a: seq<T>, b: seq<T>) {
    a == [] ||
    (b != [] &&
     ((a[0] == b[0] && Subsequence(a[1..], b[1..])) || Subsequence(a, b[1..])))
  }

  function Sent(es: seq<Event>): seq<seq<byte>> {
    if es == [] then []
    else (if es[0].Message? then [es[0].data] else []) + Sent(es[1..])
  }

  /** Nothing is invented, repeated or reordered: what a run accepts is a subsequence of what was sent. */
  lemma {:induction false} AcceptedWasSent(cfg: Settings, c: Conn, es: seq<Event>)
    requires PossibleRun(cfg, c, es)
    ensures c.accepted <= Run(cfg, c, es).accepted
    ensures Subsequence(Run(cfg, c, es).accepted[|c.accepted|..], Sent(es))
    decreases |es|
  {
    if es != [] {
      var c1 := Step(cfg, c, es[0]);
      AcceptedWasSent(cfg, c1, es[1..]);
      var after := Run(cfg, c, es).accepted;
      if c1.accepted == c.accepted {
        if es[0].Message? {
          assert Sent(es)[1..] == Sent(es[1..]);
        } else {
          assert Sent(es) == Sent(es[1..]);
        }
      } else {
        assert c1.accepted == c.accepted + [es[0].data];
        var mine := after[|c.accepted|..];
        assert mine[0] == c1.accepted[|c.accepted|] == es[0].data && mine[1..] == after[|c1.accepted|..];
        assert Sent(es)[1..] == Sent(es[1..]);
      }
    }
  }

  /** A notification is queued exactly on crossing the mark, and reports the length then pending. */
  lemma NoticeExactly(cfg: Settings, c: Conn, data: seq<byte>, res: WriteResult)
    requires Inv(cfg, c) && (res.Wrote? ==> res.n <= |data|)
    ensures var c' := Send(cfg, c, data, res);
            if cfg.notify && |c.pending| < cfg.mark <= |c'.pending| then c'.notes == c.notes + [Notice(|c'.pending|)]
            else c'.notes == c.notes
  {
  }

  /** A drain is noted exactly when the socket took something, with the length then left. */
  lemma DrainExactly(c: Conn, res: WriteResult)
    requires res.Wrote? ==> res.n <= |c.pending|
    ensures var c' := HandleWrite(c, res);
            if |c'.pending| < |c.pending| then c'.notes == c.notes + [Drained(|c'.pending|)]
            else c'.notes == c.notes
  {
  }

  lemma {:induction false} RearmedByDrain(mark: nat, notes: seq<Note>, i: nat) returns (k: nat)
    requires i < |notes| && notes[i].Notice? && Rearmed(mark, notes)
    ensures i < k < |notes| && notes[k].Drained? && notes[k].left < mark
    decreases |notes|
  {
    var last := |notes| - 1;
    if notes[last].left < mark {
      k := last;
    } else {
      k := RearmedByDrain(mark, notes[..last], i);
    }
  }

  lemma {:induction false} RealPrefix(mark: nat, notes: seq<Note>, j: nat)
    requires j < |notes| && notes[j].Notice? && NoticesReal(mark, notes)
    ensures Rearmed(mark, notes[..j])
    decreases |notes|
  {
    if j < |notes| - 1 {
      RealPrefix(mark, notes[..|notes| - 1], j);
      assert notes[..|notes| - 1][..j] == notes[..j];
    }
  }

  /** Between any two notifications of a run, `handleWrite` left less than the mark pending. */
  lemma NoticesSeparated(cfg: Settings, es: seq<Event>, i: nat, j: nat)
    requires PossibleRun(cfg, FRESH, es)
    requires i < j < |Run(cfg, FRESH, es).notes|
    requires Run(cfg, FRESH, es).notes[i].Notice? && Run(cfg, FRESH, es).notes[j].Notice?
    ensures var notes := Run(cfg, FRESH, es).notes;
            exists k :: i < k < j && notes[k].Drained? && notes[k].left < cfg.mark
  {
    EveryRun(cfg, es);
    var notes := Run(cfg, FRESH, es).notes;
    RealPrefix(cfg.mark, notes, j);
    var k := RearmedByDrain(cfg.mark, notes[..j], i);
    assert notes[k] == notes[..j][k];
  }
}

/** Server frames over the output stream. */
module FramedOutput {
  import opened Bytes
  import opened Frames
  import opened WebSocket
  import opened OutputStream

  /**
   * A connection that accepted a preamble (the handshake response) and then server frames:
   * the preamble goes out first, the complete frames behind it decode to a prefix of the
   * accepted messages, and to all of them once nothing is pending.
   */
  lemma WireDecodes(cfg: Settings, es: seq<Event>, preamble: seq<seq<byte>>, messages: seq<seq<byte>>)
    requires PossibleRun(cfg, FRESH, es)
    requires forall m :: m in messages ==> |m| < TWO63
    requires Run(cfg, FRESH, es).accepted == preamble + Encoded(messages)
    ensures var c, head := Run(cfg, FRESH, es), Flatten(preamble);
            && (|c.wire| < |head| ==> c.wire <= head)
            && (|c.wire| >= |head| ==> head <= c.wire && Decode(c.wire[|head|..]) <= messages)
            && (c.pending == [] ==> head <= c.wire && Decode(c.wire[|head|..]) == messages)
  {
    hide Decode;
    EveryRun(cfg, es);
    FlattenConcat(preamble, Encoded(messages));
    var c, head := Run(cfg, FRESH, es), Flatten(preamble);
    var frames := Flatten(Encoded(messages));
    assert c.wire + c.pending == head + frames;
    assert c.wire <= head + frames;
    if |c.wire| >= |head| {
      assert c.wire[|head|..] <= frames;
      DecodePrefix(messages, c.wire[|head|..]);
    }
  }

  /** Such a preamble and messages exist whenever the sends were a preamble and then frames. */
  lemma AcceptedFrames(cfg: Settings, es: seq<Event>, preamble: seq<seq<byte>>, sent: seq<seq<byte>>)
    returns (kept: seq<seq<byte>>, messages: seq<seq<byte>>)
    requires PossibleRun(cfg, FRESH, es)
    requires forall m :: m in sent ==> |m| < TWO63
    requires Sent(es) == preamble + Encoded(sent)
    ensures Subsequence(kept, preamble) && Subsequence(messages, sent)
    ensures forall m :: m in messages ==> |m| < TWO63
    ensures Run(cfg, FRESH, es).accepted == kept + Encoded(messages)
  {
    AcceptedWasSent(cfg, FRESH, es);
    var accepted := Run(cfg, FRESH, es).accepted;
    assert accepted[0..] == accepted;
    var n := SplitSubsequence(accepted, preamble, Encoded(sent));
    kept := accepted[..n];
    messages := Originals(accepted[n..], sent);
  }

  /** What is left of a concatenation is what is left of each part. */
  lemma {:induction false} SplitSubsequence<T>(a: seq<T>, b: seq<T>, c: seq<T>) returns (n: nat)
    requires Subsequence(a, b + c)
    ensures n <= |a| && Subsequence(a[..n], b) && Subsequence(a[n..], c)
    decreases |b|
  {
    if a == [] || b == [] {
      assert b == [] ==> b + c == c;
      assert a[0..] == a;
      n := 0;
    } else {
      assert (b + c)[1..] == b[1..] + c;
      if a[0] == b[0] && Subsequence(a[1..], b[1..] + c) {
        var k := SplitSubsequence(a[1..], b[1..], c);
        n := k + 1;
        assert a[..n][1..] == a[1..][..k] && a[n..] == a[1..][k..];
      } else {
        n := SplitSubsequence(a, b[1..], c);
      }
    }
  }

  lemma {:induction false} Originals(frames: seq<seq<byte>>, sent: seq<seq<byte>>)
    returns (messages: seq<seq<byte>>)
    requires forall m :: m in sent ==> |m| < TWO63
    requires Subsequence(frames, Encoded(sent))
    ensures Subsequence(messages, sent)
    ensures forall m :: m in messages ==> |m| < TWO63
    ensures frames == Encoded(messages)
    decreases |sent|
  {
    if frames == [] {
      messages := [];
    } else {
      assert Encoded(sent)[1..] == Encoded(sent[1..]);
      if frames[0] == Encoded(sent)[0] && Subsequence(frames[1..], Encoded(sent[1..])) {
        var later := Originals(frames[1..], sent[1..]);
        messages := [sent[0]] + later;
        assert messages[1..] == later;
        assert Encoded(messages)[1..] == Encoded(later);
        assert frames == [frames[0]] + frames[1..];
      } else {
        messages := Originals(frames, sent[1..]);
      }
    }
  }
}
