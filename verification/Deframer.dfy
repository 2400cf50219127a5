/** The streaming deframer: the post-handshake part of `onMessage` in src/ChatServer.cpp. */
module Deframer {
  import opened Bytes
  import opened Buffers
  import opened Frames
  import opened WebSocket

  const ZERO_KEY: seq<byte> := [0, 0, 0, 0]

  /** Every head the deframer can come to look at is masked and has a legal length. */
  ghost predicate LegalStream(s: seq<byte>)
    decreases |s|
  {
    && MaskedHead(s)
    && LegalLength(s)
    && (Parse(s, ZERO_KEY).Some? && Parse(s, ZERO_KEY).value.opcode == TEXT ==>
          LegalStream(s[Parse(s, ZERO_KEY).value.frameLen..]))
  }

  datatype Outcome = Outcome(handled: seq<seq<byte>>, rest: seq<byte>, closing: bool)

  /** What one pass over the buffered bytes does: text is handled, a close frame stays at the head. */
  function Deframe(s: seq<byte>): Outcome
    decreases |s|
  {
    match Parse(s, ZERO_KEY)
    case None => Outcome([], s, false)
    case Some(p) =>
      if p.opcode == CLOSE then Outcome([], s, true)
      else
        var later := Deframe(s[p.frameLen..]);
        later.(handled := NonEmpty(p.payload) + later.handled)
  }

  function NonEmpty(payload: seq<byte>): seq<seq<byte>> {
    if payload == [] then [] else [payload]
  }

  // ------------------------------------------------------------------ cutting the stream

  /** Legality is inherited by everything received so far. */
  lemma {:induction false} LegalPrefix(s: seq<byte>, more: seq<byte>)
    requires LegalStream(s + more)
    ensures LegalStream(s)
    decreases |s|
  {
    var all := s + more;
    assert |s| >= 2 ==> all[0] == s[0] && all[1] == s[1];
    assert |s| >= 10 ==> all[2] == s[2];
    if Parse(s, ZERO_KEY).Some? {
      ParseMonotone(s, more, ZERO_KEY);
      var n := Parse(s, ZERO_KEY).value.frameLen;
      if Parse(s, ZERO_KEY).value.opcode == TEXT {
        assert all[n..] == s[n..] + more;
        LegalPrefix(s[n..], more);
      }
    }
  }

  /** Two reads do together what one read of the joined bytes does. */
  lemma {:induction false} DeframeSplit(s: seq<byte>, more: seq<byte>)
    ensures var first := Deframe(s);
            var second := Deframe(first.rest + more);
            Deframe(s + more) == second.(handled := first.handled + second.handled)
    decreases |s|
  {
    hide Parse;
    if Parse(s, ZERO_KEY).Some? {
      var p := Parse(s, ZERO_KEY).value;
      ParseMonotone(s, more, ZERO_KEY);
      if p.opcode != CLOSE {
        assert (s + more)[p.frameLen..] == s[p.frameLen..] + more;
        DeframeSplit(s[p.frameLen..], more);
        var first := Deframe(s[p.frameLen..]);
        var second := Deframe(first.rest + more);
        assert NonEmpty(p.payload) + (first.handled + second.handled)
            == (NonEmpty(p.payload) + first.handled) + second.handled;
      }
    }
  }

  lemma {:induction false} LegalRest(s: seq<byte>, more: seq<byte>)
    requires LegalStream(s + more)
    ensures LegalStream(Deframe(s).rest + more)
    decreases |s|
  {
    if Parse(s, ZERO_KEY).Some? {
      var p := Parse(s, ZERO_KEY).value;
      ParseMonotone(s, more, ZERO_KEY);
      if p.opcode != CLOSE {
        assert (s + more)[p.frameLen..] == s[p.frameLen..] + more;
        LegalRest(s[p.frameLen..], more);
      }
    }
  }

  /** The run of the deframer over a list of reads. */
  function Reads(chunks: seq<seq<byte>>): Outcome {
    if chunks == [] then Outcome([], [], false)
    else
      var before := Reads(chunks[..|chunks| - 1]);
      var now := Deframe(before.rest + chunks[|chunks| - 1]);
      Outcome(before.handled + now.handled, now.rest, before.closing || now.closing)
  }

  /** A pending close frame is found again by every later pass. */
  lemma ClosingStays(s: seq<byte>, more: seq<byte>)
    requires Deframe(s).closing
    ensures Deframe(Deframe(s).rest + more) == Outcome([], Deframe(s).rest + more, true)
    decreases |s|
  {
    var p := Parse(s, ZERO_KEY).value;
    if p.opcode == CLOSE {
      ParseMonotone(s, more, ZERO_KEY);
    } else {
      ClosingStays(s[p.frameLen..], more);
    }
  }

  /** Chunking independence: however the stream is cut, the result is that of one read of all of it. */
  lemma {:induction false} ChunkingIndependence(chunks: seq<seq<byte>>)
    ensures Reads(chunks) == Deframe(Flatten(chunks))
  {
    hide Deframe;
    DeframeEmpty();
    if chunks != [] {
      var before, last := chunks[..|chunks| - 1], chunks[|chunks| - 1];
      ChunkingIndependence(before);
      assert chunks == before + [last];
      FlattenSnoc(before, last);
      DeframeSplit(Flatten(before), last);
      if Deframe(Flatten(before)).closing {
        ClosingStays(Flatten(before), last);
      }
    }
  }

  // ------------------------------------------------------------------ what the stream means

  function Wires(frames: seq<Frame>): seq<byte>
    requires forall f :: f in frames ==> f.Valid()
  {
    if frames == [] then [] else frames[0].Wire() + Wires(frames[1..])
  }

  /** The number of leading text frames that the server understands. */
  function Readable(frames: seq<Frame>): (k: nat)
    ensures k <= |frames|
    ensures forall i :: 0 <= i < k ==> frames[i].Understood() && frames[i].Opcode() == TEXT
    ensures k < |frames| ==> !(frames[k].Understood() && frames[k].Opcode() == TEXT)
  {
    if frames == [] || !frames[0].Understood() || frames[0].Opcode() != TEXT then 0
    else 1 + Readable(frames[1..])
  }

  /** The non-empty payloads, in order. */
  function Payloads(frames: seq<Frame>): seq<seq<byte>> {
    if frames == [] then [] else NonEmpty(frames[0].payload) + Payloads(frames[1..])
  }

  lemma TopBitClear(n: nat)
    requires n < TWO63
    ensures !HighBit(BigEndian(n, 8)[0])
  {
    Pow256Values();
    BigEndianRoundTrip(n, 8);
    TopBit(BigEndian(n, 8));
  }

  lemma WireHeadLegal(f: Frame, rest: seq<byte>)
    requires f.Valid()
    ensures MaskedHead(f.Wire() + rest) && LegalLength(f.Wire() + rest)
  {
    var data := f.Wire() + rest;
    WireHead(f, rest);
    assert ReadHeader(data).value == Head(f.first, true, f.form, |f.payload|);
    if f.form.Long? {
      TopBitClear(|f.payload|);
      assert data[2] == Header(f.first, true, f.form, |f.payload|)[2] == BigEndian(|f.payload|, 8)[0];
    }
  }

  /** Streams of valid masked frames are legal, so by `LegalPrefix` is anything received of them. */
  lemma {:induction false} FramesAreLegal(frames: seq<Frame>)
    requires forall f :: f in frames ==> f.Valid()
    ensures LegalStream(Wires(frames))
  {
    if frames != [] {
      var f := frames[0];
      var later := Wires(frames[1..]);
      WireHeadLegal(f, later);
      FramesAreLegal(frames[1..]);
      if f.Understood() {
        ParseComplete(f, later, ZERO_KEY);
        assert (f.Wire() + later)[|f.Wire()|..] == later;
      } else {
        ParseRejects(f, later, ZERO_KEY);
      }
    }
  }

  /**
   * The deframer's meaning: of any frames followed by an unfinished one, exactly the leading
   * understood text frames are handled, in order and without the empty ones; everything from
   * the first other frame on stays in the buffer, and closing starts exactly if that is a
   * close frame.
   */
  lemma {:induction false} DeframeMeaning(frames: seq<Frame>, next: Frame, k: nat)
    requires forall f :: f in frames ==> f.Valid()
    requires next.Valid() && k < |next.Wire()|
    ensures var n := Readable(frames);
            var tail := next.Wire()[..k];
            Deframe(Wires(frames) + tail) ==
            Outcome(Payloads(frames[..n]), Wires(frames[n..]) + tail,
                    n < |frames| && frames[n].Understood() && frames[n].Opcode() == CLOSE)
  {
    hide Parse, Frame.Wire;
    var n, tail := Readable(frames), next.Wire()[..k];
    if frames == [] {
      assert Wires(frames) + tail == tail;
      ParseNeedsWholeFrame(next, k, ZERO_KEY);
    } else {
      var f, later := frames[0], frames[1..];
      var rest := Wires(later) + tail;
      assert Wires(frames) + tail == f.Wire() + rest;
      if !f.Understood() {
        ParseRejects(f, rest, ZERO_KEY);
      } else {
        ParseComplete(f, rest, ZERO_KEY);
        assert (f.Wire() + rest)[|f.Wire()|..] == rest;
        if f.Opcode() == TEXT {
          DeframeMeaning(later, next, k);
          assert frames[..n][0] == f && frames[..n][1..] == later[..n - 1];
          assert frames[n..] == later[n - 1..];
        }
      }
      assert n == 0 ==> frames[..n] == [] && frames[n..] == frames;
    }
  }

  /** One text frame per message, each under its own key. */
  function ClientFrames(messages: seq<seq<byte>>, keys: seq<seq<byte>>): (frames: seq<Frame>)
    requires |keys| == |messages| && forall k :: k in keys ==> |k| == 4
    requires forall m :: m in messages ==> |m| < TWO63
    ensures forall f :: f in frames ==> f.Valid()
  {
    if messages == [] then []
    else [ClientFrame(messages[0], keys[0])] + ClientFrames(messages[1..], keys[1..])
  }

  /** The messages, with the empty ones left out. */
  function WithoutEmpty(messages: seq<seq<byte>>): seq<seq<byte>> {
    if messages == [] then []
    else if |messages[0]| == 0 then WithoutEmpty(messages[1..])
    else [messages[0]] + WithoutEmpty(messages[1..])
  }

  /** From the client's messages to the handler: whatever the keys, exactly the non-empty ones arrive, in order. */
  lemma {:induction false} MessagesArrive(messages: seq<seq<byte>>, keys: seq<seq<byte>>)
    requires |keys| == |messages| && forall k :: k in keys ==> |k| == 4
    requires forall m :: m in messages ==> |m| < TWO63
    ensures Deframe(Wires(ClientFrames(messages, keys))) == Outcome(WithoutEmpty(messages), [], false)
  {
    hide Parse, Frame.Wire;
    if messages == [] {
      NothingParsed();
    } else {
      var f, later := ClientFrame(messages[0], keys[0]), Wires(ClientFrames(messages[1..], keys[1..]));
      assert ClientFrames(messages, keys)[1..] == ClientFrames(messages[1..], keys[1..]);
      assert Wires(ClientFrames(messages, keys)) == f.Wire() + later;
      ParseComplete(f, later, ZERO_KEY);
      assert (f.Wire() + later)[|f.Wire()|..] == later;
      MessagesArrive(messages[1..], keys[1..]);
    }
  }

  lemma NothingParsed()
    ensures Parse([], ZERO_KEY) == None
  {
  }

  // ------------------------------------------------------------------ the code

  /** One call of the parser on a legal stream; the key array starts with arbitrary content. */
  method NextFrame(data: seq<byte>) returns (ok: bool, payload: seq<byte>, frameLen: nat, opcode: byte)
    requires |data| < TWO64 && LegalStream(data)
    ensures !ok ==> Deframe(data) == Outcome([], data, false)
    ensures ok ==> opcode == TEXT || opcode == CLOSE
    ensures ok && opcode == CLOSE ==> Deframe(data) == Outcome([], data, true)
    ensures ok && opcode == TEXT ==>
              && 0 < frameLen <= |data|
              && LegalStream(data[frameLen..])
              && var later := Deframe(data[frameLen..]);
                 Deframe(data) == later.(handled := NonEmpty(payload) + later.handled)
  {
    assert |ZERO_KEY| == 4;
    var stale: seq<byte> :| |stale| == 4;
    StaleUnused(data, stale, ZERO_KEY);
    LegalLengthFits(data);
    ok, payload, frameLen, opcode := ParseFrame(data, stale);
  }

  lemma DeframeEmpty()
    ensures Deframe([]) == Outcome([], [], false)
  {
  }

  /** With `done'` handled and `rest'` left, the outcome is what it was with `done` and `rest`. */
  predicate Continues(done: seq<seq<byte>>, rest: seq<byte>, done': seq<seq<byte>>, rest': seq<byte>) {
    var was, now := Deframe(rest), Deframe(rest');
    done + was.handled == done' + now.handled && was.rest == now.rest && was.closing == now.closing
  }

  lemma ContinuesAfterText(done: seq<seq<byte>>, data: seq<byte>, payload: seq<byte>, n: nat)
    requires 0 < n <= |data|
    requires var later := Deframe(data[n..]);
             Deframe(data) == later.(handled := NonEmpty(payload) + later.handled)
    ensures Continues(done, data, done + NonEmpty(payload), data[n..])
  {
    hide Deframe;
    var later := Deframe(data[n..]).handled;
    assert done + (NonEmpty(payload) + later) == done + NonEmpty(payload) + later;
  }

  /** One upgraded connection, as `onMessage` sees it. */
  class Receiver {
    const input: Buffer
    var handled: seq<seq<byte>> // payloads passed to handleWebSocketMessage
    var closing: bool           // shutdown has been asked for

    ghost predicate Valid()
      reads this, input, input.buffer
    {
      input.Valid() && |input.Contents()| < TWO64
    }

    ghost function View(): Outcome
      requires Valid()
      reads this, input, input.buffer
    {
      Outcome(handled, input.Contents(), closing)
    }

    constructor ()
      ensures Valid() && View() == Outcome([], [], false)
      ensures fresh(input) && fresh(input.buffer)
    {
      input := new Buffer();
      handled, closing := [], false;
    }

    /** One turn of the loop; `more` unless it broke off. */
    method TakeFrame(ghost was: seq<byte>) returns (more: bool)
      requires Valid() && LegalStream(was) && input.Contents() == was
      modifies this, input`readerIndex, input`writerIndex
      ensures Valid()
      ensures !more ==> handled == old(handled) && input.Contents() == was
                          && exists k :: Deframe(was) == Outcome([], was, k) && closing == (old(closing) || k)
      ensures more ==> |input.Contents()| < |was| && LegalStream(input.Contents()) && closing == old(closing)
                         && Continues(old(handled), was, handled, input.Contents())
    {
      var data := input.Peek();
      var ok, payload, frameLen, opcode := NextFrame(data);
      if !ok {
        return false;
      }
      if opcode == TEXT {
        if payload != [] {
          handled := handled + [payload];
        }
        assert handled == old(handled) + NonEmpty(payload);
      } else if opcode == CLOSE {
        closing := true;
        return false;
      }
      ContinuesAfterText(old(handled), data, payload, frameLen);
      input.Retrieve(frameLen);
      assert input.Contents() == was[frameLen..];
      more := true;
    }

    method OnMessage()
      requires Valid() && LegalStream(input.Contents())
      modifies this, input`readerIndex, input`writerIndex
      ensures Valid()
      ensures var now := Deframe(old(input.Contents()));
              View() == Outcome(old(handled) + now.handled, now.rest, old(closing) || now.closing)
    {
      while input.ReadableBytes() > 0
        invariant Valid() && LegalStream(input.Contents())
        invariant closing == old(closing)
        invariant Continues(old(handled), old(input.Contents()), handled, input.Contents())
        decreases |input.Contents()|
      {
        var more := TakeFrame(input.Contents());
        if !more {
          return;
        }
      }
      DeframeEmpty();
      assert input.Contents() == [];
    }

    /** One readable event: `handleRead` followed by the message callback. */
    method OnReadable(bytes: seq<byte>)
      requires Valid() && 0 < |bytes| <= input.ReadCapacity()
      requires LegalStream(input.Contents() + bytes) && |input.Contents()| + |bytes| < TWO64
      modifies this, input, input.buffer
      ensures Valid()
      ensures input.buffer == old(input.buffer) || fresh(input.buffer)
      ensures var now := Deframe(old(input.Contents()) + bytes);
              View() == Outcome(old(handled) + now.handled, now.rest, old(closing) || now.closing)
    {
      var _ := input.ReadFd(Delivered(bytes));
      OnMessage();
    }
  }

  /** How much of a requested size one read delivers when `left` bytes are still to come. */
  predicate Delivers(size: nat, left: int, n: nat) {
    n <= Min(size, left) && (n == Min(size, left) || n >= EXTRA_SIZE)
  }

  /** `chunks` are the first reads of `stream`, one for each size. */
  ghost predicate Cuts(stream: seq<byte>, sizes: seq<nat>, chunks: seq<seq<byte>>) {
    && |chunks| <= |sizes|
    && Flatten(chunks) <= stream
    && forall i :: 0 <= i < |chunks| ==> Delivers(sizes[i], |stream| - |Flatten(chunks[..i])|, |chunks[i]|)
  }

  lemma NoCut(stream: seq<byte>, sizes: seq<nat>)
    ensures Cuts(stream, sizes, [])
  {
  }

  lemma NextCut(stream: seq<byte>, sizes: seq<nat>, chunks: seq<seq<byte>>, n: nat)
    requires Cuts(stream, sizes, chunks) && |chunks| < |sizes|
    requires Delivers(sizes[|chunks|], |stream| - |Flatten(chunks)|, n)
    ensures var got := |Flatten(chunks)|;
            var chunks' := chunks + [stream[got..got + n]];
            Cuts(stream, sizes, chunks') && Flatten(chunks') == stream[..got + n]
  {
    var got := |Flatten(chunks)|;
    var chunks' := chunks + [stream[got..got + n]];
    FlattenSnoc(chunks, stream[got..got + n]);
    hide Flatten;
    forall i | 0 <= i < |chunks'|
      ensures Delivers(sizes[i], |stream| - |Flatten(chunks'[..i])|, |chunks'[i]|)
    {
      assert chunks'[..i] == chunks[..i];
      assert chunks[..|chunks|] == chunks;
    }
  }

  /**
   * A whole connection: the stream arrives in reads of any sizes, cut short only where one
   * `readv` is full, and the outcome is that of the reads, and of the bytes alone.
   */
  method Serve(stream: seq<byte>, sizes: seq<nat>)
    returns (chunks: seq<seq<byte>>, handled: seq<seq<byte>>, rest: seq<byte>, closing: bool)
    requires LegalStream(stream) && |stream| < TWO64
    ensures |chunks| == |sizes| && Cuts(stream, sizes, chunks)
    ensures Outcome(handled, rest, closing) == Reads(chunks) == Deframe(Flatten(chunks))
  {
    hide Deframe, LegalStream, Reads, Cuts;
    var r := new Receiver();
    var got: nat := 0;
    chunks := [];
    DeframeEmpty();
    NoCut(stream, sizes);
    for i := 0 to |sizes|
      invariant r.Valid() && fresh(r) && fresh(r.input) && fresh(r.input.buffer)
      invariant |chunks| == i && got <= |stream| && Flatten(chunks) == stream[..got]
      invariant Cuts(stream, sizes, chunks)
      invariant r.View() == Deframe(stream[..got])
      invariant |r.input.Contents()| <= got
    {
      var n := Min(Min(sizes[i], r.input.ReadCapacity()), |stream| - got);
      if n > 0 {
        NextRead(stream, got, n);
        r.OnReadable(stream[got..got + n]);
      }
      NextCut(stream, sizes, chunks, n);
      chunks := chunks + [stream[got..got + n]];
      got := got + n;
    }
    ChunkingIndependence(chunks);
    handled, rest, closing := r.handled, [], r.closing;
    rest := r.input.Peek();
  }

  /** Everything one more read of `n` bytes needs and gives. */
  lemma NextRead(stream: seq<byte>, got: nat, n: nat)
    requires LegalStream(stream) && got + n <= |stream|
    ensures var first := Deframe(stream[..got]);
            var bytes := stream[got..got + n];
            var now := Deframe(first.rest + bytes);
            && LegalStream(first.rest + bytes)
            && Deframe(stream[..got + n]) ==
               Outcome(first.handled + now.handled, now.rest, first.closing || now.closing)
            && |now.rest| <= got + n
  {
    hide Deframe, LegalStream;
    var before, bytes := stream[..got], stream[got..got + n];
    assert before + bytes == stream[..got + n];
    assert stream == stream[..got + n] + stream[got + n..];
    LegalPrefix(stream[..got + n], stream[got + n..]);
    LegalRest(before, bytes);
    DeframeSplit(before, bytes);
    if Deframe(before).closing {
      ClosingStays(before, bytes);
    }
    RestShrinks(stream[..got + n]);
  }

  lemma RestShrinks(s: seq<byte>)
    ensures |Deframe(s).rest| <= |s|
    decreases |s|
  {
  }
}
