/** The in-loop methods of mymuduo/TcpConnection.cpp, on a real buffer, channel and poller. */
module TcpConnections {
  import opened Bytes
  import opened Buffers
  import opened Epoll
  import opened Poller
  import opened OutputStream

  class TcpConnection {
    const cfg: Settings
    const output: Buffer
    const channel: Channel
    var state: St
    ghost var wire: seq<byte>
    ghost var accepted: seq<seq<byte>>
    ghost var shutdowns: nat
    ghost var notes: seq<Note>

    ghost predicate Sound()
      reads this, output, output.buffer
    {
      output.Valid()
    }

    ghost function View(): Conn
      requires Sound()
      reads this, output, output.buffer, channel
    {
      Conn(state, channel.IsWriting(), output.Contents(), wire, accepted, shutdowns, notes)
    }

    /** The stream invariant, and the channel's registration in each state. */
    ghost predicate Valid()
      reads this, output, output.buffer, channel
    {
      && Sound()
      && Inv(cfg, View())
      && match state
         case Connecting => channel.index == New && channel.events == NONE_EVENT
         case Connected => channel.index == Added && channel.IsReading()
         case Disconnecting => channel.index == Added && channel.IsReading()
         case Disconnected => channel.events == NONE_EVENT
    }

    /** The connection is valid and so is the poller its channel lives in. */
    ghost predicate Usable()
      reads this, output, output.buffer, channel, channel.poller, channel.poller.all
    {
      Valid() && channel.Ready() && channel.poller.Valid()
    }

    constructor (cfg: Settings, poller: EPollPoller, sockfd: Fd)
      requires poller.Valid() && sockfd !in poller.channels
      modifies poller`all
      ensures Usable() && View() == FRESH && fresh(output) && fresh(output.buffer) && fresh(channel)
      ensures this.cfg == cfg && channel.poller == poller && channel.fd == sockfd
    {
      this.cfg := cfg;
      output := new Buffer();
      channel := new Channel(poller, sockfd);
      state := Connecting;
      wire, accepted, shutdowns, notes := [], [], 0, [];
      new;
    }

    method ConnectEstablished()
      requires Usable() && state == Connecting
      modifies this, channel, channel.poller
      ensures Usable() && View() == Established(old(View()))
    {
      state := Connected;
      channel.EnableReading();
      StepKeepsInv(cfg, old(View()), Up);
    }

    /** Tries the socket first if nothing is ahead; `res` is what that one `write` reports. */
    method SendInLoop(data: seq<byte>, res: WriteResult)
      requires Usable()
      requires res.Wrote? ==> res.n <= |data|
      modifies this, output, output.buffer, channel, channel.poller
      ensures Sound() && channel.Ready() && channel.poller.Valid()
      ensures output.buffer == old(output.buffer) || fresh(output.buffer)
      ensures View() == OutputStream.SendInLoop(cfg, old(View()), data, res)
      ensures Fits(old(View()), data, res) ==> Usable()
    {
      assert state == Connecting ==> output.Contents() == [];
      hide OutputStream.Inv, EPollPoller.Valid;
      if state == Disconnected {
        return;
      }
      SendFitsExactly(cfg, View(), data, res);
      WriteOrBuffer(data, res);
    }

    method WriteOrBuffer(data: seq<byte>, res: WriteResult)
      requires Sound() && channel.Ready() && channel.poller.Valid() && state != Disconnected
      requires res.Wrote? ==> res.n <= |data|
      modifies this`wire, this`accepted, this`notes, output, output.buffer, channel, channel.poller
      ensures Sound() && channel.Ready() && channel.poller.Valid()
      ensures output.buffer == old(output.buffer) || fresh(output.buffer)
      ensures View() == OutputStream.SendInLoop(cfg, old(View()), data, res)
      ensures channel.IsReading() == old(channel.IsReading())
      ensures || (channel.index == old(channel.index) && channel.events == old(channel.events))
              || (channel.index == Added && !DropsMessage(old(View()), res))
    {
      hide EPollPoller.Valid;
      var nwrote := 0;
      var faultError := false;
      if !channel.IsWriting() && output.ReadableBytes() == 0 {
        if res.Wrote? {
          nwrote := res.n;
        } else {
          faultError := res.PeerGone?;
        }
      }
      if !faultError {
        wire, accepted := wire + data[..nwrote], accepted + [data];
        if |data| - nwrote > 0 {
          BufferRemaining(data[nwrote..]);
        }
      }
    }

    /** Appends what the socket did not take and turns on write interest. */
    method BufferRemaining(remaining: seq<byte>)
      requires Sound() && channel.Ready() && channel.poller.Valid()
      requires |remaining| > 0
      modifies this`notes, output, output.buffer, channel, channel.poller
      ensures Sound() && channel.Ready() && channel.poller.Valid()
      ensures channel.IsReading() == old(channel.IsReading())
      ensures channel.index == Added || (channel.index == old(channel.index) && channel.events == old(channel.events))
      ensures output.buffer == old(output.buffer) || fresh(output.buffer)
      ensures View() == Buffered(cfg, old(View()), remaining)
    {
      hide EPollPoller.Valid;
      var oldLen := output.ReadableBytes();
      if oldLen + |remaining| >= cfg.mark && oldLen < cfg.mark && cfg.notify {
        notes := notes + [Notice(oldLen + |remaining|)];
      }
      output.Append(remaining);
      assert channel.poller.Valid();
      if !channel.IsWriting() {
        channel.EnableWriting();
        assert output.Contents() == old(output.Contents()) + remaining;
      }
    }

    method Send(data: seq<byte>, res: WriteResult)
      requires Usable()
      requires res.Wrote? ==> res.n <= |data|
      modifies this, output, output.buffer, channel, channel.poller
      ensures Usable() && (output.buffer == old(output.buffer) || fresh(output.buffer))
      ensures View() == OutputStream.Send(cfg, old(View()), data, res)
    {
      if state == Connected {
        SendInLoop(data, res);
      }
    }

    method ShutdownInLoop()
      requires Sound()
      modifies this`shutdowns
      ensures Sound() && View() == OutputStream.ShutdownInLoop(old(View()))
    {
      if !channel.IsWriting() {
        shutdowns := shutdowns + 1;
      }
    }

    method Shutdown()
      requires Usable()
      modifies this
      ensures Usable() && View() == OutputStream.Shutdown(old(View()))
    {
      StepKeepsInv(cfg, View(), ShutdownCall);
      if state == Connected {
        state := Disconnecting;
        ShutdownInLoop();
      }
    }

    /** The socket takes a part of the pending output; `res` is what that `write` reports. */
    method HandleWrite(res: WriteResult)
      requires Usable()
      requires res.Wrote? ==> res.n <= |output.Contents()|
      modifies this, output, channel, channel.poller
      ensures Usable() && output.buffer == old(output.buffer)
      ensures View() == OutputStream.HandleWrite(old(View()), res)
    {
      hide Conserved, ShutdownExact, HighWaterExact;
      HandleWriteKeepsInv(cfg, View(), res);
      if channel.IsWriting() {
        if res.Wrote? && res.n > 0 {
          Drain(res.n);
          assert channel.poller.Valid();
          if output.ReadableBytes() == 0 {
            FinishWriting();
          }
        }
      }
    }

    /** `n` pending bytes have gone to the socket. */
    method Drain(n: nat)
      requires Sound() && n <= |output.Contents()|
      modifies this`wire, this`notes, output`readerIndex, output`writerIndex
      ensures Sound()
      ensures View() == (var c := old(View());
                         c.(wire := c.wire + c.pending[..n], pending := c.pending[n..],
                            notes := c.notes + [Drained(|c.pending| - n)]))
    {
      wire := wire + output.Contents()[..n];
      output.Retrieve(n);
      notes := notes + [Drained(|output.Contents()|)];
    }

    method FinishWriting()
      requires Sound() && channel.Ready() && channel.poller.Valid()
      requires channel.index == Added && channel.IsReading()
      modifies this`shutdowns, channel, channel.poller
      ensures Sound() && channel.Ready() && channel.poller.Valid() && channel.index == Added && channel.IsReading()
      ensures View() == (var c := old(View()).(writing := false);
                         if c.st == Disconnecting then OutputStream.ShutdownInLoop(c) else c)
    {
      channel.DisableWriting();
      if state == Disconnecting {
        ShutdownInLoop();
      }
    }

    method HandleClose()
      requires Usable() && state != Connecting
      modifies this, channel, channel.poller
      ensures Usable() && View() == OutputStream.HandleClose(old(View()))
    {
      StepKeepsInv(cfg, View(), Close);
      state := Disconnected;
      channel.DisableAll();
    }

    method ConnectDestroyed()
      requires Usable()
      modifies this, channel, channel.poller
      ensures Sound() && channel.poller.Valid() && channel.index == New
      ensures channel.fd !in channel.poller.kernel && channel.fd !in channel.poller.channels
      ensures View() == if old(state) == Connected then OutputStream.HandleClose(old(View())) else old(View())
    {
      if state == Connected {
        state := Disconnected;
        channel.DisableAll();
      }
      channel.Remove();
    }

    /** What the kernel waits for: it reports writability exactly while output is pending. */
    lemma KernelInterest()
      requires Usable() && (state == Connected || state == Disconnecting)
      ensures channel.fd in channel.poller.kernel
      ensures Wants(channel.poller.kernel[channel.fd].events, WRITE_EVENT) <==> output.Contents() != []
      ensures Wants(channel.poller.kernel[channel.fd].events, READ_EVENT)
    {
      assert channel.poller.InStep(channel);
    }
  }
}
