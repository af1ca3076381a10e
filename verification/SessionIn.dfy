/** Every action keeps the direction from the host to the guest in order. */
module SessionIn {
  import opened Options
  import opened Xdr
  import opened Protocol
  import opened Flow
  import opened Session
  import opened SessionInvariant
  import opened SessionOut
  import H = HostMachine
  import G = GuestMachine
  import HostInvariant
  import GuestInvariant

  // What the host does to the bytes that the guest will read.

  lemma OutboxSendable(h: H.Host)
    requires H.OutboxOk(h)
    ensures AllSendable(h.log.outbox)
  {
    forall i | 0 <= i < |h.log.outbox| ensures Sendable(h.log.outbox[i]) {
      assert H.OutboxMessage(h.log.outbox, i, h.log.stdinRead, h.localEOF, h.state in {H.Finished, H.Inactive});
    }
  }

  lemma PostReads(h: H.Host, g: G.Guest, x: seq<byte>, m: Message)
    requires Reads(h, g, x) && Sendable(m) && h.tx.None? && !h.log.cut
    requires h.state == H.Running || (h.state in {H.Stopping, H.Finished} && g.state == G.Running)
    ensures Reads(H.Post(h, m), g, x)
  {
    hide EncodeI32, Encode, Queue, Lead, LeadPrefix, Wire;
    assert x + TxRest(h.tx) == x;
    WireAppend(h.log.outbox, m);
    if g.state == G.Syncing {
      LeadAppend(x, Wire(h.log.outbox), Encode(m));
    } else if !h.log.garbled {
      QueuePost(g.log.received, h.log.outbox, x, m);
    }
  }

  lemma DropReads(h: H.Host, g: G.Guest, x: seq<byte>)
    requires (h.tx.Some? ==> H.Sending(h)) && H.OutboxOk(h) && Reads(h, g, x)
    requires h.state == H.Running && g.state == G.Running
    ensures Reads(H.DropTx(h), g, x)
  {
    hide EncodeI32, Encode, Queue, Wire, H.OutboxOk;
    OutboxSendable(h);
    var flight := x + TxRest(h.tx);
    assert !h.log.cut && !h.log.garbled by { assert H.OutboxOk(h); HostRunning(h); }
    if h.tx.Some? {
      if h.tx.value.offset == 0 {
        assert TxRest(h.tx) == Encode(H.Last(h.log.outbox));
        QueueWithdraw(g.log.received, h.log.outbox, x);
      } else {
        QueueTruncate(g.log.received, h.log.outbox, flight, true, x);
      }
      assert x + TxRest(None) == x;
    }
  }

  lemma HostRunning(h: H.Host)
    requires H.OutboxOk(h) && h.state == H.Running
    ensures !h.log.cut && !h.log.garbled
  {
  }

  lemma AllWaitShorter(x: seq<byte>, more: seq<byte>)
    requires AllWait(x + more)
    ensures AllWait(x) && AllWait(more)
  {
    forall i | 0 <= i < |x| ensures x[i] == WAIT {
      assert (x + more)[i] == x[i];
    }
    forall i | 0 <= i < |more| ensures more[i] == WAIT {
      assert (x + more)[|x| + i] == more[i];
    }
  }

  /** The host goes away. */
  lemma EndReads(h: H.Host, g: G.Guest, x: seq<byte>)
    requires H.StateOk(h) && H.OutboxOk(h) && Reads(h, g, x)
    ensures Reads(H.DropTx(h).(state := H.Inactive), g, x)
  {
    hide EncodeI32, Encode, Queue, Lead, LeadPrefix, Wire, H.OutboxShape;
    OutboxSendable(h);
    var d := H.DropTx(h);
    var flight := x + TxRest(h.tx);
    assert x + TxRest(None) == x;
    if h.tx.None? {
      assert flight == x;
    }
    match g.state
    case Waiting => AllWaitShorter(x, TxRest(h.tx));
    case Syncing => EndLead(h, g, x);
    case Running =>
      if !h.log.garbled {
        if h.tx.Some? && h.tx.value.offset == 0 && h.log.outbox != [] && h.state in {H.Running, H.Finished} {
          assert TxRest(h.tx) == Encode(H.Last(h.log.outbox));
          QueueWithdraw(g.log.received, h.log.outbox, x);
          QueueTruncate(g.log.received, d.log.outbox, x, true, x);
        } else {
          QueueTruncate(g.log.received, h.log.outbox, flight, h.state != H.Inactive && !h.log.cut, x);
        }
      }
  }

  lemma EndLead(h: H.Host, g: G.Guest, x: seq<byte>)
    requires H.StateOk(h) && H.OutboxOk(h) && Reads(h, g, x) && g.state == G.Syncing
    ensures LeadPrefix(x, Wire(H.DropTx(h).log.outbox))
  {
    hide EncodeI32, Encode, Lead, LeadPrefix, H.OutboxShape;
    OutboxSendable(h);
    var flight := x + TxRest(h.tx);
    assert h.tx.None? ==> flight == x;
    match h.state
    case Waiting =>
      AllWaitShorter(x, TxRest(h.tx));
      AllWaitIsLeadPrefix(x, Wire(h.log.outbox));
    case Syncing => LeadIsLeadPrefix(flight, [], x);
    case Running =>
      if h.tx.Some? && h.tx.value.offset == 0 {
        var front := H.DropTx(h).log.outbox;
        var m := H.Last(h.log.outbox);
        assert h.log.outbox == front + [m];
        WireAppend(front, m);
        assert TxRest(h.tx) == Encode(m);
        LeadWithdraw(x, Wire(front), Encode(m));
        LeadIsLeadPrefix(x, Wire(front), x);
      } else {
        LeadIsLeadPrefix(flight, Wire(h.log.outbox), x);
      }
    case _ =>
  }

  /** The fields of the host that the guest's side depends on. */
  ghost predicate SameSide(h: H.Host, n: H.Host) {
    && n.tx == h.tx && n.state == h.state && n.log.outbox == h.log.outbox
    && n.log.cut == h.log.cut && n.log.garbled == h.log.garbled
  }

  lemma ReadsSame(h: H.Host, n: H.Host, g: G.Guest, x: seq<byte>)
    requires Reads(h, g, x) && SameSide(h, n)
    ensures Reads(n, g, x)
  {
    hide EncodeI32, Queue, Lead, LeadPrefix, AllWait, Wire;
  }

  lemma CloseReads(h: H.Host, n: H.Host, g: G.Guest, x: seq<byte>, error: bool)
    requires H.HostOk(h) && Reads(h, g, x)
    requires n == H.Close(h, error) || n == H.Detach(h) || n == H.Fail(h, IoFault)
    ensures Reads(n, g, x)
  {
    hide EncodeI32, Reads, H.OutboxOk, H.StateOk, H.DeliveryOk, H.SignalsOk, H.QueuesOk;
    if h.state == H.Inactive {
      ReadsSame(h, n, g, x);
    } else {
      EndReads(h, g, x);
      ReadsSame(H.DropTx(h).(state := H.Inactive), n, g, x);
    }
  }

  lemma FinishReads(h: H.Host, g: G.Guest, x: seq<byte>)
    requires H.OutboxOk(h) && Reads(h, g, x) && g.state == G.Running
    requires (h.state == H.Running && (h.tx.Some? ==> H.Sending(h))) || (h.state == H.Stopping && h.tx.None?)
    ensures Reads(H.SetState(h, H.Finished), g, x)
  {
    hide EncodeI32, Encode, Queue, Wire, H.OutboxShape, H.Post, H.Sending;
    var d := H.DropTx(h);
    if h.state == H.Running {
      DropReads(h, g, x);
    }
    var f := d.(state := H.Finished, log := d.log.(garbled := d.log.cut));
    assert Reads(f, g, x);
    var m := QuitMessage(H.HeaderSerial(h.serial));
    if d.log.cut {
      WireAppend(d.log.outbox, m);
      PostSendable(f, m);
    } else {
      PostReads(f, g, x, m);
    }
  }

  lemma PostSendable(h: H.Host, m: Message)
    requires AllSendable(h.log.outbox) && Sendable(m)
    ensures var n := H.Post(h, m);
            AllSendable(n.log.outbox) && n.log.garbled == h.log.garbled && n.state == h.state
  {
    hide EncodeI32, Encode;
  }

  /** EXIT is dispatched while input may still be on its way out. */
  lemma DeliverReads(h: H.Host, m: Message, g: G.Guest, x: seq<byte>)
    requires H.OutboxOk(h) && Reads(h, g, x) && g.state == G.Running
    requires h.state == H.Running && (h.tx.Some? ==> H.Sending(h))
    requires m.header.status == STATUS_OK
    requires m.header.proc in {STDOUT, STDERR} || (m.header.proc == EXIT && |m.payload| == 4)
    ensures Reads(H.Deliver(h, m), g, x)
  {
    hide EncodeI32, Reads, H.DropTx, H.Post, H.OutboxShape, Encode, DecodeI32;
    if m.header.proc == EXIT {
      var told := h.(log := h.log.(received := h.log.received + [m],
                                   exited := h.log.exited + [DecodeI32(m.payload[..4])]));
      ReadsSame(h, told, g, x);
      assert H.OutboxOk(told);
      if h.out == [] && h.err == [] {
        FinishReads(told, g, x);
      } else {
        StopReads(told, g, x);
      }
    } else {
      ReadsSame(h, H.Deliver(h, m), g, x);
    }
  }

  lemma StopReads(h: H.Host, g: G.Guest, x: seq<byte>)
    requires H.OutboxOk(h) && Reads(h, g, x) && g.state == G.Running
    requires h.state == H.Running && (h.tx.Some? ==> H.Sending(h))
    ensures Reads(H.SetState(h, H.Stopping), g, x)
  {
    hide EncodeI32, Encode, Queue, Wire, H.OutboxShape, H.Sending, H.DropTx;
    DropReads(h, g, x);
    DropState(h);
  }

  lemma DropState(h: H.Host)
    ensures H.DropTx(h).state == h.state
  {
  }

  // The host's events.  `x` is what has left the host for the guest.

  lemma StdinReads(h: H.Host, data: seq<byte>, g: G.Guest, x: seq<byte>)
    requires H.HostOk(h) && H.Enabled(h, H.ReadsStdin(data)) && Reads(h, g, x)
    ensures Reads(H.StdinRead(h, data), g, x)
  {
    hide EncodeI32, Reads, H.Post, H.DropTx, H.OutboxShape, H.DeliveryOk, H.SignalsOk, H.QueuesOk;
    if data != [] && h.escape == Some(data[0]) {
      CloseReads(h, H.Close(h, false), g, x, false);
    } else {
      var got := h.(localEOF := h.localEOF || data == [],
                    log := h.log.(stdinRead := h.log.stdinRead + data));
      ReadsSame(h, got, g, x);
      PostReads(got, g, x, StdinMessage(data, H.HeaderSerial(h.serial)));
    }
  }

  lemma DrainedReads(h: H.Host, other: seq<byte>, g: G.Guest, x: seq<byte>)
    requires H.OutboxOk(h) && Reads(h, g, x) && h.state in {H.Running, H.Stopping}
    requires h.state == H.Stopping ==> h.tx.None? && g.state == G.Running
    ensures Reads(H.Drained(h, other), g, x)
  {
    hide EncodeI32, Reads, H.SetState, H.OutboxShape;
    if h.state == H.Stopping {
      if |other| == 0 {
        FinishReads(h, g, x);
      } else {
        ReadsSame(h, H.Drained(h, other), g, x);
      }
    } else {
      ReadsSame(h, H.Drained(h, other), g, x);
    }
  }

  lemma WriteReads(h: H.Host, e: H.HostEvent, g: G.Guest, x: seq<byte>)
    requires H.HostOk(h) && H.Enabled(h, e) && (e.WritesStdout? || e.WritesStderr?) && Reads(h, g, x)
    requires h.state == H.Stopping ==> g.state == G.Running
    ensures Reads(H.Next(h, e), g, x)
  {
    hide EncodeI32, Reads, H.Drained, H.OutboxShape, H.DeliveryOk, H.SignalsOk;
    if e.WritesStdout? {
      var offset := h.outOffset + e.count;
      var w := h.(log := h.log.(stdoutWritten := h.log.stdoutWritten + h.out[h.outOffset..offset]));
      if offset == |h.out| {
        var d := w.(out := [], outOffset := 0);
        ReadsSame(h, d, g, x);
        DrainedReads(d, h.err, g, x);
      } else {
        ReadsSame(h, w.(outOffset := offset), g, x);
      }
    } else {
      var offset := h.errOffset + e.count;
      var start := H.StderrStart(h);
      var w := h.(log := h.log.(stderrWritten := h.log.stderrWritten + h.err[start..start + e.count]));
      if offset == |h.err| {
        var d := w.(err := [], errOffset := 0);
        ReadsSame(h, d, g, x);
        DrainedReads(d, h.out, g, x);
      } else {
        ReadsSame(h, w.(errOffset := offset), g, x);
      }
    }
  }

  lemma TimerReads(h: H.Host, g: G.Guest, x: seq<byte>)
    requires H.HostOk(h) && H.Enabled(h, H.TimerFires) && Reads(h, g, x)
    requires h.state == H.Waiting ==> g.state != G.Running
    ensures Reads(H.TimerFired(h), g, x)
  {
    hide EncodeI32, Queue, Lead, LeadPrefix, Wire, H.OutboxOk, H.DeliveryOk, H.SignalsOk;
    if h.state == H.Waiting && h.tx.None? {
      assert x + TxRest(h.tx) == x;
      assert TxRest(H.TimerFired(h).tx) == [WAIT];
    } else {
      ReadsSame(h, H.TimerFired(h), g, x);
    }
  }

  /** Bytes move from tx to the channel. */
  lemma SendReads(h: H.Host, count: nat, g: G.Guest, x: seq<byte>)
    requires H.HostOk(h) && H.Enabled(h, H.Sends(count)) && Reads(h, g, x)
    ensures Reads(H.Send(h, count), g, x + TxRest(h.tx)[..count])
  {
    hide EncodeI32, Reads, Encode, H.ProcessTx, H.OutboxShape, H.DeliveryOk, H.SignalsOk;
    var rest := TxRest(h.tx);
    var offset := h.tx.value.offset + count;
    var x' := x + rest[..count];
    if offset == |h.tx.value.wire| {
      assert rest[..count] == rest;
      SentReads(h, g, x);
    } else {
      var n := h.(tx := Some(Tx(h.tx.value.wire, offset)));
      assert TxRest(n.tx) == rest[count..];
      assert x + rest == x' + rest[count..];
      MovedReads(h, n, g, x, x');
    }
  }

  lemma MovedReads(h: H.Host, n: H.Host, g: G.Guest, x: seq<byte>, x': seq<byte>)
    requires Reads(h, g, x) && n == h.(tx := n.tx) && x + TxRest(h.tx) == x' + TxRest(n.tx)
    ensures Reads(n, g, x')
  {
    hide EncodeI32, Queue, Lead, LeadPrefix, Wire, AllWait;
  }

  /** The packet in tx is gone: the handshake goes on, or the console is closed. */
  lemma SentReads(h: H.Host, g: G.Guest, x: seq<byte>)
    requires H.HostOk(h) && H.Wants(h).writable && Reads(h, g, x)
    ensures Reads(H.ProcessTx(h.(tx := None), h.tx.value.wire), g, x + TxRest(h.tx))
  {
    hide EncodeI32, Queue, Lead, LeadPrefix, AllWait, Encode, H.OutboxShape, H.DeliveryOk, H.SignalsOk;
    var x' := x + TxRest(h.tx);
    var t := h.(tx := None);
    assert x' + TxRest(t.tx) == x';
    MovedReads(h, t, g, x, x');
    if h.state == H.Finished && g.state == G.Running && !h.log.garbled {
      QueueTruncate(g.log.received, h.log.outbox, x', true, x');
    }
  }

  // The host's events, in the session.

  /** The guest, having sent SYNC, has nothing more to send until it runs the command. */
  lemma SyncSent(s: Session)
    requires OutFlow(s) && G.TxOk(s.guest) && s.host.state !in {H.Waiting, H.Inactive} && s.guest.state == G.Syncing
    ensures s.guest.tx.None?
  {
    hide EncodeI32, Encode;
    assert s.guest.tx.Some? && TxOpen(s.guest.tx.value) ==> |TxRest(s.guest.tx)| > 0;
  }

  lemma SyncClause(s: Session, e: H.HostEvent)
    requires Inv(s) && Enabled(s, OfHost(e)) && G.Looping(s.guest) && s.guest.state == G.Syncing
    ensures SYNC in Next(s, OfHost(e)).toGuest ==> s.guest.tx.None?
  {
    hide EncodeI32, H.Next, H.OutboxOk, H.DeliveryOk, H.SignalsOk, H.QueuesOk, InData, G.SentOk, G.StdinOk, G.ExitOk,
      G.RxOk, Queue, Encode;
    if s.host.state !in {H.Waiting, H.Inactive} {
      SyncSent(s);
    } else if e.Sends? {
      assert TxRest(s.host.tx) == [WAIT];
    }
  }

  lemma StatesFit(s: Session)
    requires Inv(s) && G.Looping(s.guest)
    ensures s.host.state == H.Waiting ==> s.guest.state != G.Running
    ensures s.host.state in {H.Stopping, H.Finished} ==> s.guest.state == G.Running
  {
    hide EncodeI32, Queue, H.HostOk, G.GuestOk, InData, Wire, Lead, LeadPrefix, AllWait;
  }

  lemma HostReadsSend(s: Session, count: nat)
    requires Inv(s) && Enabled(s, OfHost(H.Sends(count))) && G.Looping(s.guest)
    ensures var n := Next(s, OfHost(H.Sends(count))); Reads(n.host, n.guest, RxData(n.guest.rx) + n.toGuest)
  {
    hide EncodeI32, Reads, H.HostOk, G.GuestOk, InData, OutFlow, H.Send;
    SendReads(s.host, count, s.guest, RxData(s.guest.rx) + s.toGuest);
    Associative(RxData(s.guest.rx), s.toGuest, TxRest(s.host.tx)[..count]);
  }

  lemma HostReadsStep(s: Session, e: H.HostEvent)
    requires Inv(s) && Enabled(s, OfHost(e)) && G.Looping(s.guest) && !e.Receives?
    ensures var n := Next(s, OfHost(e)); Reads(n.host, n.guest, RxData(n.guest.rx) + n.toGuest)
  {
    StatesFit(s);
    hide EncodeI32, Reads, H.HostOk, G.GuestOk, InData, OutFlow, TxRest;
    hide EncodeI32, H.Send, H.TimerFired, H.StdinRead, H.StdoutWrite, H.StderrWrite, H.Detach, H.Fail, H.Receive;
    var g := s.guest;
    var x := RxData(g.rx) + s.toGuest;
    var h := s.host;
    match e
    case Sends(count) => HostReadsSend(s, count);
    case TimerFires => TimerReads(h, g, x);
    case ReadsStdin(data) => StdinReads(h, data, g, x);
    case WritesStdout(_) => WriteReads(h, e, g, x);
    case WritesStderr(_) => WriteReads(h, e, g, x);
    case HitsIoError => CloseReads(h, H.Fail(h, IoFault), g, x, true);
    case IsDetached => CloseReads(h, H.Detach(h), g, x, true);
  }

  lemma HandshakeByteReads(s: Session, chunk: seq<byte>)
    requires Inv(s) && Enabled(s, OfHost(H.Receives(chunk))) && s.host.state == H.Waiting && G.Looping(s.guest)
    ensures Reads(H.Receive(s.host, chunk), s.guest, RxData(s.guest.rx) + s.toGuest)
  {
    hide EncodeI32, H.Receive, H.OutboxOk, H.DeliveryOk, H.QueuesOk, InData, Queue, Wire, LeadPrefix, G.RxOk,
      G.SentOk, G.StdinOk, G.ExitOk;
    var x := RxData(s.guest.rx) + s.toGuest;
    assert |chunk| == 1 && s.host.rx == Some(OneByte);
    HandshakeByte(s.host, chunk);
    if chunk[0] == SYNC {
      assert ToHost(s)[0] == SYNC;
      assert s.guest.state == G.Syncing;
      AllWaitShorter(x, TxRest(s.host.tx));
      assert (x + [SYNC])[..|x|] == x;
    }
  }

  lemma FrameReads(s: Session, chunk: seq<byte>)
    requires Inv(s) && Enabled(s, OfHost(H.Receives(chunk))) && s.host.state == H.Running && G.Looping(s.guest)
    requires |s.host.rx.value.data + chunk| == s.host.rx.value.length > LEN_MAX
    ensures Reads(H.Receive(s.host, chunk), s.guest, RxData(s.guest.rx) + s.toGuest)
  {
    hide EncodeI32, PayloadOf, Queue, DecodeLength, H.Dispatch, H.Deliver, H.DeliveryOk, H.QueuesOk, H.OutboxShape,
      G.StdinOk, G.ExitOk, Reads, InData, Encode;
    HostReceives(s, chunk);
    var data := s.host.rx.value.data + chunk;
    var rest := s.toHost[|chunk|..] + TxRest(s.guest.tx);
    var x := RxData(s.guest.rx) + s.toGuest;
    assert ToHost(s) == data + rest;
    FrameReceived(s.host, chunk, s.guest, rest);
    var t := s.host.(rx := None);
    var m := s.guest.log.sent[|s.host.log.received|];
    ReadsSame(s.host, t, s.guest, x);
    DeliverReads(t, m, s.guest, x);
    ReadsSame(H.Deliver(t, m), H.Receive(s.host, chunk), s.guest, x);
  }

  lemma HostReads(s: Session, e: H.HostEvent)
    requires Inv(s) && Enabled(s, OfHost(e)) && G.Looping(s.guest)
    ensures var n := Next(s, OfHost(e)); Reads(n.host, n.guest, RxData(n.guest.rx) + n.toGuest)
  {
    if e.Receives? {
      hide EncodeI32, Reads, H.HostOk, G.GuestOk, InData, OutFlow, H.Receive, Queue;
      HostReceives(s, e.chunk);
      assert H.StateOk(s.host) by { HostStateOk(s.host); }
      if s.host.state == H.Waiting {
        HandshakeByteReads(s, e.chunk);
      } else if |s.host.rx.value.data + e.chunk| < s.host.rx.value.length || s.host.rx.value.length == LEN_MAX {
        PartOut(s, e.chunk);
        ReadsSame(s.host, H.Receive(s.host, e.chunk), s.guest, RxData(s.guest.rx) + s.toGuest);
      } else {
        FrameReads(s, e.chunk);
      }
    } else {
      HostReadsStep(s, e);
    }
  }

  lemma HostStateOk(h: H.Host)
    requires H.HostOk(h)
    ensures H.StateOk(h)
  {
  }

  /** What the host never takes back. */
  ghost predicate Forward(h: H.Host, n: H.Host) {
    && (h.state !in {H.Waiting, H.Syncing} ==> n.state !in {H.Waiting, H.Syncing})
    && (h.log.garbled ==> n.log.garbled)
    && (h.localEOF ==> n.localEOF)
    && h.log.stdinRead <= n.log.stdinRead
    && (h.localEOF ==> n.log.stdinRead == h.log.stdinRead)
  }

  lemma CloseForward(h: H.Host, error: bool, fault: Fault)
    ensures Forward(h, H.Close(h, error)) && Forward(h, H.Fail(h, fault)) && Forward(h, H.Detach(h))
  {
  }

  lemma SetStateForward(h: H.Host, state: H.ConsoleState)
    requires state != H.Waiting && (state == H.Syncing ==> h.state == H.Waiting)
    requires state == H.Finished ==> !h.log.garbled
    ensures Forward(h, H.SetState(h, state))
  {
    hide EncodeI32, Encode;
  }

  lemma DrainedForward(h: H.Host, other: seq<byte>)
    requires h.state != H.Inactive && (h.state == H.Stopping ==> !h.log.garbled)
    ensures Forward(h, H.Drained(h, other))
  {
    hide EncodeI32, H.SetState;
    var r := if h.state == H.Running && h.rx.None? && |other| < H.MAX_QUEUED_DATA
             then h.(rx := Some(LengthWord)) else h;
    if r.state == H.Stopping {
      SetStateForward(r, H.Finished);
    }
  }

  lemma DeliverForward(h: H.Host, m: Message)
    requires h.state == H.Running && !h.log.garbled
    ensures Forward(h, H.Deliver(h, m))
  {
    hide EncodeI32, H.SetState, H.Fail, DecodeI32;
    CloseForward(h, true, BadStatus);
    CloseForward(h, true, BadExitPayload);
    CloseForward(h, true, BadProc);
    if m.header.proc == EXIT && |m.payload| >= 4 {
      var told := h.(log := h.log.(received := h.log.received + [m],
                                   exited := h.log.exited + [DecodeI32(m.payload[..4])]));
      SetStateForward(told, H.Finished);
      SetStateForward(told, H.Stopping);
    }
  }

  lemma ReceiveForward(h: H.Host, chunk: seq<byte>)
    requires H.StateOk(h) && H.OutboxOk(h) && H.Enabled(h, H.Receives(chunk))
    ensures Forward(h, H.Receive(h, chunk))
  {
    hide EncodeI32, H.ProcessRx, H.OutboxShape, Encode;
    var data := h.rx.value.data + chunk;
    if |data| == h.rx.value.length {
      ProcessForward(h.(rx := None), data);
    }
  }

  lemma ProcessForward(h: H.Host, data: seq<byte>)
    requires h.state in {H.Waiting, H.Running} && !h.log.garbled
    requires data != [] && (h.state == H.Running ==> |data| >= LEN_MAX)
    ensures Forward(h, H.ProcessRx(h, data))
  {
    hide EncodeI32, H.SetState, H.Fail, H.Deliver, DecodeLength, DecodeFrame;
    CloseForward(h, true, BadLength);
    CloseForward(h, true, BadHeader);
    if h.state == H.Waiting {
      SetStateForward(h, H.Syncing);
    } else if DecodeFrame(data).Some? {
      DeliverForward(h, DecodeFrame(data).value);
    }
  }

  lemma SendForward(h: H.Host, count: nat)
    requires H.HostOk(h) && H.Enabled(h, H.Sends(count))
    ensures Forward(h, H.Send(h, count))
  {
    hide EncodeI32, H.SetState, H.Close, H.Fail, Encode, H.OutboxOk, H.DeliveryOk, H.SignalsOk, H.QueuesOk;
    CloseForward(h.(tx := None), false, NoFault);
    SetStateForward(h.(tx := None), H.Running);
  }

  lemma HostForward(h: H.Host, e: H.HostEvent)
    requires H.HostOk(h) && H.Enabled(h, e)
    ensures Forward(h, H.Next(h, e))
  {
    hide EncodeI32, H.Receive, H.Send, H.SetState, H.Close, H.Fail, H.Detach, H.Drained, Encode, H.OutboxShape,
      H.DeliveryOk, H.SignalsOk;
    match e
    case Receives(chunk) => ReceiveForward(h, chunk);
    case Sends(n) => SendForward(h, n);
    case ReadsStdin(data) => CloseForward(h, false, NoFault);
    case WritesStdout(n) =>
      var w := h.(log := h.log.(stdoutWritten := h.log.stdoutWritten + h.out[h.outOffset..h.outOffset + n]));
      DrainedForward(w.(out := [], outOffset := 0), h.err);
    case WritesStderr(n) =>
      var start := H.StderrStart(h);
      var w := h.(log := h.log.(stderrWritten := h.log.stderrWritten + h.err[start..start + n]));
      DrainedForward(w.(err := [], errOffset := 0), h.out);
    case HitsIoError => CloseForward(h, true, IoFault);
    case IsDetached => CloseForward(h, true, IoFault);
    case TimerFires =>
  }

  lemma HostIn(s: Session, e: H.HostEvent)
    requires Inv(s) && Enabled(s, OfHost(e))
    ensures InFlow(Next(s, OfHost(e))) && InData(Next(s, OfHost(e)))
  {
    hide EncodeI32, Reads, H.Next, H.HostOk, G.GuestOk, OutFlow, H.Enabled;
    var n := Next(s, OfHost(e));
    HostForward(s.host, e);
    if G.Looping(s.guest) {
      HostReads(s, e);
      if s.guest.state == G.Syncing {
        SyncClause(s, e);
      }
    }
  }

  // The guest's events.

  /** One handshake byte less. */
  lemma ByteReads(h: H.Host, g: G.Guest, b: byte, rest: seq<byte>, runs: bool)
    requires Reads(h, g, [b] + rest) && g.state != G.Running && g.log.received == []
    requires h.state in {H.Waiting, H.Syncing} ==> b != SYNC && h.log.outbox == []
    requires h.state == H.Running ==> !h.log.cut
    ensures var n := AfterByte(g, b, runs);
            && (G.Looping(n) ==> Reads(h, n, rest))
            && (n.log.fault.Protocol?() ==> g.log.fault.Protocol?())
  {
    hide EncodeI32, Encode, Lead, LeadPrefix, Wire, Queue, AllWait;
    var flight := [b] + rest + TxRest(h.tx);
    var left := rest + TxRest(h.tx);
    assert flight[0] == b && flight[1..] == left;
    if g.state == G.Waiting {
      FirstByteReads(h, g, flight);
    } else {
      ByteLead(h, flight);
      if b == SYNC {
        QueueNew(h.log.outbox, left, h.state != H.Inactive && !h.log.cut);
      }
    }
  }

  lemma QueueNew(sent: seq<Message>, flight: seq<byte>, exact: bool)
    requires AllSendable(sent) && flight <= Wire(sent) && (exact ==> flight == Wire(sent))
    ensures Queue([], sent, flight, exact)
  {
    hide EncodeI32, Wire;
    assert sent[0..] == sent;
  }

  lemma FirstByteReads(h: H.Host, g: G.Guest, flight: seq<byte>)
    requires flight != [] && AllWait(flight) && AllSendable(h.log.outbox)
    ensures flight[0] == WAIT && AllWait(flight[1..]) && LeadPrefix(flight[1..], Wire(h.log.outbox))
  {
    AllWaitIsLeadPrefix(flight[1..], Wire(h.log.outbox));
  }

  lemma ByteLead(h: H.Host, flight: seq<byte>)
    requires flight != [] && AllSendable(h.log.outbox)
    ensures h.state == H.Waiting && AllWait(flight) ==> flight[0] == WAIT && AllWait(flight[1..])
    ensures h.state == H.Syncing && Lead(flight, []) ==>
              (flight[0] == WAIT && Lead(flight[1..], [])) || (flight == [SYNC])
    ensures h.state == H.Running && Lead(flight, Wire(h.log.outbox)) ==>
              (flight[0] == WAIT && Lead(flight[1..], Wire(h.log.outbox))) ||
              (flight[0] == SYNC && flight[1..] == Wire(h.log.outbox))
    ensures h.state == H.Inactive && LeadPrefix(flight, Wire(h.log.outbox)) ==>
              (flight[0] == WAIT && LeadPrefix(flight[1..], Wire(h.log.outbox))) ||
              (flight[0] == SYNC && flight[1..] <= Wire(h.log.outbox))
  {
    hide EncodeI32, Wire, Encode;
    if h.state == H.Syncing && Lead(flight, []) {
      if |flight| > 1 {
        assert flight[..|flight| - 1][0] == WAIT;
        LeadTakeWait(flight, []);
      }
    }
    if h.state == H.Running && Lead(flight, Wire(h.log.outbox)) {
      var k := |flight| - |Wire(h.log.outbox)| - 1;
      if k > 0 {
        assert flight[..k][0] == WAIT;
        LeadTakeWait(flight, Wire(h.log.outbox));
      }
    }
  }

  lemma HandshakeFacts(s: Session)
    requires Inv(s) && s.guest.state != G.Running
    ensures s.guest.log.received == []
    ensures s.host.state in {H.Waiting, H.Syncing} ==> s.host.log.outbox == []
    ensures s.host.state == H.Running ==> !s.host.log.cut
  {
  }

  lemma GuestHandshakeIn(s: Session, n: Session, b: byte, runs: bool)
    requires Inv(s) && ByteStep(s, n, b, runs)
    ensures InFlow(n) && InData(n)
  {
    hide G.GuestOk, H.HostOk, Reads, OutFlow;
    HandshakeFacts(s);
    var rest := s.toGuest[1..];
    assert [b] + rest == s.toGuest && [] + s.toGuest == s.toGuest && [] + rest == rest;
    if b == SYNC && s.guest.state == G.Syncing {
      SyncMeansSent(s);
    } else if s.guest.state == G.Waiting {
      WaitFirst(s);
    }
    ByteReads(s.host, s.guest, b, rest, runs);
  }

  lemma WaitFirst(s: Session)
    requires InFlow(s) && s.guest.state == G.Waiting && G.Looping(s.guest)
    ensures SYNC !in s.toGuest
  {
    var flight := RxData(s.guest.rx) + s.toGuest + TxRest(s.host.tx);
    forall i | 0 <= i < |s.toGuest| ensures s.toGuest[i] == WAIT {
      assert flight[|RxData(s.guest.rx)| + i] == s.toGuest[i];
    }
  }

  /** A part of a frame, or its length word, reaches the guest. */
  lemma GuestPart(h: H.Host, g: G.Guest, chunk: seq<byte>, rest: seq<byte>, runs: bool)
    requires g.state == G.Running && g.rx.Some? && FrameRoom(g.rx.value) && G.Looping(g)
    requires 0 < |chunk| && |g.rx.value.data| + |chunk| <= g.rx.value.length
    requires |g.rx.value.data + chunk| < g.rx.value.length || g.rx.value.length == LEN_MAX
    requires Reads(h, g, g.rx.value.data + (chunk + rest)) && !h.log.garbled
    ensures var n := G.Receive(g, chunk, runs);
            n == g.(rx := n.rx) && n.rx.Some? && Reads(h, n, n.rx.value.data + rest)
  {
    hide EncodeI32, Queue, DecodeLength, Encode;
    var data := g.rx.value.data + chunk;
    Associative(g.rx.value.data, chunk, rest);
    Associative(data, rest, TxRest(h.tx));
    if |data| == g.rx.value.length {
      QueueLength(g.log.received, h.log.outbox, data + (rest + TxRest(h.tx)),
                  h.state != H.Inactive && !h.log.cut, data);
    }
  }

  lemma GuestPartIn(s: Session, chunk: seq<byte>, runs: bool)
    requires Inv(s) && Enabled(s, OfGuest(G.Receives(chunk, runs))) && s.guest.state == G.Running
    requires !s.host.log.garbled
    requires |s.guest.rx.value.data + chunk| < s.guest.rx.value.length || s.guest.rx.value.length == LEN_MAX
    ensures InFlow(Next(s, OfGuest(G.Receives(chunk, runs)))) && InData(Next(s, OfGuest(G.Receives(chunk, runs))))
  {
    GuestReceives(s, chunk, runs);
    hide EncodeI32, Enabled, Next, Reads, G.Receive, G.TxOk, G.SentOk, G.StdinOk, G.ExitOk, H.HostOk, OutFlow;
    GuestPart(s.host, s.guest, chunk, s.toGuest[|chunk|..], runs);
  }

  /** The guest dispatches exactly the message that is next: input, its end, or QUIT. */
  lemma InputNext(h: H.Host, i: nat)
    requires H.OutboxOk(h) && i < |h.log.outbox|
    ensures var m := h.log.outbox[i];
            && m.header.proc in {STDIN, QUIT}
            && PayloadOf(h.log.outbox[..i] + [m], STDIN) <= h.log.stdinRead
            && (G.IsEnd(m) ==> h.localEOF && PayloadOf(h.log.outbox[..i] + [m], STDIN) == h.log.stdinRead)
  {
    hide EncodeI32, PayloadOf;
    var m := h.log.outbox[i];
    assert H.OutboxMessage(h.log.outbox, i, h.log.stdinRead, h.localEOF, h.state in {H.Finished, H.Inactive});
    assert h.log.outbox[..i] + [m] == h.log.outbox[..i + 1];
    PayloadPrefix(h.log.outbox[..i + 1], h.log.outbox, STDIN);
    PayloadAppend(h.log.outbox[..i], m, STDIN);
  }

  lemma GuestFrame(h: H.Host, g: G.Guest, chunk: seq<byte>, rest: seq<byte>, runs: bool)
    requires g.state == G.Running && g.rx.Some? && FrameRoom(g.rx.value) && H.OutboxOk(h)
    requires |g.rx.value.data + chunk| == g.rx.value.length > LEN_MAX
    requires Reads(h, g, g.rx.value.data + (chunk + rest)) && !h.log.garbled
    ensures |g.log.received| < |h.log.outbox| && g.log.received == h.log.outbox[..|g.log.received|]
    ensures var m := h.log.outbox[|g.log.received|];
            && DecodeFrame(g.rx.value.data + chunk) == Some(m)
            && Queue(g.log.received + [m], h.log.outbox, [] + rest + TxRest(h.tx),
                     h.state != H.Inactive && !h.log.cut)
            && m.header.proc in {STDIN, QUIT}
            && PayloadOf(g.log.received + [m], STDIN) <= h.log.stdinRead
            && (G.IsEnd(m) ==> h.localEOF && PayloadOf(g.log.received + [m], STDIN) == h.log.stdinRead)
  {
    hide EncodeI32, Queue, DecodeLength, DecodeFrame, H.OutboxOk, PayloadOf;
    var exact := h.state != H.Inactive && !h.log.cut;
    var data := g.rx.value.data + chunk;
    Associative(g.rx.value.data, chunk, rest);
    Associative(data, rest, TxRest(h.tx));
    assert [] + rest == rest;
    assert data[..LEN_MAX] == g.rx.value.data[..LEN_MAX];
    QueueReceived(g.log.received, h.log.outbox, data + (rest + TxRest(h.tx)), exact);
    QueueTake(g.log.received, h.log.outbox, data + (rest + TxRest(h.tx)), exact, data, rest + TxRest(h.tx));
    InputNext(h, |g.log.received|);
  }

  lemma GuestFrameIn(s: Session, chunk: seq<byte>, runs: bool)
    requires Inv(s) && Enabled(s, OfGuest(G.Receives(chunk, runs))) && s.guest.state == G.Running
    requires !s.host.log.garbled
    requires |s.guest.rx.value.data + chunk| == s.guest.rx.value.length > LEN_MAX
    ensures InFlow(Next(s, OfGuest(G.Receives(chunk, runs)))) && InData(Next(s, OfGuest(G.Receives(chunk, runs))))
  {
    GuestReceives(s, chunk, runs);
    hide EncodeI32, Enabled, Next, PayloadOf, Queue, DecodeLength, DecodeFrame, G.TxOk, G.SentOk, H.OutboxShape,
      H.StateOk, H.DeliveryOk, H.SignalsOk, H.QueuesOk, OutFlow;
    var g := s.guest;
    GuestFrame(s.host, g, chunk, s.toGuest[|chunk|..], runs);
    var m := s.host.log.outbox[|g.log.received|];
    assert G.Receive(g, chunk, runs) == G.Deliver(g, m);
  }

  lemma QueueReceived(received: seq<Message>, sent: seq<Message>, flight: seq<byte>, exact: bool)
    requires Queue(received, sent, flight, exact)
    ensures |received| <= |sent| && received == sent[..|received|]
  {
  }

  /** After QUIT was garbled nothing is claimed; otherwise a frame or a part of it. */
  lemma GuestRunningIn(s: Session, chunk: seq<byte>, runs: bool)
    requires Inv(s) && Enabled(s, OfGuest(G.Receives(chunk, runs))) && s.guest.state == G.Running
    ensures InFlow(Next(s, OfGuest(G.Receives(chunk, runs)))) && InData(Next(s, OfGuest(G.Receives(chunk, runs))))
  {
    GuestReceives(s, chunk, runs);
    hide EncodeI32, Next, Enabled, G.Receive;
    if s.host.log.garbled {
      hide EncodeI32, H.StateOk, H.DeliveryOk, H.SignalsOk, H.QueuesOk, H.OutboxOk, G.GuestOk, OutFlow, Queue;
      OutboxSendable(s.host);
      StaysRunning(s.guest, chunk, runs);
    } else {
      hide EncodeI32, Inv, InFlow, InData;
      assert G.RxOk(s.guest) && s.guest.log.fault == NoFault by { RunningRx(s); }
      if |s.guest.rx.value.data + chunk| < s.guest.rx.value.length || s.guest.rx.value.length == LEN_MAX {
        GuestPartIn(s, chunk, runs);
      } else {
        GuestFrameIn(s, chunk, runs);
      }
    }
  }

  lemma StaysRunning(g: G.Guest, chunk: seq<byte>, runs: bool)
    requires g.state == G.Running && g.rx.Some? && 0 < |chunk| <= g.rx.value.length - |g.rx.value.data|
    requires g.rx.value.length >= LEN_MAX
    ensures G.Receive(g, chunk, runs).state == G.Running
  {
    hide EncodeI32, DecodeLength, DecodeFrame;
  }

  lemma RunningRx(s: Session)
    requires Inv(s)
    ensures G.RxOk(s.guest)
  {
  }

  /** Any other event of the guest leaves alone what it reads and has read. */
  ghost predicate Keeps(g: G.Guest, n: G.Guest) {
    && n.state == g.state && n.log.received == g.log.received && n.appinOpen == g.appinOpen
    && n.log.fault in {g.log.fault, IoFault}
    && (G.Looping(n) ==> G.Looping(g) && RxData(n.rx) == RxData(g.rx))
    && (g.state == G.Syncing && g.tx.None? ==> n.tx.None?)
  }

  lemma PostKeeps(g: G.Guest, m: Message)
    requires Sendable(m) && g.state == G.Running
    ensures Keeps(g, G.Post(g, m))
  {
    hide EncodeI32, Encode;
  }

  lemma ExitKeeps(g: G.Guest)
    requires g.state == G.Running
    ensures Keeps(g, G.PostExit(g))
  {
    hide G.Post, EncodeI32;
    PostKeeps(g.(log := g.log.(exitReap := |g.log.reaped|)), ExitMessage(g.exitstatus, g.serial));
  }

  lemma AppKeeps(g: G.Guest, e: G.GuestEvent)
    requires G.SentOk(g) && G.Enabled(g, e) && (e.Reaps? || e.AppWritesOut? || e.AppWritesErr?)
    requires g.log.starts > 0 ==> g.state == G.Running
    ensures Keeps(g, G.Next(g, e))
  {
    hide EncodeI32, G.Post, G.PostExit, G.SentShape, PayloadOf, Encode;
    match e
    case Reaps(app, status) =>
      if app {
        ExitKeeps(G.Reaped(g, app, status));
      }
    case AppWritesOut(data) =>
      ExitKeeps(g.(appOutEOF := true));
      PostKeeps(g.(log := g.log.(stdoutRead := g.log.stdoutRead + data)), StdoutMessage(data, g.serial));
    case AppWritesErr(data) =>
      ExitKeeps(g.(appErrEOF := true));
      PostKeeps(g.(log := g.log.(stderrRead := g.log.stderrRead + data)), StderrMessage(data, g.serial));
  }

  lemma GuestKeepsIn(g: G.Guest, e: G.GuestEvent)
    requires G.GuestOk(g) && G.Enabled(g, e) && !e.Receives?
    ensures Keeps(g, G.Next(g, e))
  {
    hide EncodeI32, PayloadOf, Encode, Wire, G.SentOk, G.ExitOk, DecodeLength, G.Reap, G.AppOut, G.AppErr;
    if e.Reaps? || e.AppWritesOut? || e.AppWritesErr? {
      AppKeeps(g, e);
    }
  }

  lemma GuestIn(s: Session, e: G.GuestEvent)
    requires Inv(s) && Enabled(s, OfGuest(e))
    ensures InFlow(Next(s, OfGuest(e))) && InData(Next(s, OfGuest(e)))
  {
    if e.Receives? {
      hide EncodeI32, Inv, InFlow, InData, Next, Enabled;
      if s.guest.state == G.Running {
        GuestRunningIn(s, e.chunk, e.runs);
      } else {
        HandshakeStep(s, e.chunk, e.runs);
        GuestHandshakeIn(s, Next(s, OfGuest(e)), e.chunk[0], e.runs);
      }
    } else {
      hide EncodeI32, G.Next, G.GuestOk, H.HostOk, OutFlow, Queue, Lead, LeadPrefix, AllWait, Wire;
      GuestKeepsIn(s.guest, e);
    }
  }

  // The terminal.

  lemma TerminalIn(s: Session, a: Action)
    requires Inv(s) && Enabled(s, a) && (a.Swallow? || a.Echo? || a.GoRaw?)
    ensures InFlow(Next(s, a)) && InData(Next(s, a))
  {
    hide EncodeI32, H.HostOk, OutFlow, Queue, Lead, LeadPrefix, Wire;
    if a.Swallow? {
      assert [] + s.toGuest == s.toGuest;
      AllWaitShorter(s.toGuest, TxRest(s.host.tx));
    }
  }

  /** Every action, in every order, keeps the invariant. */
  lemma ActionKeeps(s: Session, a: Action)
    requires Inv(s) && Enabled(s, a)
    ensures Inv(Next(s, a))
  {
    hide EncodeI32, H.HostOk, G.GuestOk, OutFlow, InFlow, InData, H.Next, G.Next, H.Enabled, G.Enabled;
    ActionOut(s, a);
    match a
    case OfHost(e) =>
      HostInvariant.NextOk(s.host, e);
      HostIn(s, e);
    case OfGuest(e) =>
      GuestInvariant.NextOk(s.guest, e);
      GuestIn(s, e);
    case _ => TerminalIn(s, a);
  }

  lemma StartOk(form: H.DrainForm, escape: Option<byte>)
    ensures Inv(Start(form, escape))
  {
    HostInvariant.AttachOk(form, escape);
    GuestInvariant.BootOk();
  }

  /** The invariant holds of every state of every run. */
  lemma {:induction false} RunOk(form: H.DrainForm, escape: Option<byte>, actions: seq<Action>)
    requires RunFromStart(form, escape, actions).Some?
    ensures Inv(RunFromStart(form, escape, actions).value)
  {
    hide EncodeI32, Inv, Next, Enabled, Start;
    if actions == [] {
      StartOk(form, escape);
    } else {
      var front := actions[..|actions| - 1];
      RunOk(form, escape, front);
      ActionKeeps(Run(Start(form, escape), front).value, actions[|actions| - 1]);
    }
  }
}
