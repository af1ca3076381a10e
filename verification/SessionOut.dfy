/** Every action keeps the direction from the guest to the host in order. */
module SessionOut {
  import opened Options
  import opened Xdr
  import opened Protocol
  import opened Flow
  import opened Session
  import opened SessionInvariant
  import H = HostMachine
  import G = GuestMachine

  ghost predicate Out(s: Session) {
    OutFlow(s) && !s.host.log.fault.Protocol?()
  }

  // The host's events.

  /** The part of the host that a receive may change, and nothing else. */
  ghost predicate Quiet(h: H.Host, n: H.Host) {
    && n.log.received == h.log.received
    && n.log.fault in {h.log.fault, IoFault}
    && (n.state == H.Inactive ||
        (RxData(n.rx) == RxData(h.rx) &&
         (n.state == h.state || (h.state == H.Syncing && n.state == H.Running) ||
          (h.state == H.Stopping && n.state == H.Finished))))
  }

  lemma CloseQuiet(h: H.Host, error: bool)
    ensures Quiet(h, H.Close(h, error)) && Quiet(h, H.Detach(h)) && Quiet(h, H.Fail(h, IoFault))
  {
  }

  lemma DrainedQuiet(h: H.Host, other: seq<byte>)
    requires h.state in {H.Running, H.Stopping} && (h.state == H.Stopping ==> h.rx.None?)
    ensures Quiet(h, H.Drained(h, other))
  {
    hide EncodeI32, Encode;
  }

  /** Anything but a receive leaves what was received alone. */
  lemma HostQuiet(h: H.Host, e: H.HostEvent)
    requires H.HostOk(h) && H.Enabled(h, e) && !e.Receives?
    ensures Quiet(h, H.Next(h, e))
  {
    hide EncodeI32, PayloadOf, Encode, H.OutboxOk, H.DeliveryOk, H.SignalsOk, H.Close, H.Fail, H.Detach, H.Drained;
    match e
    case Sends(n) =>
      CloseQuiet(h.(tx := None), false);
    case ReadsStdin(data) =>
      CloseQuiet(h, false);
    case WritesStdout(n) =>
      var w := h.(log := h.log.(stdoutWritten := h.log.stdoutWritten + h.out[h.outOffset..h.outOffset + n]));
      DrainedQuiet(w.(out := [], outOffset := 0), h.err);
    case WritesStderr(n) =>
      var start := H.StderrStart(h);
      var w := h.(log := h.log.(stderrWritten := h.log.stderrWritten + h.err[start..start + n]));
      DrainedQuiet(w.(err := [], errOffset := 0), h.out);
    case HitsIoError =>
      CloseQuiet(h, true);
    case IsDetached =>
      CloseQuiet(h, true);
    case TimerFires =>
  }

  lemma HostQuietOut(s: Session, e: H.HostEvent)
    requires Inv(s) && Enabled(s, OfHost(e)) && !e.Receives?
    ensures Out(Next(s, OfHost(e)))
  {
    hide EncodeI32, PayloadOf, Encode, H.OutboxOk, H.QueuesOk, H.Next, G.SentOk, G.StdinOk, G.ExitOk, G.RxOk, InFlow,
      InData;
    HostQuiet(s.host, e);
    var n := Next(s, OfHost(e));
    if s.host.state == H.Inactive || n.host.state == H.Inactive {
      if s.host.state !in {H.Inactive, H.Waiting, H.Syncing} {
        assert s.host.log.received <= s.guest.log.sent;
      }
    } else {
      assert ToHost(n) == ToHost(s);
    }
  }

  lemma HostReceives(s: Session, chunk: seq<byte>)
    requires Enabled(s, OfHost(H.Receives(chunk)))
    ensures Next(s, OfHost(H.Receives(chunk))) ==
            s.(host := H.Receive(s.host, chunk), toHost := s.toHost[|chunk|..])
    ensures s.toHost == chunk + s.toHost[|chunk|..]
    ensures H.Wants(s.host).readable && 0 < |chunk|
  {
  }

  lemma FirstIsNotSync(x: seq<byte>)
    ensures |x| > 1 && NoSync(x[..|x| - 1]) ==> x[0] != SYNC
  {
    assert |x| > 1 ==> x[0] == x[..|x| - 1][0];
  }

  lemma HandshakeByte(h: H.Host, chunk: seq<byte>)
    requires h.state == H.Waiting && h.rx == Some(OneByte) && |chunk| == 1
    ensures H.Receive(h, chunk) ==
            if chunk[0] == SYNC then H.SetState(h.(rx := None), H.Syncing) else h
  {
    assert h.rx.value.data + chunk == chunk;
  }

  lemma HandshakeByteOut(s: Session, chunk: seq<byte>)
    requires Inv(s) && Enabled(s, OfHost(H.Receives(chunk))) && s.host.state == H.Waiting
    ensures Out(Next(s, OfHost(H.Receives(chunk))))
  {
    hide EncodeI32, Encode, H.SignalsOk, H.Receive, H.OutboxOk, H.DeliveryOk, H.QueuesOk, G.GuestOk, InFlow, InData,
      Queue, Wire;
    HostReceives(s, chunk);
    HandshakeByte(s.host, chunk);
    var n := Next(s, OfHost(H.Receives(chunk)));
    assert ToHost(s) == s.toHost + TxRest(s.guest.tx);
    assert ToHost(s)[0] == chunk[0];
    assert ToHost(n) == ToHost(s)[1..];
    if chunk[0] == SYNC {
      assert s.guest.state == G.Syncing;
      FirstIsNotSync(ToHost(s));
    } else if s.guest.state == G.Syncing && |ToHost(n)| > 0 {
      assert ToHost(n)[..|ToHost(n)| - 1] == ToHost(s)[..|ToHost(s)| - 1][1..];
    }
  }

  /** A part of a frame, or its length word. */
  lemma PartReceived(h: H.Host, chunk: seq<byte>, sent: seq<Message>, rest: seq<byte>, exact: bool)
    requires h.state == H.Running && h.rx.Some? && FrameRoom(h.rx.value)
    requires 0 < |chunk| && |h.rx.value.data| + |chunk| <= h.rx.value.length
    requires Queue(h.log.received, sent, h.rx.value.data + chunk + rest, exact)
    requires |h.rx.value.data + chunk| < h.rx.value.length || h.rx.value.length == LEN_MAX
    ensures var n := H.Receive(h, chunk);
            n == h.(rx := n.rx) && n.rx.Some? && n.rx.value.data == h.rx.value.data + chunk
  {
    hide EncodeI32, Queue, DecodeLength, Encode;
    var data := h.rx.value.data + chunk;
    if |data| == h.rx.value.length {
      QueueLength(h.log.received, sent, data + rest, exact, data);
    }
  }

  lemma PartOut(s: Session, chunk: seq<byte>)
    requires Inv(s) && Enabled(s, OfHost(H.Receives(chunk))) && s.host.state == H.Running
    requires |s.host.rx.value.data + chunk| < s.host.rx.value.length || s.host.rx.value.length == LEN_MAX
    ensures Out(Next(s, OfHost(H.Receives(chunk))))
    ensures var n := H.Receive(s.host, chunk);
            n == s.host.(rx := n.rx) && n.rx.Some? && n.rx.value.data == s.host.rx.value.data + chunk
  {
    hide EncodeI32, PayloadOf, Queue, DecodeLength, H.Receive, H.OutboxOk, H.DeliveryOk, H.QueuesOk, G.GuestOk,
      InFlow, InData;
    HostReceives(s, chunk);
    var n := Next(s, OfHost(H.Receives(chunk)));
    var data := s.host.rx.value.data + chunk;
    var rest := s.toHost[|chunk|..] + TxRest(s.guest.tx);
    assert ToHost(s) == data + rest;
    PartReceived(s.host, chunk, s.guest.log.sent, rest, !s.guest.quit);
    assert ToHost(n) == data + rest;
  }

  /** The host dispatches exactly the message that is next. */
  lemma FrameReceived(h: H.Host, chunk: seq<byte>, guest: G.Guest, rest: seq<byte>)
    requires h.state == H.Running && h.rx.Some? && FrameRoom(h.rx.value) && G.SentOk(guest)
    requires |h.rx.value.data + chunk| == h.rx.value.length > LEN_MAX
    requires Queue(h.log.received, guest.log.sent, h.rx.value.data + chunk + rest, !guest.quit)
    ensures |h.log.received| < |guest.log.sent|
    ensures var m := guest.log.sent[|h.log.received|];
            && DecodeFrame(h.rx.value.data + chunk) == Some(m)
            && H.Dispatch(h.(rx := None), h.rx.value.data + chunk) == H.Deliver(h.(rx := None), m)
            && Queue(h.log.received + [m], guest.log.sent, rest, !guest.quit)
            && G.SentMessage(guest.log.sent, |h.log.received|, G.AppDone(guest))
  {
    hide EncodeI32, Queue, DecodeLength, DecodeFrame, H.Deliver;
    var data := h.rx.value.data + chunk;
    assert data[..LEN_MAX] == h.rx.value.data[..LEN_MAX];
    QueueTake(h.log.received, guest.log.sent, data + rest, !guest.quit, data, rest);
  }

  lemma FrameOut(s: Session, chunk: seq<byte>)
    requires Inv(s) && Enabled(s, OfHost(H.Receives(chunk))) && s.host.state == H.Running
    requires |s.host.rx.value.data + chunk| == s.host.rx.value.length > LEN_MAX
    ensures Out(Next(s, OfHost(H.Receives(chunk))))
  {
    hide EncodeI32, PayloadOf, Queue, DecodeLength, H.Dispatch, H.OutboxOk, H.DeliveryOk, H.QueuesOk, G.TxOk, G.RxOk,
      G.StdinOk, G.ExitOk, InFlow, InData;
    HostReceives(s, chunk);
    var n := Next(s, OfHost(H.Receives(chunk)));
    var rest := s.toHost[|chunk|..] + TxRest(s.guest.tx);
    assert ToHost(s) == s.host.rx.value.data + chunk + rest;
    FrameFlow(s.host, chunk, s.guest, rest);
    hide H.Receive, H.Next, Next, Inv, G.SentOk;
    assert ToHost(n) == rest;
  }

  lemma FrameFlow(h: H.Host, chunk: seq<byte>, guest: G.Guest, rest: seq<byte>)
    requires h.state == H.Running && h.rx.Some? && FrameRoom(h.rx.value) && G.SentOk(guest) && 0 < |chunk|
    requires |h.rx.value.data + chunk| == h.rx.value.length > LEN_MAX
    requires Queue(h.log.received, guest.log.sent, h.rx.value.data + chunk + rest, !guest.quit)
    ensures var n := H.Receive(h, chunk);
            && Queue(n.log.received, guest.log.sent, rest, !guest.quit)
            && RxData(n.rx) == [] && n.log.fault == h.log.fault && n.state in {H.Running, H.Stopping, H.Finished}
  {
    hide EncodeI32, Queue, DecodeLength, DecodeFrame, H.Deliver, H.Dispatch;
    FrameReceived(h, chunk, guest, rest);
    var m := guest.log.sent[|h.log.received|];
    hide G.SentOk, FrameRoom;
    DeliverKeeps(h.(rx := None), m);
    FrameRearms(h, chunk, m);
    hide H.Receive;
  }

  lemma FrameRearms(h: H.Host, chunk: seq<byte>, m: Message)
    requires h.state == H.Running && h.rx.Some? && |h.rx.value.data + chunk| == h.rx.value.length > LEN_MAX
    requires 0 < |chunk|
    requires H.Dispatch(h.(rx := None), h.rx.value.data + chunk) == H.Deliver(h.(rx := None), m)
    requires H.Deliver(h.(rx := None), m).rx.None?
    ensures var d, n := H.Deliver(h.(rx := None), m), H.Receive(h, chunk);
            RxData(n.rx) == [] && n.log == d.log && n.state == d.state
  {
    hide H.Dispatch, H.Deliver;
  }

  lemma EndKeeps(h: H.Host, state: H.ConsoleState)
    requires h.state == H.Running && state in {H.Stopping, H.Finished}
    ensures var d := H.SetState(h, state);
            d.log.received == h.log.received && d.rx == h.rx && d.log.fault == h.log.fault && d.state == state
  {
    hide EncodeI32, Encode;
  }

  /** What the dispatch of a message from the guest does to the host's receiving side. */
  lemma DeliverKeeps(h: H.Host, m: Message)
    requires h.state == H.Running && h.rx.None? && m.header.status == STATUS_OK
    requires m.header.proc in {STDOUT, STDERR} || (m.header.proc == EXIT && |m.payload| == 4)
    ensures var d := H.Deliver(h, m);
            && d.log.received == h.log.received + [m]
            && d.rx.None? && d.log.fault == h.log.fault
            && d.state in {H.Running, H.Stopping, H.Finished}
            && (m.header.proc in {STDOUT, STDERR} ==> d.state == H.Running)
  {
    hide EncodeI32, H.SetState, H.Fail, DecodeI32;
    if m.header.proc == EXIT {
      var told := h.(log := h.log.(received := h.log.received + [m],
                                   exited := h.log.exited + [DecodeI32(m.payload[..4])]));
      EndKeeps(told, H.Finished);
      EndKeeps(told, H.Stopping);
    }
  }

  lemma HostOut(s: Session, e: H.HostEvent)
    requires Inv(s) && Enabled(s, OfHost(e))
    ensures Out(Next(s, OfHost(e)))
  {
    hide EncodeI32, Out, OutFlow, InFlow, InData, G.GuestOk, Next, H.OutboxOk, H.DeliveryOk, H.SignalsOk, H.QueuesOk;
    if !e.Receives? {
      HostQuietOut(s, e);
    } else if s.host.state == H.Waiting {
      HandshakeByteOut(s, e.chunk);
    } else if |s.host.rx.value.data + e.chunk| < s.host.rx.value.length || s.host.rx.value.length == LEN_MAX {
      PartOut(s, e.chunk);
    } else {
      FrameOut(s, e.chunk);
    }
  }

  // The guest's events.

  /** tx is assigned only when it is NULL, and only for a message that is new. */
  ghost predicate Posts(g: G.Guest, n: G.Guest) {
    && n.state == g.state && n.quit == g.quit
    && n.log.starts == g.log.starts && n.log.fault == g.log.fault && n.log.received == g.log.received
    && ((n.tx == g.tx && n.log.sent == g.log.sent) ||
        (g.tx.None? && g.state == G.Running && |n.log.sent| == |g.log.sent| + 1 &&
         n.log.sent == g.log.sent + [G.Last(n.log.sent)] && Sendable(G.Last(n.log.sent)) &&
         n.tx == Some(Tx(Encode(G.Last(n.log.sent)), 0))))
  }

  lemma PostPosts(g: G.Guest, m: Message)
    requires Sendable(m)
    ensures var n := G.Post(g, m);
            && n == g.(tx := n.tx, serial := n.serial, log := n.log)
            && n.log == g.log.(sent := g.log.sent + [m]) && n.tx == Some(Tx(Encode(m), 0))
  {
    hide EncodeI32, Encode;
  }

  lemma ExitPosts(g: G.Guest)
    ensures var n := G.PostExit(g);
            && n == g.(tx := n.tx, serial := n.serial, log := n.log)
            && n.log == g.log.(sent := n.log.sent, exitReap := n.log.exitReap)
            && |n.log.sent| == |g.log.sent| + 1 && n.log.sent == g.log.sent + [G.Last(n.log.sent)]
            && Sendable(G.Last(n.log.sent)) && n.tx == Some(Tx(Encode(G.Last(n.log.sent)), 0))
  {
    hide G.Post, EncodeI32, Encode;
    PostPosts(g.(log := g.log.(exitReap := |g.log.reaped|)), ExitMessage(g.exitstatus, g.serial));
  }

  lemma GuestPosts(g: G.Guest, e: G.GuestEvent)
    requires G.GuestOk(g) && G.Enabled(g, e) && (e.Reaps? || e.AppWritesOut? || e.AppWritesErr?)
    ensures Posts(g, G.Next(g, e))
    ensures RxData(G.Next(g, e).rx) == RxData(g.rx)
  {
    hide EncodeI32, PayloadOf, Encode, G.SentShape, G.StdinOk, G.ExitOk, G.RxOk, G.Post, G.PostExit;
    match e
    case Reaps(app, status) =>
      ExitPosts(G.Reaped(g, app, status));
    case AppWritesOut(data) =>
      ExitPosts(g.(appOutEOF := true));
      PostPosts(g.(log := g.log.(stdoutRead := g.log.stdoutRead + data)), StdoutMessage(data, g.serial));
    case AppWritesErr(data) =>
      ExitPosts(g.(appErrEOF := true));
      PostPosts(g.(log := g.log.(stderrRead := g.log.stderrRead + data)), StderrMessage(data, g.serial));
  }

  lemma GuestPostsOut(s: Session, e: G.GuestEvent)
    requires Inv(s) && Enabled(s, OfGuest(e)) && (e.Reaps? || e.AppWritesOut? || e.AppWritesErr?)
    ensures Out(Next(s, OfGuest(e)))
  {
    hide EncodeI32, PayloadOf, Encode, H.HostOk, G.Next, G.SentShape, G.StdinOk, G.ExitOk, G.RxOk, InFlow, Queue;
    var n := Next(s, OfGuest(e));
    GuestPosts(s.guest, e);
    if n.guest.log.sent != s.guest.log.sent {
      var m := G.Last(n.guest.log.sent);
      assert ToHost(n) == ToHost(s) + Encode(m);
      if s.host.state != H.Inactive {
        QueuePost(s.host.log.received, s.guest.log.sent, ToHost(s), m);
      }
    } else {
      assert ToHost(n) == ToHost(s);
    }
  }

  lemma TxTaken(tx: Tx, count: nat)
    requires tx.offset + count <= |tx.wire|
    ensures count <= |TxRest(Some(tx))|
    ensures TxRest(Some(tx)) ==
              TxRest(Some(tx))[..count] +
              TxRest(if tx.offset + count == |tx.wire| then None else Some(Tx(tx.wire, tx.offset + count)))
  {
  }

  lemma GuestSent(g: G.Guest, e: G.GuestEvent)
    requires G.GuestOk(g) && G.Enabled(g, e) && (e.Sends? || e.SendFails?)
    ensures var n := G.Next(g, e);
            && n == g.(tx := n.tx, quit := n.quit)
            && (e.Sends? ==> n.quit == g.quit && e.count <= |TxRest(g.tx)| &&
                             TxRest(g.tx) == TxRest(g.tx)[..e.count] + TxRest(n.tx))
            && (e.SendFails? ==> n.quit && n.tx.None?)
  {
    hide EncodeI32, G.GuestOk, Encode, TxRest;
    if e.Sends? {
      TxTaken(g.tx.value, e.count);
    }
  }

  lemma GuestSendsOut(s: Session, e: G.GuestEvent)
    requires Inv(s) && Enabled(s, OfGuest(e)) && (e.Sends? || e.SendFails?)
    ensures Out(Next(s, OfGuest(e)))
  {
    hide EncodeI32, G.Next, G.GuestOk, H.HostOk, InFlow, InData, Wire, TxRest, Queue, NoSync;
    GuestSent(s.guest, e);
    var n := Next(s, OfGuest(e));
    if e.Sends? {
      assert ToHost(n) == ToHost(s);
    } else {
      assert TxRest(n.guest.tx) == [] by { assert n.guest.tx.None?; TxRestNone(); }
      assert ToHost(s) == ToHost(n) + TxRest(s.guest.tx);
      GuestStopsOut(s, n);
    }
  }

  lemma GuestStopsOut(s: Session, n: Session)
    requires Inv(s) && n == s.(guest := s.guest.(tx := n.guest.tx, quit := true))
    requires ToHost(s) == ToHost(n) + TxRest(s.guest.tx)
    ensures Out(n)
  {
    hide EncodeI32, G.GuestOk, H.HostOk, InFlow, InData, Wire, TxRest, ToHost;
    if s.host.state == H.Waiting {
      NoSyncShorter(ToHost(n), TxRest(s.guest.tx));
    } else if s.host.state !in {H.Syncing, H.Inactive} {
      QueueTruncate(s.host.log.received, s.guest.log.sent, ToHost(s), !s.guest.quit, ToHost(n));
    }
  }

  lemma NoSyncShorter(x: seq<byte>, more: seq<byte>)
    ensures NoSync(x + more) ==> NoSync(x)
    ensures |x + more| > 0 && NoSync((x + more)[..|x + more| - 1]) && |x| > 0 ==> NoSync(x[..|x| - 1])
  {
    var all := x + more;
    if |x| > 0 && NoSync(all[..|all| - 1]) {
      forall i | 0 <= i < |x| - 1 ensures x[i] != SYNC {
        assert all[..|all| - 1][i] == x[i];
      }
    }
    if NoSync(all) {
      forall i | 0 <= i < |x| ensures x[i] != SYNC {
        assert all[i] == x[i];
      }
    }
  }

  lemma TxRestNone()
    ensures TxRest(None) == []
  {
  }

  /** What a handshake byte does to the guest. */
  function AfterByte(g: G.Guest, b: byte, runs: bool): G.Guest {
    if b == WAIT then
      if g.state == G.Waiting then g.(state := G.Syncing, tx := Some(Tx([SYNC], 0))) else g
    else if b == SYNC && g.state == G.Syncing && runs then
      g.(state := G.Running, rx := Some(LengthWord), appinOpen := true, log := g.log.(starts := g.log.starts + 1))
    else
      G.Fail(g, if b == SYNC && g.state == G.Syncing then IoFault else BadHandshakeByte)
  }

  lemma GuestHandshake(g: G.Guest, chunk: seq<byte>, runs: bool)
    requires G.RxOk(g) && G.Enabled(g, G.Receives(chunk, runs)) && g.state != G.Running
    ensures |chunk| == 1 && g.rx == Some(OneByte)
    ensures G.Next(g, G.Receives(chunk, runs)) == AfterByte(g, chunk[0], runs)
  {
    hide EncodeI32, DecodeLength, DecodeFrame, G.Deliver;
    assert g.rx.value.data + chunk == chunk;
  }

  lemma GuestReceives(s: Session, chunk: seq<byte>, runs: bool)
    requires Enabled(s, OfGuest(G.Receives(chunk, runs)))
    ensures Next(s, OfGuest(G.Receives(chunk, runs))) ==
            s.(guest := G.Receive(s.guest, chunk, runs), toGuest := s.toGuest[|chunk|..])
    ensures G.Next(s.guest, G.Receives(chunk, runs)) == G.Receive(s.guest, chunk, runs)
    ensures s.toGuest == chunk + s.toGuest[|chunk|..]
    ensures 0 < |chunk| && s.guest.rx.Some? && G.Looping(s.guest)
    ensures |s.guest.rx.value.data| + |chunk| <= s.guest.rx.value.length
  {
  }

  /** A handshake byte `b` reaches the guest. */
  ghost predicate ByteStep(s: Session, n: Session, b: byte, runs: bool) {
    && s.guest.state != G.Running && G.Looping(s.guest) && s.guest.rx == Some(OneByte)
    && s.toGuest != [] && s.toGuest[0] == b
    && n == s.(guest := AfterByte(s.guest, b, runs), toGuest := s.toGuest[1..])
  }

  lemma HandshakeStep(s: Session, chunk: seq<byte>, runs: bool)
    requires Inv(s) && Enabled(s, OfGuest(G.Receives(chunk, runs))) && s.guest.state != G.Running
    ensures |chunk| == 1 && ByteStep(s, Next(s, OfGuest(G.Receives(chunk, runs))), chunk[0], runs)
  {
    GuestReceives(s, chunk, runs);
    hide G.Receive, G.Next, Next, H.HostOk, OutFlow, InFlow, InData, G.TxOk, G.SentOk, G.StdinOk, G.ExitOk;
    GuestHandshake(s.guest, chunk, runs);
  }

  lemma GuestHandshakeOut(s: Session, n: Session, b: byte, runs: bool)
    requires Inv(s) && ByteStep(s, n, b, runs)
    ensures Out(n)
  {
    hide H.HostOk, G.GuestOk, Queue, Reads, InData, Wire;
    if s.guest.state == G.Waiting && b == WAIT {
      FirstWaitOut(s, n);
    } else {
      assert ToHost(n) == ToHost(s);
      if n.guest.state == G.Running {
        SyncMeansSent(s);
      }
    }
  }

  /** The guest's first WAIT byte: it answers with SYNC. */
  lemma FirstWaitOut(s: Session, n: Session)
    requires Inv(s) && s.guest.state == G.Waiting && G.Looping(s.guest)
    requires n == s.(guest := AfterByte(s.guest, WAIT, true), toGuest := n.toGuest)
    ensures Out(n)
  {
    hide EncodeI32, H.HostOk, G.SentOk, G.StdinOk, G.ExitOk, G.RxOk, Queue, InData, Wire;
    assert TxRest(s.guest.tx) == [] && TxRest(n.guest.tx) == [SYNC];
    assert ToHost(n) == ToHost(s) + [SYNC];
    assert ToHost(n)[..|ToHost(n)| - 1] == ToHost(s);
  }

  /** A SYNC byte at the guest is one that the host has fully sent. */
  lemma SyncMeansSent(s: Session)
    requires Inv(s) && s.guest.state == G.Syncing && G.Looping(s.guest)
    requires s.toGuest != [] && s.toGuest[0] == SYNC
    ensures s.host.state !in {H.Waiting, H.Syncing} && s.guest.tx.None?
  {
    hide EncodeI32, H.OutboxOk, H.DeliveryOk, H.QueuesOk, H.SignalsOk, G.SentOk, G.StdinOk, G.ExitOk, Queue, InData,
      Wire;
    assert ToGuest(s)[0] == SYNC;
    assert SYNC in s.toGuest;
  }

  ghost predicate Leaves(g: G.Guest, n: G.Guest) {
    n.tx == g.tx && n.log.sent == g.log.sent && n.state == g.state && (g.quit ==> n.quit)
  }

  lemma DeliverLeaves(g: G.Guest, m: Message)
    ensures Leaves(g, G.Deliver(g, m))
  {
  }

  lemma ReceiveLeaves(g: G.Guest, chunk: seq<byte>, runs: bool)
    requires g.state == G.Running && g.rx.Some? && 0 < |chunk| <= g.rx.value.length - |g.rx.value.data|
    requires g.rx.value.length >= LEN_MAX
    ensures Leaves(g, G.Receive(g, chunk, runs))
  {
    hide EncodeI32, DecodeLength, DecodeFrame, G.Deliver;
    var m := DecodeFrame(g.rx.value.data + chunk);
    if m.Some? {
      DeliverLeaves(g, m.value);
    }
  }

  /** The events that leave the sending side of the guest alone. */
  lemma GuestLeaves(g: G.Guest, e: G.GuestEvent)
    requires G.Enabled(g, e)
    requires e.HostEnds? || e.HostHangsUp? || e.AppReads? || e.AppReadFails? || e.SignalPipeFails? ||
             (e.Receives? && g.state == G.Running)
    ensures Leaves(g, G.Next(g, e))
  {
    hide EncodeI32, G.Receive;
    if e.Receives? {
      ReceiveLeaves(g, e.chunk, e.runs);
    }
  }

  lemma GuestLeavesOut(s: Session, e: G.GuestEvent)
    requires Inv(s) && Enabled(s, OfGuest(e))
    requires e.HostEnds? || e.HostHangsUp? || e.AppReads? || e.AppReadFails? || e.SignalPipeFails? ||
             (e.Receives? && s.guest.state == G.Running)
    ensures Out(Next(s, OfGuest(e)))
  {
    hide EncodeI32, G.Next, H.HostOk, G.GuestOk, InFlow, InData, Wire;
    GuestLeaves(s.guest, e);
    assert ToHost(Next(s, OfGuest(e))) == ToHost(s);
  }

  lemma GuestOut(s: Session, e: G.GuestEvent)
    requires Inv(s) && Enabled(s, OfGuest(e))
    ensures Out(Next(s, OfGuest(e)))
  {
    hide EncodeI32, Inv, Out, Next, Enabled;
    match e
    case Reaps(_, _) => GuestPostsOut(s, e);
    case AppWritesOut(_) => GuestPostsOut(s, e);
    case AppWritesErr(_) => GuestPostsOut(s, e);
    case Sends(_) => GuestSendsOut(s, e);
    case SendFails => GuestSendsOut(s, e);
    case Receives(chunk, runs) =>
      if s.guest.state != G.Running {
        HandshakeStep(s, chunk, runs);
        GuestHandshakeOut(s, Next(s, OfGuest(e)), chunk[0], runs);
      } else {
        GuestLeavesOut(s, e);
      }
    case _ => GuestLeavesOut(s, e);
  }

  // The terminal.

  lemma TerminalOut(s: Session, a: Action)
    requires Inv(s) && Enabled(s, a) && (a.Swallow? || a.Echo? || a.GoRaw?)
    ensures Out(Next(s, a))
  {
    hide EncodeI32, PayloadOf, Encode, Wire, H.OutboxOk, H.DeliveryOk, H.QueuesOk, H.SignalsOk, InFlow, InData;
    if a.Echo? {
      assert ToHost(Next(s, a)) == ToHost(s) + [a.b];
    } else {
      assert ToHost(Next(s, a)) == ToHost(s);
    }
  }

  lemma ActionOut(s: Session, a: Action)
    requires Inv(s) && Enabled(s, a)
    ensures Out(Next(s, a))
  {
    hide EncodeI32, Inv, Out, Next, Enabled;
    match a
    case OfHost(e) => HostOut(s, e);
    case OfGuest(e) => GuestOut(s, e);
    case _ => TerminalOut(s, a);
  }
}
