/** Every event keeps the guest's invariant, whatever bytes the host sends. */
module GuestInvariant {
  import opened Options
  import opened Xdr
  import opened Protocol
  import opened GuestMachine

  lemma BootOk()
    ensures GuestOk(Boot())
  {
  }

  // The shape of the messages sent.

  lemma SentAppend(sent: seq<Message>, m: Message)
    requires SentShape(sent, false) && m.header.status == STATUS_OK
    requires m.header.serial == |sent| % 0x1_0000_0000
    requires (m.header.proc in {STDOUT, STDERR} && 0 < |m.payload| <= APP_IO) ||
             (m.header.proc == EXIT && |m.payload| == 4)
    ensures SentShape(sent + [m], m.header.proc == EXIT)
  {
    var all := sent + [m];
    var exited := m.header.proc == EXIT;
    forall i | 0 <= i < |all| ensures SentMessage(all, i, exited) {
      if i < |sent| {
        assert SentMessage(sent, i, false);
      }
    }
  }

  lemma PostOk(g: Guest, m: Message, stdout: seq<byte>, stderr: seq<byte>)
    requires SentShape(g.log.sent, false) && g.serial == |g.log.sent| % 0x1_0000_0000
    requires PayloadOf(g.log.sent, STDOUT) == stdout && PayloadOf(g.log.sent, STDERR) == stderr
    requires Sendable(m) && m.header.status == STATUS_OK && m.header.serial == g.serial
    requires (m.header.proc in {STDOUT, STDERR} && 0 < |m.payload| <= APP_IO) ||
             (m.header.proc == EXIT && |m.payload| == 4)
    ensures var p := Post(g, m);
            && SentShape(p.log.sent, m.header.proc == EXIT)
            && p.serial == |p.log.sent| % 0x1_0000_0000
            && p == g.(tx := Some(Tx(Encode(m), 0)), serial := p.serial,
                       log := g.log.(sent := g.log.sent + [m]))
            && PayloadOf(p.log.sent, STDOUT) == (if m.header.proc == STDOUT then stdout + m.payload else stdout)
            && PayloadOf(p.log.sent, STDERR) == (if m.header.proc == STDERR then stderr + m.payload else stderr)
  {
    hide EncodeI32, Encode, PayloadOf;
    SentAppend(g.log.sent, m);
    PayloadAppend(g.log.sent, m, STDOUT);
    PayloadAppend(g.log.sent, m, STDERR);
  }

  // One lemma for each event.

  lemma PostExitOk(g: Guest)
    requires RxOk(g) && TxOk(g) && StdinOk(g) && g.tx.None? && AppDone(g) && g.state == Running
    requires SentShape(g.log.sent, false) && g.serial == |g.log.sent| % 0x1_0000_0000
    requires PayloadOf(g.log.sent, STDOUT) == g.log.stdoutRead
    requires PayloadOf(g.log.sent, STDERR) == g.log.stderrRead
    requires g.log.appReap < |g.log.reaped| && g.exitstatus == Last(g.log.reaped)
    ensures GuestOk(PostExit(g))
  {
    hide Encode, PayloadOf, Post, EncodeI32;
    var e := g.(log := g.log.(exitReap := |g.log.reaped|));
    PostOk(e, ExitMessage(g.exitstatus, g.serial), g.log.stdoutRead, g.log.stderrRead);
  }

  lemma ReapOk(g: Guest, app: bool, status: int32)
    requires GuestOk(g) && Enabled(g, Reaps(app, status))
    ensures GuestOk(Reap(g, app, status))
  {
    hide EncodeI32, Encode, PayloadOf, PostExit;
    var r := Reaped(g, app, status);
    if app && r.appErrEOF && r.appOutEOF {
      PostExitOk(r);
    }
  }

  lemma AppOutOk(g: Guest, data: seq<byte>)
    requires GuestOk(g) && Enabled(g, AppWritesOut(data))
    ensures GuestOk(AppOut(g, data))
  {
    hide EncodeI32, Encode, PayloadOf, PostExit, Post;
    if data == [] {
      if g.appErrEOF && g.appQuit {
        PostExitOk(g.(appOutEOF := true));
      }
    } else {
      PostOk(g.(log := g.log.(stdoutRead := g.log.stdoutRead + data)), StdoutMessage(data, g.serial),
             g.log.stdoutRead, g.log.stderrRead);
    }
  }

  lemma AppErrOk(g: Guest, data: seq<byte>)
    requires GuestOk(g) && Enabled(g, AppWritesErr(data))
    ensures GuestOk(AppErr(g, data))
  {
    hide EncodeI32, Encode, PayloadOf, PostExit, Post;
    if data == [] {
      if g.appOutEOF && g.appQuit {
        PostExitOk(g.(appErrEOF := true));
      }
    } else {
      PostOk(g.(log := g.log.(stderrRead := g.log.stderrRead + data)), StderrMessage(data, g.serial),
             g.log.stdoutRead, g.log.stderrRead);
    }
  }

  /** The sending side of the guest depends only on these fields. */
  lemma SameSender(g: Guest, n: Guest)
    requires TxOk(g) && SentOk(g) && ExitOk(g)
    requires n.state == g.state && n.tx == g.tx && n.serial == g.serial && n.exitstatus == g.exitstatus
    requires n.appOutEOF == g.appOutEOF && n.appErrEOF == g.appErrEOF && n.appQuit == g.appQuit
    requires n.log.sent == g.log.sent && n.log.reaped == g.log.reaped && n.log.appReap == g.log.appReap
    requires n.log.exitReap == g.log.exitReap
    requires n.log.stdoutRead == g.log.stdoutRead && n.log.stderrRead == g.log.stderrRead
    ensures TxOk(n) && SentOk(n) && ExitOk(n)
  {
    hide EncodeI32, SentShape, Encode, PayloadOf;
  }

  lemma AppInOk(g: Guest, n: nat)
    requires GuestOk(g) && Enabled(g, AppReads(n))
    ensures GuestOk(AppIn(g, n))
  {
    hide StdinOk, TxOk, SentOk, ExitOk, DecodeLength;
    assert g.state == Running && g.toStdin != [] && g.appinOpen;
    AppInStdin(g, n);
    SameSender(g, AppIn(g, n));
  }

  lemma AppInStdin(g: Guest, n: nat)
    requires StdinOk(g) && g.state == Running && g.toStdin != [] && g.appinOpen
    requires g.toStdinOffset + n <= |g.toStdin|
    ensures StdinOk(AppIn(g, n))
  {
    hide EncodeI32, PayloadOf;
    var offset := g.toStdinOffset + n;
    var a := AppIn(g, n);
    assert !g.log.stdinFailed;
    assert g.toStdin[g.toStdinOffset..] == g.toStdin[g.toStdinOffset..offset] + g.toStdin[offset..];
    Associative(g.log.stdinWritten, g.toStdin[g.toStdinOffset..offset], g.toStdin[offset..]);
    if offset == |g.toStdin| {
      assert g.toStdin[g.toStdinOffset..] == g.toStdin[g.toStdinOffset..offset];
      assert a.toStdin[a.toStdinOffset..] == [];
    }
  }

  lemma SendOk(g: Guest, n: nat)
    requires GuestOk(g) && Enabled(g, Sends(n))
    ensures GuestOk(Send(g, n))
  {
    hide EncodeI32, SentShape, Encode, PayloadOf, DecodeLength, StdinOk, ExitOk;
    var s := Send(g, n);
    assert s == g.(tx := s.tx);
    assert ExitOk(s) && StdinOk(s) by { OtherThanTx(g, s.tx); }
  }

  lemma OtherThanTx(g: Guest, tx: Option<Tx>)
    requires StdinOk(g) && ExitOk(g)
    ensures StdinOk(g.(tx := tx)) && ExitOk(g.(tx := tx))
  {
    hide EncodeI32, PayloadOf;
  }

  lemma DeliverOk(g: Guest, m: Message)
    requires GuestOk(g) && g.state == Running && g.rx.Some?
    ensures GuestOk(Deliver(g, m))
  {
    hide RxOk, TxOk, SentOk, ExitOk, StdinOk, Deliver;
    DeliverStdin(g, m);
    DeliverFields(g, m);
    DeliverRx(g, m);
    SameSender(g, Deliver(g, m));
  }

  lemma DeliverFields(g: Guest, m: Message)
    ensures var d := Deliver(g, m);
            && d == g.(rx := d.rx, quit := d.quit, toStdin := d.toStdin, toStdinOffset := d.toStdinOffset,
                       appinOpen := d.appinOpen, log := d.log)
            && d.log == g.log.(fault := d.log.fault, received := d.log.received)
  {
  }

  lemma DeliverRx(g: Guest, m: Message)
    requires RxOk(g) && g.state == Running
    ensures RxOk(Deliver(g, m))
  {
    hide DecodeLength;
  }

  lemma DeliverStdin(g: Guest, m: Message)
    requires StdinOk(g) && g.state == Running && g.rx.Some?
    ensures StdinOk(Deliver(g, m))
  {
    hide PayloadOf;
    PayloadAppend(g.log.received, m, STDIN);
    assert g.toStdin[g.toStdinOffset..] == [];
    var d := Deliver(g, m);
    if m.header.proc == STDIN {
      assert d.toStdin[d.toStdinOffset..] == m.payload;
    } else {
      assert d.toStdin == [];
    }
  }

  lemma HandshakeOk(g: Guest, chunk: seq<byte>, runs: bool)
    requires GuestOk(g) && Enabled(g, Receives(chunk, runs)) && g.state != Running
    ensures GuestOk(Receive(g, chunk, runs))
  {
    hide EncodeI32, SentShape, Encode, PayloadOf, DecodeFrame, Deliver, DecodeLength;
    assert g.rx.value.data + chunk == chunk;
  }

  lemma FrameOk(g: Guest, data: seq<byte>)
    requires GuestOk(g) && g.state == Running && g.rx.Some? && g.log.fault == NoFault
    requires |data| == g.rx.value.length
    requires |data| > LEN_MAX || DecodeLength(data).Err? || data == data[..LEN_MAX]
    ensures GuestOk(ProcessRx(g, data, true))
  {
    hide EncodeI32, SentShape, Encode, PayloadOf, DecodeFrame, Deliver;
    if |data| > LEN_MAX && DecodeFrame(data).Some? {
      DeliverOk(g, DecodeFrame(data).value);
    }
  }

  lemma ReceiveOk(g: Guest, chunk: seq<byte>, runs: bool)
    requires GuestOk(g) && Enabled(g, Receives(chunk, runs))
    ensures GuestOk(Receive(g, chunk, runs))
  {
    hide EncodeI32, SentShape, Encode, PayloadOf, DecodeFrame, Deliver;
    var data := g.rx.value.data + chunk;
    if g.state != Running {
      HandshakeOk(g, chunk, runs);
    } else if |data| == g.rx.value.length {
      assert |data| == LEN_MAX ==> data[..LEN_MAX] == data;
      FrameOk(g, data);
    } else if |g.rx.value.data| >= LEN_MAX {
      assert data[..LEN_MAX] == g.rx.value.data[..LEN_MAX];
    }
  }

  lemma OtherOk(g: Guest, e: GuestEvent)
    requires GuestOk(g) && Enabled(g, e)
    requires e.HostEnds? || e.SendFails? || e.HostHangsUp? || e.AppReadFails? || e.SignalPipeFails?
    ensures GuestOk(Next(g, e))
  {
    hide EncodeI32, SentShape, Encode, PayloadOf;
  }

  /**
    * A packet is built only when tx is empty: to answer the first handshake byte,
    * or to carry output or the exit status; and then only one.
    */
  lemma BuildsIntoEmptyTx(g: Guest, e: GuestEvent)
    requires GuestOk(g) && Enabled(g, e)
    requires var n := Next(g, e); n.log.sent != g.log.sent || (g.state == Waiting && n.state == Syncing)
    ensures var n := Next(g, e);
            && g.tx.None? && n.tx.Some? && n.tx.value.offset == 0
            && g.log.sent <= n.log.sent && |n.log.sent| <= |g.log.sent| + 1
  {
    hide EncodeI32, Encode, Receive, Reap, AppOut, AppErr, SentOk, StdinOk, ExitOk;
    match e
    case Receives(chunk, runs) => ReceiveBuilds(g, chunk, runs);
    case Reaps(app, status) => ReapBuilds(g, app, status);
    case AppWritesOut(data) => OutputBuilds(g, data);
    case AppWritesErr(data) => OutputBuilds(g, data);
    case _ =>
  }

  /** At most one packet is put into tx. */
  ghost predicate BuildsOne(g: Guest, n: Guest) {
    && n.state == g.state
    && (n.log.sent != g.log.sent ==>
          && n.tx.Some? && n.tx.value.offset == 0
          && g.log.sent <= n.log.sent && |n.log.sent| == |g.log.sent| + 1)
  }

  lemma ReceiveBuilds(g: Guest, chunk: seq<byte>, runs: bool)
    requires RxOk(g) && TxOk(g) && Enabled(g, Receives(chunk, runs))
    ensures var n := Receive(g, chunk, runs);
            && n.log.sent == g.log.sent
            && (g.state == Waiting && n.state == Syncing ==>
                  g.tx.None? && n.tx.Some? && n.tx.value.offset == 0)
  {
    hide EncodeI32, Encode, ProcessRx;
    var data := g.rx.value.data + chunk;
    if |data| == g.rx.value.length {
      ProcessBuilds(g, data, runs);
    }
  }

  lemma ProcessBuilds(g: Guest, data: seq<byte>, runs: bool)
    requires data != [] && (g.state == Running ==> |data| >= LEN_MAX)
    ensures var n := ProcessRx(g, data, runs);
            && n.log.sent == g.log.sent
            && (g.state == Waiting && n.state == Syncing ==> n.tx == Some(Tx([SYNC], 0)))
  {
    hide EncodeI32, Encode, DecodeFrame, DecodeLength, Deliver;
    if g.state == Running && DecodeFrame(data).Some? {
      DeliverFields(g, DecodeFrame(data).value);
    }
  }

  lemma ReapBuilds(g: Guest, app: bool, status: int32)
    requires SentOk(g) && Enabled(g, Reaps(app, status))
    ensures BuildsOne(g, Reap(g, app, status))
    ensures Reap(g, app, status).log.sent != g.log.sent ==> g.tx.None?
  {
    hide EncodeI32, Encode, PayloadOf, SentShape;
  }

  lemma OutputBuilds(g: Guest, data: seq<byte>)
    requires |data| <= APP_IO
    ensures BuildsOne(g, AppOut(g, data)) && BuildsOne(g, AppErr(g, data))
  {
    hide EncodeI32, Encode;
  }

  lemma NextOk(g: Guest, e: GuestEvent)
    requires GuestOk(g) && Enabled(g, e)
    ensures GuestOk(Next(g, e))
  {
    hide EncodeI32, GuestOk;
    match e
    case Receives(chunk, runs) => ReceiveOk(g, chunk, runs);
    case Sends(n) => SendOk(g, n);
    case Reaps(app, status) => ReapOk(g, app, status);
    case AppWritesOut(data) => AppOutOk(g, data);
    case AppWritesErr(data) => AppErrOk(g, data);
    case AppReads(n) => AppInOk(g, n);
    case _ => OtherOk(g, e);
  }
}
