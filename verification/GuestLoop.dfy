/**
  * The guest side as it is programmed: eventloop, with its local variables as
  * fields.  Each branch of the fd loop is shown to do what the machine in
  * GuestMachine does, and the loop as a whole to be a run of that machine.
  */
module GuestLoops {
  import opened Options
  import opened Xdr
  import opened Protocol
  import opened RpcPackets
  import G = GuestMachine
  import GuestInvariant
  import opened GuestTheorems
  import opened GuestTurns

  ghost function StdinTaken(g: G.Guest, n: nat): G.Guest
    requires g.toStdinOffset + n <= |g.toStdin|
  {
    var offset := g.toStdinOffset + n;
    g.(toStdinOffset := offset, log := g.log.(stdinWritten := g.log.stdinWritten + g.toStdin[g.toStdinOffset..offset]))
  }

  ghost function Started(g: G.Guest, runs: bool): G.Guest {
    if !runs then G.Fail(g, IoFault)
    else g.(state := G.Running, appinOpen := true, rx := Some(LengthWord),
            log := g.log.(starts := g.log.starts + 1))
  }

  lemma NextByteIs(g: G.Guest, data: seq<byte>, runs: bool)
    requires data != [] && g.state == G.Syncing
    ensures G.ProcessRx(g, data, runs) ==
            if data[0] == WAIT then g.(rx := Some(OneByte))
            else if data[0] != SYNC then G.Fail(g, BadHandshakeByte)
            else Started(g, runs)
  {
    hide G.Fail;
  }

  /** A step that went well leads to p; after a fault, rx is of no interest. */
  ghost predicate Reaches(n: G.Guest, p: G.Guest, ok: bool) {
    && n == (if ok then p else p.(rx := n.rx))
    && (ok <==> p.log.fault == NoFault)
  }

  lemma FrameIs(g: G.Guest, frame: seq<byte>)
    requires g.state == G.Running && |frame| > LEN_MAX
    ensures G.ProcessRx(g, frame, true) ==
            if DecodeFrame(frame).None? then G.Fail(g, BadHeader) else G.Deliver(g, DecodeFrame(frame).value)
  {
    hide G.Deliver;
  }

  ghost function Dispatched(g: G.Guest, m: Message): G.Guest {
    g.(rx := None, log := g.log.(received := g.log.received + [m]))
  }

  ghost function GotStdin(g: G.Guest, m: Message): G.Guest {
    if m.payload != [] then Dispatched(g, m).(toStdin := m.payload, toStdinOffset := 0)
    else Dispatched(g, m).(appinOpen := false)
  }

  ghost function GotQuit(g: G.Guest, m: Message): G.Guest {
    Dispatched(g, m).(quit := true)
  }

  /** Dispatching does not depend on rx. */
  lemma DeliverIs(g: G.Guest, m: Message, g': G.Guest)
    requires g' == g.(rx := g'.rx) && g.log.fault == NoFault
    ensures m.header.proc == STDIN ==> Reaches(GotStdin(g', m), G.Deliver(g, m), true)
    ensures m.header.proc == QUIT ==> Reaches(GotQuit(g', m), G.Deliver(g, m), true)
    ensures m.header.proc != STDIN && m.header.proc != QUIT ==> Reaches(G.Fail(g', BadProc), G.Deliver(g, m), false)
  {
  }

  /** q is p, except that after a fault rx is of no interest. */
  ghost predicate Alike(p: G.Guest, q: G.Guest) {
    p.log.fault == q.log.fault && (if p.log.fault == NoFault then p == q else p == q.(rx := p.rx))
  }

  lemma DeliverAlike(g: G.Guest, m: Message, r: Option<Rx>)
    requires g.log.fault == NoFault
    ensures Alike(G.Deliver(g, m), G.Deliver(g.(rx := r), m))
  {
  }

  lemma FirstAlike(g: G.Guest, data: seq<byte>, runs: bool, r: Option<Rx>)
    requires data != [] && g.state == G.Waiting && g.log.fault == NoFault
    ensures Alike(G.ProcessRx(g, data, runs), G.ProcessRx(g.(rx := r), data, runs))
  {
  }

  lemma StartAlike(g: G.Guest, data: seq<byte>, r: Option<Rx>)
    requires data != [] && data[0] == SYNC && g.state == G.Syncing && g.log.fault == NoFault
    ensures Alike(G.ProcessRx(g, data, true), G.ProcessRx(g.(rx := r), data, true))
  {
  }

  lemma NextAlike(g: G.Guest, data: seq<byte>, runs: bool, r: Option<Rx>)
    requires data != [] && g.state == G.Syncing && g.log.fault == NoFault && !(data[0] == SYNC && runs)
    ensures Alike(G.ProcessRx(g, data, runs), G.ProcessRx(g.(rx := r), data, runs))
  {
    if data[0] != WAIT {
      FailAlike(g, BadHandshakeByte, r);
      FailAlike(g, IoFault, r);
      hide G.Fail, Alike;
    }
  }

  lemma FailAlike(g: G.Guest, fault: Fault, r: Option<Rx>)
    requires fault != NoFault
    ensures Alike(G.Fail(g, fault), G.Fail(g.(rx := r), fault))
  {
  }

  lemma FrameAlike(g: G.Guest, data: seq<byte>, runs: bool, r: Option<Rx>)
    requires |data| >= LEN_MAX && g.state == G.Running && g.log.fault == NoFault
    ensures Alike(G.ProcessRx(g, data, runs), G.ProcessRx(g.(rx := r), data, runs))
  {
    hide DecodeFrame, Protocol.DecodeLength, G.Deliver;
    if |data| > LEN_MAX && DecodeFrame(data).Some? {
      hide Alike;
      DeliverAlike(g, DecodeFrame(data).value, r);
    }
  }

  /** What happens to a complete packet does not depend on rx, which held it. */
  lemma ProcessAlike(g: G.Guest, data: seq<byte>, runs: bool, r: Option<Rx>)
    requires data != [] && (g.state == G.Running ==> |data| >= LEN_MAX) && g.log.fault == NoFault
    ensures Alike(G.ProcessRx(g, data, runs), G.ProcessRx(g.(rx := r), data, runs))
  {
    hide G.ProcessRx, Alike;
    if g.state == G.Running {
      FrameAlike(g, data, runs, r);
    } else if g.state == G.Waiting {
      FirstAlike(g, data, runs, r);
    } else if data[0] == SYNC && runs {
      StartAlike(g, data, r);
    } else {
      NextAlike(g, data, runs, r);
    }
  }

  /** A chunk was stored in rx: if the packet is complete, processing it is all that receiving does. */
  lemma ReceiveIs(g: G.Guest, chunk: seq<byte>, runs: bool, stored: G.Guest, n: G.Guest, ok: bool)
    requires g.log.fault == NoFault && g.rx.Some? && 0 < |chunk| <= g.rx.value.length - |g.rx.value.data|
    requires g.state == G.Running ==> g.rx.value.length >= LEN_MAX
    requires stored == g.(rx := Some(Rx(g.rx.value.data + chunk, g.rx.value.length)))
    ensures |g.rx.value.data + chunk| < g.rx.value.length ==> Reaches(stored, G.Receive(g, chunk, runs), true)
    ensures |g.rx.value.data + chunk| == g.rx.value.length ==>
              (Reaches(n, G.ProcessRx(stored, g.rx.value.data + chunk, runs), ok) ==>
                 Reaches(n, G.Receive(g, chunk, runs), ok))
  {
    hide G.ProcessRx;
    if |g.rx.value.data + chunk| == g.rx.value.length {
      ProcessAlike(g, g.rx.value.data + chunk, runs, stored.rx);
    }
  }

  /** Only the second handshake byte asks whether the command runs. */
  lemma RunsIs(g: G.Guest, data: seq<byte>, runs: bool)
    requires data != [] && g.state != G.Syncing && (g.state == G.Running ==> |data| >= LEN_MAX)
    ensures G.ProcessRx(g, data, runs) == G.ProcessRx(g, data, true)
  {
    hide DecodeFrame, Protocol.DecodeLength, G.Deliver;
  }

  // The run that the loop has made.

  /** The bytes that an event takes from the host device, and those that it puts there. */
  ghost function BytesOf(e: G.GuestEvent): seq<byte> {
    if e.Receives? then e.chunk else []
  }

  ghost function SentBy(g: G.Guest, e: G.GuestEvent): seq<byte>
    requires G.Enabled(g, e)
  {
    if e.Sends? then TxRest(g.tx)[..e.count] else []
  }

  ghost function Taken(events: seq<G.GuestEvent>): seq<byte> {
    if events == [] then [] else Taken(events[..|events| - 1]) + BytesOf(events[|events| - 1])
  }

  ghost function Given(g: G.Guest, events: seq<G.GuestEvent>): seq<byte>
    requires Run(g, events).Some?
  {
    if events == [] then []
    else
      var front := events[..|events| - 1];
      Given(g, front) + SentBy(Run(g, front).value, events[|events| - 1])
  }

  /** These events lead from the start of the loop to n. */
  ghost predicate Follows(events: seq<G.GuestEvent>, taken: seq<byte>, given: seq<byte>, n: G.Guest) {
    && Run(G.Boot(), events).Some?
    && Reaches(n, Run(G.Boot(), events).value, n.log.fault == NoFault)
    && Taken(events) == taken && Given(G.Boot(), events) == given
  }

  lemma FollowsOn(events: seq<G.GuestEvent>, taken: seq<byte>, given: seq<byte>,
                  g: G.Guest, e: G.GuestEvent, n: G.Guest, ok: bool)
    requires Follows(events, taken, given, g) && g.log.fault == NoFault
    requires G.Enabled(g, e) && Reaches(n, G.Next(g, e), ok)
    ensures Follows(events + [e], taken + BytesOf(e), given + SentBy(g, e), n)
    ensures ok <==> n.log.fault == NoFault
    ensures ok ==> n == G.Next(g, e)
    ensures n.state == G.Next(g, e).state
  {
    hide G.Enabled, G.Next, SentBy;
    var all := events + [e];
    assert all[..|all| - 1] == events;
  }

  lemma FollowsOk(events: seq<G.GuestEvent>, taken: seq<byte>, given: seq<byte>, g: G.Guest)
    requires Follows(events, taken, given, g) && g.log.fault == NoFault
    ensures G.GuestOk(g)
  {
    hide G.Enabled, G.Next, G.GuestOk;
    GuestInvariant.BootOk();
    RunKeeps(G.Boot(), events);
  }

  /** The other events bring no fault. */
  lemma NoBlame(g: G.Guest, e: G.GuestEvent)
    requires G.Enabled(g, e) && !e.Receives? && !e.SignalPipeFails?
    ensures G.Next(g, e).log.fault == NoFault
  {
    hide Encode, EncodeI32;
  }

  lemma ReadsOn(g: G.Guest, chunk: seq<byte>, runs: bool)
    requires G.Enabled(g, G.Receives(chunk, runs)) && WordDone(g, chunk)
    requires G.Next(g, G.Receives(chunk, runs)).log.fault == NoFault
    ensures var n := G.Next(g, G.Receives(chunk, runs)); G.Polls(n).hostIn && n.rx.Some? && !n.quit
  {
    hide DecodeFrame;
  }

  lemma StaysAwake(g: G.Guest, chunk: seq<byte>, runs: bool)
    requires G.Enabled(g, G.Receives(chunk, runs)) && g.state != G.Waiting
    ensures G.Next(g, G.Receives(chunk, runs)).state != G.Waiting
  {
    hide DecodeFrame, Protocol.DecodeLength;
  }

  lemma MayReceive(g: G.Guest, chunk: seq<byte>, runs: bool)
    requires G.GuestOk(g) && G.Looping(g) && G.Polls(g).hostIn && g.rx.Some?
    requires 0 < |chunk| <= g.rx.value.length - |g.rx.value.data|
    ensures G.Enabled(g, G.Receives(chunk, runs))
    ensures G.Next(g, G.Receives(chunk, runs)) == G.Receive(g, chunk, runs)
    ensures g.state == G.Running ==> g.rx.value.length >= LEN_MAX
  {
    hide G.TxOk, G.SentOk, G.StdinOk, G.ExitOk, G.Receive, Protocol.DecodeLength;
  }

  class GuestLoop {
    var state: G.LoopState
    var rx: RpcPacket?
    var tx: RpcPacket?
    var quit: bool
    var appOutEOF: bool
    var appErrEOF: bool
    var appQuit: bool
    var exitstatus: int32
    var hostToStdin: seq<byte>
    var hostToStdinOffset: nat
    var serial: uint32
    var appinOpen: bool
    ghost var log: G.GuestLog
    // What has happened since the start of the loop.
    ghost var trace: seq<G.GuestEvent>
    ghost var taken: seq<byte>
    ghost var given: seq<byte>

    ghost function Repr(): set<object>
      reads this
    {
      {this} + PacketRepr(rx) + PacketRepr(tx)
    }

    ghost predicate Intact()
      reads Repr()
    {
      PacketOk(rx) && PacketOk(tx) && PacketRepr(rx) !! PacketRepr(tx)
    }

    ghost function View(): G.Guest
      requires Intact()
      reads Repr()
    {
      G.Guest(state, RxView(rx), TxView(tx), quit, appOutEOF, appErrEOF, appQuit, exitstatus,
              hostToStdin, hostToStdinOffset, serial, appinOpen, log)
    }

    /** The fields are what the machine has after the trace. */
    ghost predicate Live()
      reads Repr()
    {
      Intact() && Follows(trace, taken, given, View())
    }

    /** Where the turn is. */
    ghost function Now(left: seq<byte>): Pass
      requires Intact()
      reads Repr()
    {
      Pass(View(), trace, left)
    }

    /** And nothing has failed. */
    ghost predicate Going()
      reads Repr()
    {
      Live() && log.fault == NoFault && !quit
    }

    constructor ()
      ensures Intact() && fresh(Repr()) && View() == G.Boot() && Going() && taken == given == []
    {
      trace, taken, given := [], [], [];
      state, tx, quit, appOutEOF, appErrEOF, appQuit := G.Waiting, null, false, false, false, false;
      exitstatus, hostToStdin, hostToStdinOffset, serial, appinOpen := 0, [], 0, 0, false;
      log := G.Boot().log;
      new;
      rx := RpcPacket.AwaitByte();
    }

    /** gvir_sandbox_encode_stdout */
    method EncodeStdout(data: seq<byte>)
      requires Intact() && |data| <= G.APP_IO
      modifies this`tx, this`serial, this`log
      ensures Intact() && fresh(Repr() - old(Repr()))
      ensures View() == G.Post(old(View()), StdoutMessage(data, old(serial)))
    {
      hide Encode, EncodeI32;
      log := log.(sent := log.sent + [StdoutMessage(data, serial)]);
      tx := RpcPacket.BuildRaw(Header(STDOUT, DATA, STATUS_OK, serial), data);
      serial := (serial + 1) % 0x1_0000_0000;
    }

    /** gvir_sandbox_encode_stderr */
    method EncodeStderr(data: seq<byte>)
      requires Intact() && |data| <= G.APP_IO
      modifies this`tx, this`serial, this`log
      ensures Intact() && fresh(Repr() - old(Repr()))
      ensures View() == G.Post(old(View()), StderrMessage(data, old(serial)))
    {
      hide Encode, EncodeI32;
      log := log.(sent := log.sent + [StderrMessage(data, serial)]);
      tx := RpcPacket.BuildRaw(Header(STDERR, DATA, STATUS_OK, serial), data);
      serial := (serial + 1) % 0x1_0000_0000;
    }

    /** gvir_sandbox_encode_exit */
    method EncodeExit()
      requires Intact()
      modifies this`tx, this`serial, this`log
      ensures Intact() && fresh(Repr() - old(Repr()))
      ensures View() == G.PostExit(old(View()))
    {
      hide Encode, EncodeI32;
      log := log.(exitReap := |log.reaped|, sent := log.sent + [ExitMessage(exitstatus, serial)]);
      tx := RpcPacket.BuildExit(Header(EXIT, MESSAGE, STATUS_OK, serial), exitstatus);
      serial := (serial + 1) % 0x1_0000_0000;
    }

    // The branches of the fd loop.

    /** waitpid found a child; `app` says whether it is the command. */
    method ChildReaped(app: bool, status: int32)
      requires Intact()
      modifies this`appQuit, this`exitstatus, this`tx, this`serial, this`log
      ensures Intact() && fresh(Repr() - old(Repr()))
      ensures View() == G.Reap(old(View()), app, status)
    {
      hide G.PostExit;
      exitstatus := status;
      log := log.(reaped := log.reaped + [status], appReap := if app then |log.reaped| else log.appReap);
      if app {
        appQuit := true;
        if appErrEOF && appOutEOF {
          EncodeExit();
        }
      }
    }

    /** The application's standard output is readable: some data, or its end. */
    method AppoutReadable(data: seq<byte>)
      requires Intact() && |data| <= G.APP_IO
      modifies this`appOutEOF, this`tx, this`serial, this`log
      ensures Intact() && fresh(Repr() - old(Repr()))
      ensures View() == G.AppOut(old(View()), data)
    {
      hide G.PostExit, G.Post;
      if data == [] {
        appOutEOF := true;
        if appErrEOF && appQuit {
          EncodeExit();
        }
      } else {
        log := log.(stdoutRead := log.stdoutRead + data);
        EncodeStdout(data);
      }
    }

    method ApperrReadable(data: seq<byte>)
      requires Intact() && |data| <= G.APP_IO
      modifies this`appErrEOF, this`tx, this`serial, this`log
      ensures Intact() && fresh(Repr() - old(Repr()))
      ensures View() == G.AppErr(old(View()), data)
    {
      hide G.PostExit, G.Post;
      if data == [] {
        appErrEOF := true;
        if appOutEOF && appQuit {
          EncodeExit();
        }
      } else {
        log := log.(stderrRead := log.stderrRead + data);
        EncodeStderr(data);
      }
    }

    /** A write to the application's standard input failed. */
    method AppinFailed()
      requires Intact()
      modifies this`hostToStdin, this`hostToStdinOffset, this`log
      ensures Intact() && View() == G.AppInFails(old(View()))
    {
      hostToStdin, hostToStdinOffset := [], 0;
      log := log.(stdinFailed := true);
    }

    /** It took n bytes. */
    method AppinWritable(n: nat)
      requires Intact() && hostToStdinOffset + n <= |hostToStdin|
      modifies this`hostToStdin, this`hostToStdinOffset, this`rx, this`log
      ensures Intact() && fresh(Repr() - old(Repr()))
      ensures View() == G.AppIn(old(View()), n)
    {
      AppinTook(n);
      if hostToStdinOffset == |hostToStdin| {
        hostToStdin, hostToStdinOffset := [], 0;
        rx := new RpcPacket(true);
      }
    }

    method AppinTook(n: nat)
      requires Intact() && hostToStdinOffset + n <= |hostToStdin|
      modifies this`hostToStdinOffset, this`log
      ensures Intact()
      ensures View() == StdinTaken(old(View()), n)
    {
      log := log.(stdinWritten := log.stdinWritten + hostToStdin[hostToStdinOffset..hostToStdinOffset + n]);
      hostToStdinOffset := hostToStdinOffset + n;
    }

    /** The host device took n bytes of tx, or the write failed. */
    method HostWritable(n: Option<nat>)
      requires Intact() && tx != null && (n.Some? ==> tx.bufferOffset + n.value <= tx.bufferLength)
      modifies this`tx, this`quit, tx`bufferOffset
      ensures Intact() && Repr() <= old(Repr())
      ensures View() == if n.Some? then G.Send(old(View()), n.value) else old(View()).(tx := None, quit := true)
    {
      if n.None? {
        tx, quit := null, true;
        return;
      }
      tx.bufferOffset := tx.bufferOffset + n.value;
      if tx.bufferOffset == tx.bufferLength {
        tx := null;
      }
    }

    // The host device is readable: what follows a complete packet, by loop state.

    /** The first handshake byte. */
    method FirstByte() returns (ok: bool)
      requires Intact() && state == G.Waiting && rx != null && rx.bufferOffset == rx.bufferLength > 0
      requires log.fault == NoFault
      modifies this, rx`bufferLength, rx`bufferOffset
      ensures Intact() && fresh(Repr() - old(Repr())) && rx == old(rx)
      ensures Reaches(View(), G.ProcessRx(old(View()), old(rx.Contents()), true), ok)
      ensures unchanged(`trace, `taken, `given)
    {
      assert rx.Contents()[0] == rx.buffer[0];
      if rx.buffer[0] != WAIT {
        log := log.(fault := BadHandshakeByte);
        return false;
      }
      state := G.Syncing;
      tx := RpcPacket.BuildByte(SYNC);
      rx.bufferOffset, rx.bufferLength := 0, 1;
      return true;
    }

    /** The next ones; `runs` says what run_command would return. */
    method NextByte(runs: bool) returns (ok: bool)
      requires Intact() && state == G.Syncing && rx != null && rx.bufferOffset == rx.bufferLength > 0
      requires log.fault == NoFault
      modifies this, rx`bufferLength, rx`bufferOffset
      ensures Intact() && Repr() == old(Repr()) && rx == old(rx)
      ensures Reaches(View(), G.ProcessRx(old(View()), old(rx.Contents()), runs), ok)
      ensures unchanged(`trace, `taken, `given)
    {
      assert rx.Contents()[0] == rx.buffer[0];
      NextByteIs(View(), rx.Contents(), runs);
      hide G.ProcessRx, Reaches, G.Fail;
      if rx.buffer[0] != WAIT && rx.buffer[0] != SYNC {
        ok := false;
        Blame(BadHandshakeByte, View());
      } else if rx.buffer[0] == SYNC {
        ok := RunCommand(runs);
      } else {
        ok := true;
        IgnoreWait();
      }
    }

    method IgnoreWait()
      requires Intact() && rx != null && log.fault == NoFault
      modifies rx`bufferLength, rx`bufferOffset
      ensures Intact() && Reaches(View(), old(View()).(rx := Some(OneByte)), true)
    {
      rx.bufferOffset, rx.bufferLength := 0, 1;
    }

    method RunCommand(runs: bool) returns (ok: bool)
      requires Intact() && rx != null && log.fault == NoFault
      modifies this`state, this`appinOpen, this`log, rx`bufferLength, rx`bufferOffset
      ensures Intact() && ok == runs
      ensures Reaches(View(), Started(old(View()), runs), ok)
    {
      if !runs {
        log := log.(fault := IoFault);
        return false;
      }
      appinOpen := true;
      log := log.(starts := log.starts + 1);
      state := G.Running;
      rx.bufferOffset, rx.bufferLength := 0, LEN_MAX;
      return true;
    }

    method LengthWordDone() returns (ok: bool)
      requires Intact() && state == G.Running && rx != null && rx.bufferOffset == rx.bufferLength == LEN_MAX
      requires log.fault == NoFault
      modifies this`log, rx`bufferLength, rx`bufferOffset
      ensures Intact() && Repr() == old(Repr()) && rx == old(rx)
      ensures Reaches(View(), G.ProcessRx(old(View()), old(rx.Contents()), true), ok)
    {
      hide Protocol.DecodeLength;
      var r := rx.DecodeLength();
      ok := r.Ok?;
      if r.Err? {
        log := log.(fault := r.error);
      }
    }

    method Blame(fault: Fault, ghost g: G.Guest)
      requires Intact() && fault != NoFault && View() == g.(rx := View().rx)
      modifies this`log
      ensures Intact() && Reaches(View(), G.Fail(g, fault), false)
    {
      log := log.(fault := fault);
    }

    method FrameDone() returns (ok: bool)
      requires Intact() && state == G.Running && rx != null && rx.bufferOffset == rx.bufferLength > LEN_MAX
      requires log.fault == NoFault
      modifies this, rx`bufferOffset, rx`header
      ensures Intact() && Repr() <= old(Repr())
      ensures Reaches(View(), G.ProcessRx(old(View()), old(rx.Contents()), true), ok)
      ensures unchanged(`trace, `taken, `given)
    {
      ghost var frame, g := rx.Contents(), View();
      FrameIs(g, frame);
      hide G.ProcessRx, DecodeFrame, Reaches, G.Fail;
      ok := HeaderDone();
      if ok {
        ok := Dispatch(DecodeFrame(frame).value, g);
      } else {
        Blame(BadHeader, g);
      }
    }

    method HeaderDone() returns (ok: bool)
      requires Intact() && rx != null && rx.bufferLength >= LEN_MAX
      modifies rx`bufferOffset, rx`header
      ensures Intact() && View() == old(View()).(rx := View().rx)
      ensures ok <==> DecodeFrame(rx.Contents()).Some?
      ensures ok ==> var m := DecodeFrame(rx.Contents()).value;
                     rx.header == m.header && rx.buffer[rx.bufferOffset..rx.bufferLength] == m.payload
    {
      hide DecodeFrame;
      var r := rx.DecodeHeader();
      ok := r.Ok?;
    }

    /** The switch on the procedure.  Decoding has moved rx on, so `g` is the state before that. */
    method Dispatch(ghost m: Message, ghost g: G.Guest) returns (ok: bool)
      requires Intact() && rx != null && rx.header == m.header && log.fault == NoFault
      requires rx.buffer[rx.bufferOffset..rx.bufferLength] == m.payload
      requires View() == g.(rx := View().rx)
      modifies this
      ensures Intact() && Repr() <= old(Repr())
      ensures Reaches(View(), G.Deliver(g, m), ok)
      ensures unchanged(`trace, `taken, `given)
    {
      DeliverIs(g, m, View());
      hide G.Deliver, Reaches, GotStdin, GotQuit;
      ok := true;
      if rx.header.proc == STDIN {
        DispatchStdin(m);
      } else if rx.header.proc == QUIT {
        DispatchQuit(m);
      } else {
        log := log.(fault := BadProc);
        ok := false;
      }
    }

    method DispatchQuit(ghost m: Message)
      requires Intact()
      modifies this`rx, this`quit, this`log
      ensures Intact() && Repr() <= old(Repr()) && View() == GotQuit(old(View()), m)
    {
      quit := true;
      log := log.(received := log.received + [m]);
      rx := null;
    }

    method DispatchStdin(ghost m: Message)
      requires Intact() && rx != null && rx.buffer[rx.bufferOffset..rx.bufferLength] == m.payload
      modifies this`hostToStdin, this`hostToStdinOffset, this`appinOpen, this`rx, this`log
      ensures Intact() && Repr() <= old(Repr()) && View() == GotStdin(old(View()), m)
    {
      assert |m.payload| == rx.bufferLength - rx.bufferOffset;
      if rx.bufferLength - rx.bufferOffset > 0 {
        hostToStdin, hostToStdinOffset := rx.buffer[rx.bufferOffset..rx.bufferLength], 0;
      } else {
        appinOpen := false;
      }
      log := log.(received := log.received + [m]);
      rx := null;
    }

    /** A packet is complete: the switch on the loop state. */
    method PacketDone(runs: bool) returns (ok: bool)
      requires Intact() && rx != null && rx.bufferOffset == rx.bufferLength > 0 && log.fault == NoFault
      requires state == G.Running ==> rx.bufferLength >= LEN_MAX
      modifies Repr()
      ensures Intact() && fresh(Repr() - old(Repr()))
      ensures Reaches(View(), G.ProcessRx(old(View()), old(rx.Contents()), runs), ok)
      ensures unchanged(`trace, `taken, `given)
    {
      hide G.ProcessRx, Reaches;
      if state != G.Syncing {
        RunsIs(View(), rx.Contents(), runs);
      }
      match state {
        case Waiting => ok := FirstByte();
        case Syncing => ok := NextByte(runs);
        case Running =>
          if rx.bufferLength == LEN_MAX {
            ok := LengthWordDone();
          } else {
            ok := FrameDone();
          }
      }
    }

    /** A read of the host device returned these bytes. */
    method HostBytes(chunk: seq<byte>, runs: bool) returns (ok: bool)
      requires Intact() && rx != null && 0 < |chunk| <= rx.bufferLength - rx.bufferOffset && log.fault == NoFault
      requires state == G.Running ==> rx.bufferLength >= LEN_MAX
      modifies Repr()
      ensures Intact() && fresh(Repr() - old(Repr()))
      ensures Reaches(View(), G.Receive(old(View()), chunk, runs), ok)
      ensures unchanged(`trace, `taken, `given)
    {
      ghost var g := View();
      hide G.Receive, Reaches;
      Store(chunk);
      ghost var stored := View();
      ok := true;
      if rx.bufferOffset == rx.bufferLength {
        assert rx.Contents() == g.rx.value.data + chunk;
        ok := PacketDone(runs);
      }
      ReceiveIs(g, chunk, runs, stored, View(), ok);
    }

    method Store(chunk: seq<byte>)
      requires Intact() && rx != null && rx.bufferOffset + |chunk| <= rx.bufferLength
      modifies rx`bufferOffset, rx.buffer
      ensures Intact() && rx.bufferOffset == old(rx.bufferOffset) + |chunk|
      ensures rx.buffer[..rx.bufferOffset] == old(rx.buffer[..rx.bufferOffset]) + chunk
      ensures View() == old(View()).(rx := Some(Rx(old(rx.buffer[..rx.bufferOffset]) + chunk, old(rx.bufferLength))))
    {
      rx.Copy(rx.bufferOffset, chunk);
      rx.bufferOffset := rx.bufferOffset + |chunk|;
      assert rx.buffer[..rx.bufferOffset] == rx.buffer[..][..rx.bufferOffset];
    }

    // The fd loop, for descriptors on which poll has reported something.

    /** An event has happened. */
    ghost method Append(e: G.GuestEvent, out: seq<byte>)
      requires Intact() && Follows(trace + [e], taken + BytesOf(e), given + out, View())
      modifies this`trace, this`taken, this`given
      ensures Live() && View() == old(View()) && taken == old(taken) + BytesOf(e) && trace == old(trace) + [e]
    {
      hide Follows, BytesOf;
      trace, taken, given := trace + [e], taken + BytesOf(e), given + out;
    }

    /** One that brings no fault. */
    ghost method Record(g: G.Guest, e: G.GuestEvent)
      requires Intact() && Follows(trace, taken, given, g) && g.log.fault == NoFault
      requires G.Enabled(g, e) && !e.Receives? && !e.SignalPipeFails? && View() == G.Next(g, e)
      modifies this`trace, this`taken, this`given
      ensures Live() && log.fault == NoFault && taken == old(taken) && trace == old(trace) + [e]
      ensures View() == old(View())
    {
      NoBlame(g, e);
      FollowsOn(trace, taken, given, g, e, View(), true) by { hide G.Next, G.Enabled; }
      hide G.Next, G.Enabled, Follows;
      assert taken + BytesOf(e) == taken;
      Append(e, SentBy(g, e));
    }

    ghost method RecordRead(g: G.Guest, e: G.GuestEvent, ok: bool)
      requires Intact() && Follows(trace, taken, given, g) && g.log.fault == NoFault
      requires G.Enabled(g, e) && e.Receives? && Reaches(View(), G.Next(g, e), ok)
      modifies this`trace, this`taken, this`given
      ensures Live() && taken == old(taken) + e.chunk && (ok <==> log.fault == NoFault)
      ensures ok ==> View() == G.Next(g, e)
      ensures state == G.Next(g, e).state && log.fault == G.Next(g, e).log.fault
      ensures trace == old(trace) + [e]
    {
      FollowsOn(trace, taken, given, g, e, View(), ok);
      hide G.Enabled, G.Next, Follows, SentBy, Reaches;
      Append(e, SentBy(g, e));
    }

    /** The host side of the loop, which the application's branches leave alone. */
    twostate predicate SameHostSide()
      reads this
    {
      && state == old(state) && rx == old(rx) && quit == old(quit) && taken == old(taken)
      && hostToStdin == old(hostToStdin) && hostToStdinOffset == old(hostToStdinOffset)
      && appinOpen == old(appinOpen)
    }

    /** The application's standard output, in any state in which it is polled. */
    method ServeAppout(report: seq<byte>, ghost left: seq<byte>)
      requires Going() && state == G.Running && !appOutEOF
      modifies this
      ensures Going() && fresh(Repr() - old(Repr())) && SameHostSide() && appErrEOF == old(appErrEOF)
      ensures Now(left) == Stage(old(Now(left)), AppoutEvent(old(View()), true, Some(report)))
    {
      hide Follows, G.Enabled, G.Next;
      if tx == null {
        PassAppout(Clip(report));
      }
    }

    method PassAppout(data: seq<byte>)
      requires Going() && state == G.Running && !appOutEOF && tx == null && |data| <= G.APP_IO
      modifies this
      ensures Going() && fresh(Repr() - old(Repr())) && SameHostSide() && appErrEOF == old(appErrEOF)
      ensures trace == old(trace) + [G.AppWritesOut(data)]
      ensures G.Enabled(old(View()), G.AppWritesOut(data)) && View() == G.Next(old(View()), G.AppWritesOut(data))
    {
      ghost var g, e := View(), G.AppWritesOut(data);
      hide Follows, G.AppOut;
      assert G.Enabled(g, e) && G.Next(g, e) == G.AppOut(g, data);
      hide G.Enabled, G.Next;
      AppoutReadable(data);
      Record(g, e);
    }

    method ServeApperr(report: seq<byte>, ghost left: seq<byte>)
      requires Going() && state == G.Running && !appErrEOF
      modifies this
      ensures Going() && fresh(Repr() - old(Repr())) && SameHostSide()
      ensures Now(left) == Stage(old(Now(left)), ApperrEvent(old(View()), true, Some(report)))
    {
      hide Follows, G.Enabled, G.Next;
      if tx == null {
        PassApperr(Clip(report));
      }
    }

    method PassApperr(data: seq<byte>)
      requires Going() && state == G.Running && !appErrEOF && tx == null && |data| <= G.APP_IO
      modifies this
      ensures Going() && fresh(Repr() - old(Repr())) && SameHostSide()
      ensures trace == old(trace) + [G.AppWritesErr(data)]
      ensures G.Enabled(old(View()), G.AppWritesErr(data)) && View() == G.Next(old(View()), G.AppWritesErr(data))
    {
      ghost var g, e := View(), G.AppWritesErr(data);
      hide Follows, G.AppErr;
      assert G.Enabled(g, e) && G.Next(g, e) == G.AppErr(g, data);
      hide G.Enabled, G.Next;
      ApperrReadable(data);
      Record(g, e);
    }

    /** The application's standard input: a write that fails, or takes some. */
    method ServeAppin(write: Write, ghost left: seq<byte>)
      requires Going() && state == G.Running && hostToStdin != [] && appinOpen
      requires hostToStdinOffset <= |hostToStdin|
      modifies this
      ensures Going() && fresh(Repr() - old(Repr())) && state == G.Running && taken == old(taken)
      ensures appOutEOF == old(appOutEOF) && appErrEOF == old(appErrEOF)
      ensures Now(left) == Stage(old(Now(left)), AppinEvent(old(View()), true, Some(write)))
    {
      hide Follows;
      match write {
        case Fails => DropStdin();
        case Takes(most) => PassStdin(Min(most, |hostToStdin| - hostToStdinOffset));
      }
    }

    method DropStdin()
      requires Going() && state == G.Running && hostToStdin != [] && appinOpen
      modifies this
      ensures Going() && fresh(Repr() - old(Repr())) && state == G.Running && taken == old(taken)
      ensures appOutEOF == old(appOutEOF) && appErrEOF == old(appErrEOF)
      ensures trace == old(trace) + [G.AppReadFails]
      ensures G.Enabled(old(View()), G.AppReadFails) && View() == G.Next(old(View()), G.AppReadFails)
    {
      ghost var g := View();
      hide Follows, G.AppInFails;
      assert G.Enabled(g, G.AppReadFails) && G.Next(g, G.AppReadFails) == G.AppInFails(g);
      hide G.Enabled, G.Next;
      AppinFailed();
      Record(g, G.AppReadFails);
    }

    method PassStdin(n: nat)
      requires Going() && state == G.Running && hostToStdin != [] && appinOpen
      requires hostToStdinOffset + n <= |hostToStdin|
      modifies this
      ensures Going() && fresh(Repr() - old(Repr())) && state == G.Running && taken == old(taken)
      ensures appOutEOF == old(appOutEOF) && appErrEOF == old(appErrEOF)
      ensures trace == old(trace) + [G.AppReads(n)]
      ensures G.Enabled(old(View()), G.AppReads(n)) && View() == G.Next(old(View()), G.AppReads(n))
    {
      ghost var g := View();
      hide Follows, G.AppIn;
      assert G.Enabled(g, G.AppReads(n)) && G.Next(g, G.AppReads(n)) == G.AppIn(g, n);
      hide G.Enabled, G.Next;
      AppinWritable(n);
      Record(g, G.AppReads(n));
    }

    /** The signal pipe: every child that waitpid finds. */
    method ServeSignals(signals: Signals, ghost left: seq<byte>) returns (ok: bool)
      requires Going()
      modifies this
      ensures Live() && fresh(Repr() - old(Repr())) && SameHostSide()
      ensures appOutEOF == old(appOutEOF) && appErrEOF == old(appErrEOF)
      ensures ok <==> log.fault == NoFault
      ensures Now(left) == Signalled(old(Now(left)), signals)
    {
      hide Follows, Reaping;
      ok := true;
      match signals {
        case Quiet =>
        case Broken =>
          SignalsBroken();
          ok := false;
        case Children(children) => ServeChildren(children, left);
      }
    }

    method ServeChildren(children: seq<Child>, ghost left: seq<byte>)
      requires Going()
      modifies this
      ensures Going() && fresh(Repr() - old(Repr())) && SameHostSide()
      ensures appOutEOF == old(appOutEOF) && appErrEOF == old(appErrEOF)
      ensures Now(left) == Reaping(old(Now(left)), children)
    {
      hide Follows, Stage;
      var i := 0;
      assert children[0..] == children;
      while i < |children|
        invariant i <= |children| && Going() && fresh(Repr() - old(Repr())) && SameHostSide()
        invariant appOutEOF == old(appOutEOF) && appErrEOF == old(appErrEOF)
        invariant Reaping(Now(left), children[i..]) == Reaping(old(Now(left)), children)
      {
        assert children[i..][1..] == children[i + 1..];
        ServeChild(children[i], left);
        i := i + 1;
      }
    }

    method SignalsBroken()
      requires Going()
      modifies this`log, this`trace, this`taken, this`given
      ensures Live() && log.fault != NoFault && Repr() == old(Repr()) && taken == old(taken)
      ensures trace == old(trace) + [G.SignalPipeFails]
      ensures G.Enabled(old(View()), G.SignalPipeFails) && View() == G.Next(old(View()), G.SignalPipeFails)
    {
      ghost var g, e := View(), G.SignalPipeFails;
      FollowsOn(trace, taken, given, g, e, G.Fail(g, IoFault), false);
      assert taken + BytesOf(e) == taken;
      hide Follows, SentBy;
      log := log.(fault := IoFault);
      Append(e, SentBy(g, e));
    }

    /** A child was reaped: perhaps the command, if it is running. */
    method ServeChild(child: Child, ghost left: seq<byte>)
      requires Going()
      modifies this
      ensures Going() && fresh(Repr() - old(Repr())) && SameHostSide()
      ensures appOutEOF == old(appOutEOF) && appErrEOF == old(appErrEOF)
      ensures Now(left) == Stage(old(Now(left)), Some(ReapEvent(old(View()), child)))
    {
      FollowsOk(trace, taken, given, View());
      var app := child.app && state == G.Running && !appQuit;
      ghost var g, e := View(), G.Reaps(app, child.status);
      hide Follows, G.Reap;
      assert G.Enabled(g, e) && G.Next(g, e) == G.Reap(g, app, child.status) by {
        RunningStarted(g);
        hide G.GuestOk;
      }
      hide G.Enabled, G.Next, G.GuestOk;
      ChildReaped(app, child.status);
      Record(g, e);
    }

    lemma RunningStarted(g: G.Guest)
      requires G.GuestOk(g)
      ensures g.state == G.Running ==> g.log.starts > 0
    {
      hide G.TxOk, G.SentOk, G.StdinOk, G.ExitOk;
    }

    /** The host device is polled for input. */
    predicate PolledIn()
      reads this
    {
      rx != null && !(state == G.Running && hostToStdin != [] && appinOpen)
    }

    lemma PolledHasRx()
      ensures PolledIn() ==> rx != null
    {
    }

    /** One read of the host device, and whether it is followed by another (`goto readmore`). */
    method ReadHost(incoming: seq<byte>, most: nat, runs: bool) returns (ok: bool, again: bool, rest: seq<byte>)
      requires Going() && PolledIn()
      modifies Repr()
      ensures Live() && fresh(Repr() - old(Repr())) && (ok <==> log.fault == NoFault)
      ensures taken + rest == old(taken) + incoming && |rest| <= |incoming|
      ensures old(state) != G.Waiting ==> state != G.Waiting
      ensures again ==> Going() && PolledIn() && |rest| < |incoming|
      ensures old(View()).rx.Some?
      ensures var g := old(View());
              var n := Got(g, incoming, most);
              var e := if n == 0 then G.HostEnds else G.Receives(incoming[..n], runs);
              && rest == incoming[n..] && G.Enabled(g, e) && trace == old(trace) + [e]
              && log.fault == G.Next(g, e).log.fault && (ok ==> View() == G.Next(g, e))
              && again == (n > 0 && WordDone(g, incoming[..n]) && ok)
    {
      FollowsOk(trace, taken, given, View());
      var room := rx.bufferLength - rx.bufferOffset;
      var got := Min(most, Min(room, |incoming|));
      assert got == Got(View(), incoming, most) by { hide Follows, G.GuestOk; }
      hide Follows, G.GuestOk, G.Enabled, G.Next, Got, WordDone, PolledIn;
      rest := incoming[got..];
      if got == 0 {
        HostEnded();
        ok, again := true, false;
      } else {
        ok, again := ReadSome(incoming, got, runs);
      }
    }

    /** A read that returned so many bytes. */
    method ReadSome(incoming: seq<byte>, got: nat, runs: bool) returns (ok: bool, again: bool)
      requires Going() && PolledIn() && G.GuestOk(View())
      requires 0 < got <= |incoming| && got <= rx.bufferLength - rx.bufferOffset
      modifies Repr()
      ensures Live() && fresh(Repr() - old(Repr())) && (ok <==> log.fault == NoFault)
      ensures taken + incoming[got..] == old(taken) + incoming
      ensures old(state) != G.Waiting ==> state != G.Waiting
      ensures again ==> Going() && PolledIn()
      ensures var g, e := old(View()), G.Receives(incoming[..got], runs);
              && G.Enabled(g, e) && trace == old(trace) + [e]
              && log.fault == G.Next(g, e).log.fault && (ok ==> View() == G.Next(g, e))
              && again == (WordDone(g, incoming[..got]) && ok)
    {
      hide Follows, G.GuestOk, G.Enabled, G.Next;
      var word := state == G.Running && rx.bufferLength == LEN_MAX == rx.bufferOffset + got;
      assert incoming == incoming[..got] + incoming[got..];
      Associative(taken, incoming[..got], incoming[got..]);
      ok := ReadBytes(incoming[..got], runs);
      again := ok && word;
    }

    method HostEnded()
      requires Going() && PolledIn()
      modifies this
      ensures Live() && Repr() <= old(Repr()) && log.fault == NoFault && taken == old(taken) && state == old(state)
      ensures trace == old(trace) + [G.HostEnds]
      ensures G.Enabled(old(View()), G.HostEnds) && View() == G.Next(old(View()), G.HostEnds)
    {
      ghost var g := View();
      FollowsOk(trace, taken, given, g);
      hide Follows, G.GuestOk;
      rx, quit := null, true;
      Record(g, G.HostEnds);
    }

    method ReadBytes(chunk: seq<byte>, runs: bool) returns (ok: bool)
      requires Going() && PolledIn() && G.GuestOk(View())
      requires 0 < |chunk| <= rx.bufferLength - rx.bufferOffset
      modifies Repr()
      ensures Live() && fresh(Repr() - old(Repr())) && (ok <==> log.fault == NoFault)
      ensures taken == old(taken) + chunk && (old(state) != G.Waiting ==> state != G.Waiting)
      ensures ok && WordDone(old(View()), chunk) ==> Going() && PolledIn()
      ensures var e := G.Receives(chunk, runs);
              && G.Enabled(old(View()), e) && trace == old(trace) + [e]
              && log.fault == G.Next(old(View()), e).log.fault && (ok ==> View() == G.Next(old(View()), e))
    {
      ghost var g, e := View(), G.Receives(chunk, runs);
      MayReceive(g, chunk, runs);
      if state != G.Waiting {
        StaysAwake(g, chunk, runs);
      }
      hide Follows, G.GuestOk, G.Enabled, G.Next, G.Receive, WordDone, Reaches;
      ok := HostBytes(chunk, runs);
      RecordRead(g, e, ok);
      if ok && WordDone(g, chunk) {
        ReadsOn(g, chunk, runs);
      }
    }

    /** The turn is where it is said to be; after a fault it is over, and rx is of no interest. */
    ghost predicate IsAt(left: seq<byte>, p: Pass)
      requires Intact()
      reads Repr()
    {
      && trace == p.events && left == p.rest && log.fault == p.guest.log.fault
      && (log.fault == NoFault ==> View() == p.guest)
    }

    /** The host device is readable. */
    method ServeHostIn(incoming: seq<byte>, amounts: seq<nat>, runs: bool) returns (ok: bool, rest: seq<byte>)
      requires Going() && PolledIn()
      modifies Repr()
      ensures Live() && fresh(Repr() - old(Repr())) && (ok <==> log.fault == NoFault)
      ensures taken + rest == old(taken) + incoming && (old(state) != G.Waiting ==> state != G.Waiting)
      ensures IsAt(rest, HostRead(old(Now(incoming)), amounts, runs))
    {
      hide PolledIn, Follows, WordDone, Got, HostRead, G.Enabled, G.Next;
      var again, i := true, 0;
      ok, rest := true, incoming;
      ghost var all := HostRead(Now(incoming), amounts, runs);
      assert From(amounts, 0) == amounts by { FromStart(amounts); }
      while again
        invariant Live() && fresh(Repr() - old(Repr())) && (ok <==> log.fault == NoFault)
        invariant again ==> Going() && PolledIn()
        invariant taken + rest == old(taken) + incoming && (old(state) != G.Waiting ==> state != G.Waiting)
        invariant if again then HostRead(Now(rest), From(amounts, i), runs) == all else IsAt(rest, all)
        decreases |rest|, again
      {
        ghost var before := Now(rest);
        PolledHasRx();
        FromNext(amounts, i);
        ReadingOn(before, From(amounts, i), runs);
        ok, again, rest := ReadHost(rest, if i < |amounts| then amounts[i] else 0, runs);
        i := i + 1;
      }
    }

    /** The host device is writable: a write that fails, or takes some. */
    method ServeHostOut(write: Write, ghost left: seq<byte>)
      requires Live() && log.fault == NoFault && state != G.Waiting
      modifies Repr()
      ensures Live() && fresh(Repr() - old(Repr())) && log.fault == NoFault && taken == old(taken)
      ensures Now(left) == Stage(old(Now(left)), HostOutEvent(old(View()), true, Some(write)))
    {
      hide Follows, G.Enabled, G.Next;
      if tx != null {
        match write {
          case Fails => HostOutFails();
          case Takes(most) => HostOutTakes(Min(most, tx.bufferLength - tx.bufferOffset));
        }
      }
    }

    method HostOutFails()
      requires Live() && log.fault == NoFault && state != G.Waiting && tx != null
      modifies Repr()
      ensures Live() && fresh(Repr() - old(Repr())) && log.fault == NoFault && taken == old(taken)
      ensures trace == old(trace) + [G.SendFails]
      ensures G.Enabled(old(View()), G.SendFails) && View() == G.Next(old(View()), G.SendFails)
    {
      ghost var g := View();
      hide Follows;
      assert G.Enabled(g, G.SendFails) && G.Next(g, G.SendFails) == g.(tx := None, quit := true);
      hide G.Enabled, G.Next;
      HostWritable(None);
      Record(g, G.SendFails);
    }

    method HostOutTakes(n: nat)
      requires Live() && log.fault == NoFault && state != G.Waiting
      requires tx != null && tx.bufferOffset + n <= tx.bufferLength
      modifies Repr()
      ensures Live() && fresh(Repr() - old(Repr())) && log.fault == NoFault && taken == old(taken)
      ensures trace == old(trace) + [G.Sends(n)]
      ensures G.Enabled(old(View()), G.Sends(n)) && View() == G.Next(old(View()), G.Sends(n))
    {
      ghost var g := View();
      hide Follows, G.Send;
      assert G.Enabled(g, G.Sends(n)) && G.Next(g, G.Sends(n)) == G.Send(g, n);
      hide G.Enabled, G.Next;
      HostWritable(Some(n));
      Record(g, G.Sends(n));
    }

    /** poll has reported something else about the host device. */
    method HostHungUp(ghost left: seq<byte>)
      requires Live() && log.fault == NoFault
      modifies this
      ensures Live() && Repr() == old(Repr()) && log.fault == NoFault && quit && taken == old(taken)
      ensures Now(left) == Stage(old(Now(left)), HangupEvent(old(View()), true, true))
    {
      if !quit {
        ghost var g := View();
        quit := true;
        Record(g, G.HostHangsUp);
      }
    }

    method ServeHost(readable: bool, writable: bool, r: Report, incoming: seq<byte>, ghost polls: G.Poll)
      returns (ok: bool, rest: seq<byte>)
      requires Going() && polls.hostIn == readable && polls.hostOut == writable
      requires (readable ==> PolledIn()) && (writable ==> state != G.Waiting)
      modifies Repr()
      ensures Live() && fresh(Repr() - old(Repr())) && (ok <==> log.fault == NoFault)
      ensures taken + rest == old(taken) + incoming
      ensures IsAt(rest, Hosted(old(Now(incoming)), polls, r))
    {
      hide Follows, PolledIn, HostRead, Stage;
      ok, rest := true, incoming;
      if readable && r.hostIn {
        ok, rest := ServeHostIn(incoming, r.amounts, r.runs);
      }
      if ok {
        ServeHostRest(readable, writable, r, rest);
      }
    }

    method ServeHostRest(readable: bool, writable: bool, r: Report, ghost left: seq<byte>)
      requires Live() && log.fault == NoFault && (writable ==> state != G.Waiting)
      modifies Repr()
      ensures Live() && fresh(Repr() - old(Repr())) && log.fault == NoFault && taken == old(taken)
      ensures var b := Stage(old(Now(left)), HostOutEvent(old(View()), writable, r.hostOut));
              Now(left) == Stage(b, HangupEvent(b.guest, readable || writable, r.hangup))
    {
      hide Follows;
      if writable && r.hostOut.Some? {
        ServeHostOut(r.hostOut.value, left);
      }
      if (readable || writable) && r.hangup {
        HostHungUp(left);
      }
    }

    /**
      * One turn of eventloop: what to poll is decided first, and then each
      * descriptor is served on which poll has reported something.
      */
    method PollOnce(r: Report, incoming: seq<byte>) returns (ok: bool, rest: seq<byte>)
      requires Going()
      modifies Repr()
      ensures Live() && fresh(Repr() - old(Repr())) && (ok <==> log.fault == NoFault)
      ensures taken + rest == old(taken) + incoming
      ensures IsAt(rest, Turn(old(Now(incoming)), r))
    {
      var hostIn, hostOut, appin, appout, apperr := false, false, false, false, false;
      match state {
        case Waiting => hostIn := true;
        case Syncing => hostIn, hostOut := true, tx != null;
        case Running =>
          if hostToStdin != [] && appinOpen {
            appin := true;
          } else if rx != null {
            hostIn := true;
          }
          if tx != null {
            hostOut := true;
          } else {
            appout, apperr := !appOutEOF, !appErrEOF;
          }
      }
      FollowsOk(trace, taken, given, View());
      assert hostToStdinOffset <= |hostToStdin| by { hide Follows, G.RxOk, G.TxOk, G.SentOk, G.ExitOk; }
      assert state != G.Running ==> rx != null by { hide Follows, G.TxOk, G.SentOk, G.StdinOk, G.ExitOk; }
      ghost var polls := G.Polls(View());
      hide G.GuestOk, Follows;
      ok, rest := ServeAll(hostIn, hostOut, appin, appout, apperr, r, incoming, polls);
    }

    /** The application's descriptors, in the order of the fd array; each flag says that one is polled. */
    method ServeApplication(appin: bool, appout: bool, apperr: bool, r: Report, ghost left: seq<byte>,
                            ghost polls: G.Poll)
      requires Going() && polls.appIn == appin && polls.appOut == appout && polls.appErr == apperr
      requires appin ==> state == G.Running && hostToStdin != [] && appinOpen && hostToStdinOffset <= |hostToStdin|
      requires appout ==> state == G.Running && !appOutEOF
      requires apperr ==> state == G.Running && !appErrEOF
      modifies this
      ensures Going() && fresh(Repr() - old(Repr()))
      ensures taken == old(taken) && state == old(state) && (old(PolledIn()) && !appin ==> PolledIn())
      ensures Now(left) == Applied(old(Now(left)), polls, r)
    {
      hide Follows, Stage, G.Enabled, G.Next;
      ghost var start := Now(left);
      NoStage(start);
      if appin && r.appin.Some? {
        ServeAppin(r.appin.value, left);
      }
      ghost var a := Now(left);
      assert a == Stage(start, AppinEvent(start.guest, appin, r.appin));
      NoStage(a);
      if appout && r.appout.Some? {
        ServeAppout(r.appout.value, left);
      }
      ghost var b := Now(left);
      assert b == Stage(a, AppoutEvent(a.guest, appout, r.appout));
      NoStage(b);
      if apperr && r.apperr.Some? {
        ServeApperr(r.apperr.value, left);
      }
    }

    /** The signal pipe, and then the application. */
    method ServeLocal(appin: bool, appout: bool, apperr: bool, r: Report, ghost left: seq<byte>, ghost polls: G.Poll)
      returns (ok: bool)
      requires Going() && polls.appIn == appin && polls.appOut == appout && polls.appErr == apperr
      requires appin ==> state == G.Running && hostToStdin != [] && appinOpen && hostToStdinOffset <= |hostToStdin|
      requires appout ==> state == G.Running && !appOutEOF
      requires apperr ==> state == G.Running && !appErrEOF
      modifies this
      ensures Live() && fresh(Repr() - old(Repr())) && (ok <==> log.fault == NoFault) && (ok ==> Going())
      ensures taken == old(taken) && state == old(state) && (old(PolledIn()) && !appin ==> PolledIn())
      ensures var s := Signalled(old(Now(left)), r.signals);
              (ok <==> s.guest.log.fault == NoFault) && Now(left) == if ok then Applied(s, polls, r) else s
    {
      hide Follows, Signalled, Applied;
      ok := ServeSignals(r.signals, left);
      if ok {
        ServeApplication(appin, appout, apperr, r, left, polls);
      }
    }

    /** All descriptors, the signal pipe first and the host device last. */
    method ServeAll(hostIn: bool, hostOut: bool, appin: bool, appout: bool, apperr: bool, r: Report,
                    incoming: seq<byte>, ghost polls: G.Poll)
      returns (ok: bool, rest: seq<byte>)
      requires Going() && (hostIn ==> PolledIn() && !appin) && (hostOut ==> state != G.Waiting)
      requires appin ==> state == G.Running && hostToStdin != [] && appinOpen && hostToStdinOffset <= |hostToStdin|
      requires appout ==> state == G.Running && !appOutEOF
      requires apperr ==> state == G.Running && !appErrEOF
      requires polls == G.Polls(View()) == G.Poll(hostIn, hostOut, appin, appout, apperr)
      modifies Repr()
      ensures Live() && fresh(Repr() - old(Repr())) && (ok <==> log.fault == NoFault)
      ensures taken + rest == old(taken) + incoming
      ensures IsAt(rest, Turn(old(Now(incoming)), r))
    {
      hide Follows, PolledIn, Signalled, Applied, Hosted, G.Polls;
      rest := incoming;
      ghost var start := Now(incoming);
      ghost var s := Signalled(start, r.signals);
      ok := ServeLocal(appin, appout, apperr, r, incoming, polls);
      assert Turn(start, r) == if ok then Hosted(Applied(s, polls, r), polls, r) else s;
      if ok {
        ok, rest := ServeHost(hostIn, hostOut, r, incoming, polls);
      }
    }

    /**
      * eventloop, with what poll and the descriptors report in each turn, on a
      * host device from which `incoming` can be read: what it does is a run of
      * the machine, in which it has taken the first of these bytes.
      */
    method EventLoop(incoming: seq<byte>, reports: seq<Report>) returns (ok: bool, rest: seq<byte>)
      requires Going() && taken == []
      modifies Repr()
      ensures Live() && fresh(Repr() - old(Repr())) && (ok <==> log.fault == NoFault)
      ensures taken + rest == incoming
      ensures IsAt(rest, Turns(old(Now(incoming)), reports))
    {
      hide Follows, Turn;
      ok, rest := true, incoming;
      var i := 0;
      assert reports[0..] == reports;
      ghost var all := Turns(Now(incoming), reports);
      while ok && !quit && i < |reports|
        invariant i <= |reports| && Live() && fresh(Repr() - old(Repr())) && (ok <==> log.fault == NoFault)
        invariant taken + rest == incoming
        invariant if ok then Turns(Now(rest), reports[i..]) == all else IsAt(rest, all)
      {
        ghost var before := Now(rest);
        assert reports[i..][0] == reports[i] && reports[i..][1..] == reports[i + 1..];
        TurnsStop(Turn(before, reports[i]), reports[i + 1..]);
        ok, rest := PollOnce(reports[i], rest);
        i := i + 1;
      }
      if ok {
        TurnsStop(Now(rest), reports[i..]);
      }
    }
  }
}
