/** Every event keeps the host's invariant, whatever bytes the peer sends. */
module HostInvariant {
  import opened Options
  import opened Xdr
  import opened Protocol
  import opened HostMachine

  // The shape of the outbox.

  lemma ShapeMayQuit(outbox: seq<Message>, read: seq<byte>, eof: bool, before: bool)
    requires OutboxShape(outbox, read, eof, before)
    ensures OutboxShape(outbox, read, eof, true)
  {
    forall i | 0 <= i < |outbox| ensures OutboxMessage(outbox, i, read, eof, true) {
      assert OutboxMessage(outbox, i, read, eof, before);
    }
  }

  lemma ShapeWithdraw(outbox: seq<Message>, read: seq<byte>, eof: bool, mayQuit: bool)
    requires OutboxShape(outbox, read, eof, mayQuit) && outbox != []
    ensures OutboxShape(outbox[..|outbox| - 1], read, eof, false)
  {
    var rest := outbox[..|outbox| - 1];
    PayloadPrefix(rest, outbox, STDIN);
    forall i | 0 <= i < |rest| ensures OutboxMessage(rest, i, read, eof, false) {
      assert OutboxMessage(outbox, i, read, eof, mayQuit);
      assert rest[..i] == outbox[..i];
    }
  }

  lemma ShapeStdin(outbox: seq<Message>, read: seq<byte>, data: seq<byte>, serial: uint32)
    requires OutboxShape(outbox, read, false, false) && PayloadOf(outbox, STDIN) == read && |data| <= MAX_IO
    ensures OutboxShape(outbox + [StdinMessage(data, serial)], read + data, data == [], false)
    ensures PayloadOf(outbox + [StdinMessage(data, serial)], STDIN) == read + data
  {
    var m := StdinMessage(data, serial);
    var all := outbox + [m];
    PayloadAppend(outbox, m, STDIN);
    var eof := data == [];
    var read' := read + data;
    forall i | 0 <= i < |all| ensures OutboxMessage(all, i, read', eof, false) {
      if i < |outbox| {
        assert OutboxMessage(outbox, i, read, false, false);
      } else {
        assert all[..i] == outbox;
      }
    }
  }

  lemma ShapeQuit(outbox: seq<Message>, read: seq<byte>, eof: bool, serial: uint32)
    requires OutboxShape(outbox, read, eof, false)
    ensures OutboxShape(outbox + [QuitMessage(serial)], read, eof, true)
  {
    var m := QuitMessage(serial);
    var all := outbox + [m];
    PayloadAppend(outbox, m, STDIN);
    forall i | 0 <= i < |all| ensures OutboxMessage(all, i, read, eof, true) {
      if i < |outbox| {
        assert OutboxMessage(outbox, i, read, eof, false);
        assert all[..i] == outbox[..i];
      }
    }
  }

  lemma DropTxShape(h: Host)
    requires OutboxShape(h.log.outbox, h.log.stdinRead, h.localEOF, h.state in {Finished, Inactive})
    ensures var d := DropTx(h); d == h.(tx := None, log := h.log.(outbox := d.log.outbox, cut := d.log.cut))
    ensures OutboxShape(DropTx(h).log.outbox, h.log.stdinRead, h.localEOF, true)
    ensures h.state !in {Finished, Inactive} ==>
              OutboxShape(DropTx(h).log.outbox, h.log.stdinRead, h.localEOF, false)
  {
    hide EncodeI32, OutboxShape;
    var ended := h.state in {Finished, Inactive};
    DropTxFields(h);
    ShapeMayQuit(h.log.outbox, h.log.stdinRead, h.localEOF, ended);
    if h.log.outbox != [] {
      ShapeWithdraw(h.log.outbox, h.log.stdinRead, h.localEOF, ended);
      ShapeMayQuit(h.log.outbox[..|h.log.outbox| - 1], h.log.stdinRead, h.localEOF, false);
    }
  }

  lemma DropTxFields(h: Host)
    ensures var d := DropTx(h); d == h.(tx := None, log := h.log.(outbox := d.log.outbox, cut := d.log.cut))
  {
  }

  // One lemma for each way a step can go.

  lemma AttachOk(form: DrainForm, escape: Option<byte>)
    ensures HostOk(Attach(Fresh(form, escape)))
  {
  }

  lemma DetachOk(h: Host)
    requires HostOk(h)
    ensures HostOk(Detach(h))
  {
    hide EncodeI32, DropTx, Encode, PayloadOf;
    DropTxShape(h);
  }

  lemma CloseOk(h: Host, error: bool)
    requires HostOk(h) && h.state != Inactive
    requires error || h.log.exited == [] || h.state == Finished
    ensures HostOk(Close(h, error))
  {
    hide EncodeI32, DropTx, Encode, PayloadOf;
    DropTxShape(h);
    assert Close(h, error).log.closed == [error];
    if h.state == Finished {
      assert h.out[h.outOffset..] == [] && h.err[h.errOffset..] == [];
    }
  }

  lemma FailOk(h: Host, fault: Fault)
    requires HostOk(h) && h.state != Inactive && fault !in {UnexpectedRx, UnexpectedTx}
    ensures HostOk(Fail(h, fault))
  {
    hide EncodeI32, DropTx, Encode, PayloadOf;
    DropTxShape(h.(log := h.log.(fault := fault)));
    assert Fail(h, fault).log.closed == [true];
  }

  lemma FinishOk(h: Host)
    requires QueuesOk(h) && OutboxOk(h) && DeliveryOk(h) && SignalsOk(h.(state := Finished))
    requires h.state in {Running, Stopping} && h.rx.None? && h.out == [] && h.err == []
    ensures HostOk(SetState(h, Finished))
  {
    hide EncodeI32, DropTx, Encode, PayloadOf;
    DropTxShape(h);
    var d := DropTx(h);
    ShapeQuit(d.log.outbox, h.log.stdinRead, h.localEOF, HeaderSerial(h.serial));
  }

  lemma SendOk(h: Host, n: nat)
    requires HostOk(h) && Enabled(h, Sends(n))
    ensures HostOk(Send(h, n))
  {
    hide EncodeI32, Encode, PayloadOf;
    if h.tx.value.offset + n == |h.tx.value.wire| && h.state == Finished {
      ShapeMayQuit(h.log.outbox, h.log.stdinRead, h.localEOF, true);
    }
  }

  lemma TimerOk(h: Host)
    requires HostOk(h) && Enabled(h, TimerFires)
    ensures HostOk(TimerFired(h))
  {
    hide EncodeI32, Encode, PayloadOf;
  }

  lemma StdinReadOk(h: Host, data: seq<byte>)
    requires HostOk(h) && Enabled(h, ReadsStdin(data))
    ensures HostOk(StdinRead(h, data))
  {
    hide EncodeI32, Encode, PayloadOf;
    if data != [] && h.escape == Some(data[0]) {
      CloseOk(h, false);
    } else {
      ShapeStdin(h.log.outbox, h.log.stdinRead, data, HeaderSerial(h.serial));
    }
  }

  lemma StdoutWriteOk(h: Host, n: nat)
    requires HostOk(h) && Enabled(h, WritesStdout(n))
    ensures HostOk(StdoutWrite(h, n))
  {
    hide EncodeI32, Encode, PayloadOf;
    if h.outOffset + n < |h.out| {
      StdoutPartOk(h, n);
    } else {
      StdoutAllOk(h, n);
    }
  }

  lemma StdoutPartOk(h: Host, n: nat)
    requires HostOk(h) && Enabled(h, WritesStdout(n)) && h.outOffset + n < |h.out|
    ensures HostOk(StdoutWrite(h, n))
  {
    hide EncodeI32, Encode, PayloadOf, OutboxShape;
    var offset := h.outOffset + n;
    var w := StdoutWrite(h, n);
    assert StateOk(w) && QueuesOk(w) && OutboxOk(w) && SignalsOk(w);
    assert h.out[h.outOffset..] == h.out[h.outOffset..offset] + h.out[offset..];
    Associative(h.log.stdoutWritten, h.out[h.outOffset..offset], h.out[offset..]);
    assert DeliveryOk(w);
  }

  lemma StdoutAllOk(h: Host, n: nat)
    requires HostOk(h) && Enabled(h, WritesStdout(n)) && h.outOffset + n == |h.out|
    ensures HostOk(StdoutWrite(h, n))
  {
    hide EncodeI32, Encode, PayloadOf;
    var w := h.(log := h.log.(stdoutWritten := h.log.stdoutWritten + h.out[h.outOffset..]));
    assert h.out[h.outOffset..h.outOffset + n] == h.out[h.outOffset..];
    assert StdoutWrite(h, n) == Drained(w.(out := [], outOffset := 0), h.err) by { hide EncodeI32, HostOk, Drained; }
    StdoutDrainedOk(h, w);
  }

  lemma StdoutDrainedOk(h: Host, w: Host)
    requires HostOk(h) && Wants(h).stdout
    requires w == h.(log := h.log.(stdoutWritten := h.log.stdoutWritten + h.out[h.outOffset..]))
    ensures HostOk(Drained(w.(out := [], outOffset := 0), h.err))
  {
    hide EncodeI32, Encode, PayloadOf;
    if h.state == Stopping && h.err == [] {
      FinishOk(w.(out := [], outOffset := 0));
    }
  }

  lemma StderrWriteOk(h: Host, n: nat)
    requires HostOk(h) && Enabled(h, WritesStderr(n))
    ensures HostOk(StderrWrite(h, n))
  {
    hide EncodeI32, Encode, PayloadOf;
    if h.errOffset + n < |h.err| {
      StderrPartOk(h, n);
    } else {
      StderrAllOk(h, n);
    }
  }

  lemma StderrPartOk(h: Host, n: nat)
    requires HostOk(h) && Enabled(h, WritesStderr(n)) && h.errOffset + n < |h.err|
    ensures HostOk(StderrWrite(h, n))
  {
    hide EncodeI32, Encode, PayloadOf, OutboxShape;
    var offset := h.errOffset + n;
    var w := StderrWrite(h, n);
    assert StderrStart(h) == h.errOffset;
    assert StateOk(w) && QueuesOk(w) && OutboxOk(w) && SignalsOk(w);
    assert h.err[h.errOffset..] == h.err[h.errOffset..offset] + h.err[offset..];
    Associative(h.log.stderrWritten, h.err[h.errOffset..offset], h.err[offset..]);
    assert DeliveryOk(w);
  }

  lemma StderrAllOk(h: Host, n: nat)
    requires HostOk(h) && Enabled(h, WritesStderr(n)) && h.errOffset + n == |h.err|
    ensures HostOk(StderrWrite(h, n))
  {
    hide EncodeI32, Encode, PayloadOf;
    assert h.form == AsMeant;
    var w := h.(log := h.log.(stderrWritten := h.log.stderrWritten + h.err[h.errOffset..]));
    assert h.err[h.errOffset..h.errOffset + n] == h.err[h.errOffset..];
    assert StderrWrite(h, n) == Drained(w.(err := [], errOffset := 0), h.out) by { hide EncodeI32, HostOk, Drained; }
    StderrDrainedOk(h, w);
  }

  lemma StderrDrainedOk(h: Host, w: Host)
    requires HostOk(h) && Wants(h).stderr && h.form == AsMeant
    requires w == h.(log := h.log.(stderrWritten := h.log.stderrWritten + h.err[h.errOffset..]))
    ensures HostOk(Drained(w.(err := [], errOffset := 0), h.out))
  {
    hide EncodeI32, Encode, PayloadOf;
    if h.state == Stopping && h.out == [] {
      FinishOk(w.(err := [], errOffset := 0));
    }
  }

  /** What is left of HostOk between taking a packet out of rx and re-arming rx. */
  ghost predicate Dispatching(h: Host) {
    && h.state == Running && h.rx.None? && RoomInQueues(h) && (h.tx.Some? ==> Sending(h))
    && QueuesOk(h) && OutboxOk(h) && DeliveryOk(h) && SignalsOk(h)
  }

  lemma FailDispatchOk(h: Host, fault: Fault)
    requires Dispatching(h) && fault !in {UnexpectedRx, UnexpectedTx}
    ensures HostOk(Fail(h, fault))
  {
    hide EncodeI32, DropTx, Encode, PayloadOf;
    DropTxShape(h.(log := h.log.(fault := fault)));
    assert Fail(h, fault).log.closed == [true];
  }

  /** rx is re-armed when the queues have room. */
  function Rearm(h: Host): Host {
    if h.state == Running && RoomInQueues(h) then h.(rx := Some(LengthWord)) else h
  }

  lemma DeliverStdoutOk(h: Host, m: Message)
    requires Dispatching(h) && Sendable(m) && m.header.status == STATUS_OK && m.header.proc == STDOUT
    ensures HostOk(Rearm(Deliver(h, m)))
  {
    hide EncodeI32, Encode, PayloadOf, DecodeLength, SetState, Fail;
    var d := Deliver(h, m);
    assert d == h.(out := h.out + m.payload, log := h.log.(received := h.log.received + [m]));
    assert DeliveryOk(d) by {
      PayloadAppend(h.log.received, m, STDOUT);
      PayloadAppend(h.log.received, m, STDERR);
      assert d.out[h.outOffset..] == h.out[h.outOffset..] + m.payload;
      Associative(h.log.stdoutWritten, h.out[h.outOffset..], m.payload);
    }
    assert SignalsOk(d);
    assert OutboxOk(d);
  }

  lemma DeliverStderrOk(h: Host, m: Message)
    requires Dispatching(h) && Sendable(m) && m.header.status == STATUS_OK && m.header.proc == STDERR
    ensures HostOk(Rearm(Deliver(h, m)))
  {
    hide EncodeI32, Encode, PayloadOf, DecodeLength, SetState, Fail;
    var d := Deliver(h, m);
    assert d == h.(err := h.err + m.payload, log := h.log.(received := h.log.received + [m]));
    assert DeliveryOk(d) by {
      PayloadAppend(h.log.received, m, STDOUT);
      PayloadAppend(h.log.received, m, STDERR);
      assert d.err[h.errOffset..] == h.err[h.errOffset..] + m.payload;
      Associative(h.log.stderrWritten, h.err[h.errOffset..], m.payload);
    }
    assert SignalsOk(d);
    assert OutboxOk(d);
  }

  lemma DeliverExitOk(h: Host, m: Message)
    requires Dispatching(h) && m.header.status == STATUS_OK && m.header.proc == EXIT && |m.payload| >= 4
    ensures HostOk(Deliver(h, m))
  {
    hide EncodeI32, DropTx, Encode, PayloadOf, DecodeI32;
    PayloadAppend(h.log.received, m, STDOUT);
    PayloadAppend(h.log.received, m, STDERR);
    var told := h.(log := h.log.(received := h.log.received + [m],
                                 exited := h.log.exited + [DecodeI32(m.payload[..4])]));
    if h.out == [] && h.err == [] {
      FinishOk(told);
    } else {
      DropTxShape(told);
    }
  }

  lemma DeliverOk(h: Host, m: Message)
    requires Dispatching(h) && Sendable(m)
    ensures HostOk(Rearm(Deliver(h, m)))
  {
    hide EncodeI32, Encode, PayloadOf, HostOk;
    if m.header.status != STATUS_OK {
      FailDispatchOk(h, BadStatus);
    } else if m.header.proc == STDOUT {
      DeliverStdoutOk(h, m);
    } else if m.header.proc == STDERR {
      DeliverStderrOk(h, m);
    } else if m.header.proc == EXIT && |m.payload| >= 4 {
      DeliverExitOk(h, m);
    } else if m.header.proc == EXIT {
      FailDispatchOk(h, BadExitPayload);
    } else {
      FailDispatchOk(h, BadProc);
    }
  }

  lemma ReceiveOk(h: Host, chunk: seq<byte>)
    requires HostOk(h) && Enabled(h, Receives(chunk))
    ensures HostOk(Receive(h, chunk))
  {
    hide EncodeI32, Encode, PayloadOf;
    var data := h.rx.value.data + chunk;
    if |data| == h.rx.value.length {
      ReceiveAllOk(h, data);
    } else if |h.rx.value.data| >= LEN_MAX {
      assert data[..LEN_MAX] == h.rx.value.data[..LEN_MAX];
    }
  }

  lemma ReceiveAllOk(h: Host, data: seq<byte>)
    requires HostOk(h) && h.rx.Some? && |data| == h.rx.value.length
    ensures HostOk(ProcessRx(h.(rx := None), data))
  {
    hide EncodeI32, Encode, PayloadOf, DecodeFrame, Deliver;
    var t := h.(rx := None);
    if h.state == Running {
      assert Dispatching(t);
      if |data| == LEN_MAX {
        assert data[..LEN_MAX] == data;
        if DecodeLength(data).Err? {
          FailDispatchOk(t, BadLength);
        }
      } else {
        DispatchOk(t, data);
      }
    }
  }

  lemma DispatchOk(h: Host, frame: seq<byte>)
    requires Dispatching(h) && |frame| <= LEN_MAX + PACKET_MAX
    ensures HostOk(Rearm(Dispatch(h, frame)))
  {
    hide EncodeI32, HostOk;
    if DecodeFrame(frame).None? {
      FailDispatchOk(h, BadHeader);
    } else {
      DeliverOk(h, DecodeFrame(frame).value);
    }
  }

  lemma NextOk(h: Host, e: HostEvent)
    requires HostOk(h) && Enabled(h, e)
    ensures HostOk(Next(h, e))
  {
    hide EncodeI32, HostOk;
    match e
    case Receives(chunk) => ReceiveOk(h, chunk);
    case Sends(n) => SendOk(h, n);
    case TimerFires => TimerOk(h);
    case ReadsStdin(data) => StdinReadOk(h, data);
    case WritesStdout(n) => StdoutWriteOk(h, n);
    case WritesStderr(n) => StderrWriteOk(h, n);
    case HitsIoError => FailOk(h, IoFault);
    case IsDetached => DetachOk(h);
  }
}
