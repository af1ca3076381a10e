/**
  * What the host guarantees on its own: over every run of its events, whatever
  * the peer sends and however reads and writes are split.
  */
module HostTheorems {
  import opened Options
  import opened Xdr
  import opened Protocol
  import opened HostMachine
  import opened HostInvariant

  function Run(h: Host, events: seq<HostEvent>): Option<Host>
    decreases |events|
  {
    if events == [] then Some(h)
    else if Enabled(h, events[0]) then Run(Next(h, events[0]), events[1..])
    else None
  }

  lemma {:induction false} RunKeeps(h: Host, events: seq<HostEvent>)
    requires HostOk(h) && Run(h, events).Some?
    ensures HostOk(Run(h, events).value)
    decreases |events|
  {
    hide EncodeI32, HostOk, Next, Enabled;
    if events != [] {
      NextOk(h, events[0]);
      RunKeeps(Next(h, events[0]), events[1..]);
    }
  }

  /** The order of the states; detaching ends the life of the console. */
  function Rank(state: ConsoleState): nat {
    match state
    case Waiting => 0
    case Syncing => 1
    case Running => 2
    case Stopping => 3
    case Finished => 4
    case Inactive => 5
  }

  lemma CloseRank(h: Host, error: bool, fault: Fault)
    ensures Close(h, error).state == Inactive && Fail(h, fault).state == Inactive && Detach(h).state == Inactive
  {
  }

  lemma SetStateRank(h: Host, state: ConsoleState)
    ensures SetState(h, state).state == state
  {
    hide EncodeI32, Encode;
  }

  lemma DeliverRank(h: Host, m: Message)
    requires h.state == Running
    ensures Rank(Deliver(h, m).state) >= Rank(Running)
  {
    hide EncodeI32, SetState, Fail, DecodeI32;
    CloseRank(h, true, BadStatus);
    CloseRank(h, true, BadExitPayload);
    CloseRank(h, true, BadProc);
    if m.header.proc == EXIT && |m.payload| >= 4 {
      var told := h.(log := h.log.(received := h.log.received + [m],
                                   exited := h.log.exited + [DecodeI32(m.payload[..4])]));
      SetStateRank(told, Finished);
      SetStateRank(told, Stopping);
    }
  }

  lemma ReceiveRank(h: Host, chunk: seq<byte>)
    requires StateOk(h) && Enabled(h, Receives(chunk))
    ensures Rank(Receive(h, chunk).state) >= Rank(h.state)
  {
    hide EncodeI32, SetState, Fail, Deliver, DecodeLength, DecodeFrame, Encode;
    var data := h.rx.value.data + chunk;
    CloseRank(h.(rx := None), true, BadLength);
    CloseRank(h.(rx := None), true, BadHeader);
    if h.state == Waiting {
      SetStateRank(h.(rx := None), Syncing);
    } else if DecodeFrame(data).Some? {
      DeliverRank(h.(rx := None), DecodeFrame(data).value);
    }
  }

  /** States only move forward. */
  lemma NextRank(h: Host, e: HostEvent)
    requires HostOk(h) && Enabled(h, e)
    ensures Rank(Next(h, e).state) >= Rank(h.state)
  {
    hide EncodeI32, Receive, Close, Fail, Detach, Encode, OutboxOk, DeliveryOk, SignalsOk;
    match e
    case Receives(chunk) => ReceiveRank(h, chunk);
    case Sends(n) => CloseRank(h.(tx := None), false, NoFault);
    case ReadsStdin(data) => CloseRank(h, false, NoFault);
    case HitsIoError => CloseRank(h, true, IoFault);
    case IsDetached => CloseRank(h, true, IoFault);
    case _ =>
  }

  lemma {:induction false} StatesMoveForward(h: Host, events: seq<HostEvent>)
    requires HostOk(h) && Run(h, events).Some?
    ensures Rank(Run(h, events).value.state) >= Rank(h.state)
    decreases |events|
  {
    hide EncodeI32, HostOk, Next, Enabled;
    if events != [] {
      NextOk(h, events[0]);
      NextRank(h, events[0]);
      StatesMoveForward(Next(h, events[0]), events[1..]);
    }
  }

  /**
    * Back-pressure.  While the console runs, it reads from the guest exactly
    * when both queues hold fewer than 1024 bytes, and no queue ever holds more
    * than 1023 bytes and one payload.
    */
  lemma BackPressure(form: DrainForm, escape: Option<byte>, events: seq<HostEvent>)
    requires Run(Attach(Fresh(form, escape)), events).Some?
    ensures var h := Run(Attach(Fresh(form, escape)), events).value;
            && (h.state == Running ==> (h.rx.Some? <==> |h.out| < 1024 && |h.err| < 1024))
            && |h.out| <= 1023 + PAYLOAD_MAX && |h.err| <= 1023 + PAYLOAD_MAX
            && (h.rx.Some? ==> h.state == Waiting || h.state == Running)
  {
    hide EncodeI32, Attach, Next, Enabled;
    AttachOk(form, escape);
    RunKeeps(Attach(Fresh(form, escape)), events);
  }

  /**
    * What each state means.  The errors for a packet in an unexpected state
    * never occur, the handshake packet is never sent twice, "exited" and
    * "closed" are signalled at most once each.
    */
  lemma StateMeaning(form: DrainForm, escape: Option<byte>, events: seq<HostEvent>)
    requires Run(Attach(Fresh(form, escape)), events).Some?
    ensures var h := Run(Attach(Fresh(form, escape)), events).value;
            && h.log.fault != UnexpectedRx && h.log.fault != UnexpectedTx && !h.log.resent
            && |h.log.exited| <= 1 && |h.log.closed| <= 1
            && (h.state in {Waiting, Syncing} ==> h.log.stdinRead == [] && h.log.outbox == [])
            && (h.state == Stopping ==> h.tx.None? && (h.out != [] || h.err != []))
            && (h.state == Finished ==>
                  h.out == [] && h.err == [] && Sending(h) && Last(h.log.outbox).header.proc == QUIT)
  {
    hide EncodeI32, Attach, Next, Enabled, Encode;
    assert PayloadOf([], STDIN) == [];
    AttachOk(form, escape);
    RunKeeps(Attach(Fresh(form, escape)), events);
  }

  /** Local writes after which the console, still running, reads from the guest again. */
  ghost predicate Releases(h: Host, writes: seq<HostEvent>) {
    && (forall i :: 0 <= i < |writes| ==> TakesSome(writes[i]))
    && Run(h, writes).Some?
    && Run(h, writes).value.state == Running && Run(h, writes).value.rx == Some(LengthWord)
  }

  /** When rx is held back, there is something to write locally, and writing it gives rx back. */
  lemma BackPressureReleases(h: Host) returns (writes: seq<HostEvent>)
    requires HostOk(h) && h.state == Running && h.rx.None?
    requires h.form == AsMeant || |h.err| < MAX_QUEUED_DATA
    ensures Releases(h, writes)
  {
    hide EncodeI32, Encode, PayloadOf, OutboxOk, DeliveryOk, SignalsOk;
    var out := WritesStdout(|h.out| - h.outOffset);
    var err := WritesStderr(|h.err| - h.errOffset);
    if h.out == [] {
      RunOne(h, err);
      writes := [err];
    } else if |h.err| < MAX_QUEUED_DATA {
      RunOne(h, out);
      writes := [out];
    } else {
      var n := Next(h, out);
      assert n.err == h.err && n.errOffset == h.errOffset && n.form == AsMeant && n.state == Running && n.out == [];
      RunOne(n, err);
      writes := [out, err];
      assert writes[1..] == [err];
    }
  }

  /**
    * As the stderr callback is written, a running console with 1024 bytes or
    * more of standard error queued reads nothing more from the guest, whatever
    * happens: it is never told that the application has ended.
    */
  lemma {:induction false} WedgedForever(h: Host, events: seq<HostEvent>)
    requires HostOk(h) && h.form == AsWritten && Wedged(h) && Run(h, events).Some?
    ensures var n := Run(h, events).value;
            && Wedged(n)
            && n.log.received == h.log.received && n.log.exited == h.log.exited
    decreases |events|
  {
    hide EncodeI32, HostOk, Next, Enabled, Wedged;
    if events != [] {
      NextOk(h, events[0]);
      FormStays(h, events[0]);
      WedgeStays(h, events[0]);
      WedgedForever(Next(h, events[0]), events[1..]);
    }
  }

  /** Running without a packet to receive into, or no longer attached. */
  ghost predicate Wedged(h: Host) {
    h.state == Inactive || (h.state == Running && h.rx.None? && |h.err| >= MAX_QUEUED_DATA)
  }

  lemma WedgeStays(h: Host, e: HostEvent)
    requires HostOk(h) && h.form == AsWritten && Wedged(h) && Enabled(h, e)
    ensures Wedged(Next(h, e))
    ensures Next(h, e).log.received == h.log.received && Next(h, e).log.exited == h.log.exited
  {
    hide EncodeI32, Encode, OutboxOk, DeliveryOk, SignalsOk, SetState;
  }

  lemma FormStays(h: Host, e: HostEvent)
    requires Enabled(h, e)
    ensures Next(h, e).form == h.form && Next(h, e).escape == h.escape
  {
    hide EncodeI32, Encode, Receive;
    if e.Receives? {
      ReceiveForm(h, e.chunk);
    }
  }

  lemma ReceiveForm(h: Host, chunk: seq<byte>)
    requires Enabled(h, Receives(chunk))
    ensures Receive(h, chunk).form == h.form && Receive(h, chunk).escape == h.escape
  {
    hide EncodeI32, Encode, DecodeFrame, DecodeLength, Deliver;
    var data := h.rx.value.data + chunk;
    if DecodeFrame(data).Some? {
      DeliverForm(h.(rx := None), DecodeFrame(data).value);
    }
  }

  lemma DeliverForm(h: Host, m: Message)
    ensures Deliver(h, m).form == h.form && Deliver(h, m).escape == h.escape
  {
    hide EncodeI32, DecodeI32, SetState, Fail;
    EndForm(h);
    if m.header.proc == EXIT && |m.payload| >= 4 {
      EndForm(h.(log := h.log.(received := h.log.received + [m],
                               exited := h.log.exited + [DecodeI32(m.payload[..4])])));
    }
  }

  lemma EndForm(h: Host)
    ensures forall state :: SetState(h, state).form == h.form && SetState(h, state).escape == h.escape
    ensures forall fault :: Fail(h, fault).form == h.form && Fail(h, fault).escape == h.escape
  {
    hide EncodeI32, Encode, DropTx;
    DropTxFields(h);
    forall fault ensures Fail(h, fault).form == h.form && Fail(h, fault).escape == h.escape {
      DropTxFields(h.(log := h.log.(fault := fault)));
    }
  }

  /**
    * So back-pressure is always released as meant, and as written if and only
    * if fewer than 1024 bytes of standard error are queued.
    */
  lemma BackPressureExactly(h: Host)
    requires HostOk(h) && h.state == Running && h.rx.None?
    ensures (exists writes :: Releases(h, writes)) <==> h.form == AsMeant || |h.err| < MAX_QUEUED_DATA
  {
    hide EncodeI32, HostOk;
    if h.form == AsMeant || |h.err| < MAX_QUEUED_DATA {
      var writes := BackPressureReleases(h);
    } else {
      forall writes ensures !Releases(h, writes) {
        if Run(h, writes).Some? {
          WedgedForever(h, writes);
        }
      }
    }
  }

  /** Either all of it can be written locally, or the part that cannot be does not hold rx back. */
  predicate Releasable(h: Host) {
    h.state == Running && (h.form == AsMeant || |h.err| < MAX_QUEUED_DATA)
  }

  lemma ReleaseStep(h: Host, e: HostEvent)
    requires HostOk(h) && Releasable(h) && Enabled(h, e) && !e.Receives? && Next(h, e).state == Running
    ensures Releasable(Next(h, e)) && Unwritten(Next(h, e)) == Unwritten(h) - Bytes(e)
    ensures h.rx.Some? ==> Next(h, e).rx.Some?
  {
    hide EncodeI32, Encode, OutboxOk, DeliveryOk, SignalsOk, SetState;
  }

  /**
    * And it is released in every run, under the same condition: as long as rx is
    * held back another local write is possible, and by the time the local streams
    * have taken all that was queued, however it is split and with whatever else
    * in between, rx is armed; it then stays so until something is received.
    */
  lemma {:induction false} BackPressureEnds(h: Host, events: seq<HostEvent>)
    requires HostOk(h) && Releasable(h) && Run(h, events).Some? && Run(h, events).value.state == Running
    requires forall i :: 0 <= i < |events| ==> !events[i].Receives?
    ensures var n := Run(h, events).value;
            && Releasable(n) && Unwritten(n) == Unwritten(h) - Taken(events) && (h.rx.Some? ==> n.rx.Some?)
            && (n.rx.None? ==> Taken(events) < Unwritten(h) && exists e :: TakesSome(e) && Enabled(n, e))
    decreases |events|
  {
    hide EncodeI32, HostOk, Next, Enabled;
    if events == [] {
      HeldBackCanWrite(h);
    } else {
      var n := Next(h, events[0]);
      NextOk(h, events[0]);
      StatesMoveForward(n, events[1..]);
      NextRank(h, events[0]);
      assert n.state == Running;
      ReleaseStep(h, events[0]);
      BackPressureEnds(n, events[1..]);
    }
  }

  lemma HeldBackCanWrite(h: Host)
    requires HostOk(h) && Releasable(h)
    ensures h.rx.None? ==> Unwritten(h) > 0 && exists e :: TakesSome(e) && Enabled(h, e)
  {
    hide EncodeI32, Encode, PayloadOf, OutboxOk, DeliveryOk, SignalsOk;
    if h.rx.None? {
      var e := if h.out != [] then WritesStdout(1) else WritesStderr(1);
      assert TakesSome(e) && Enabled(h, e);
    }
  }

  lemma RunOne(h: Host, e: HostEvent)
    requires Enabled(h, e)
    ensures Run(h, [e]) == Some(Next(h, e))
  {
    hide EncodeI32, Enabled, Next;
    assert [e][1..] == [];
    assert Run(Next(h, e), []) == Some(Next(h, e));
  }

  // What may happen between callbacks.

  /** What is queued can be written, all of it or any part, whether the console runs or is stopping. */
  lemma QueuedCanBeWritten(h: Host)
    requires HostOk(h) && h.state in {Running, Stopping}
    ensures h.out != [] ==> |h.out| > h.outOffset
    ensures h.out != [] ==> forall n: nat | n <= |h.out| - h.outOffset :: Enabled(h, WritesStdout(n))
    ensures h.err != [] ==> |h.err| > h.errOffset
    ensures h.err != [] && h.form == AsMeant ==>
              forall n: nat | n <= |h.err| - h.errOffset :: Enabled(h, WritesStderr(n))
  {
    hide EncodeI32, Encode, PayloadOf, OutboxOk, DeliveryOk, SignalsOk;
  }

  /**
    * The user can type exactly when the console runs, with nothing left to send
    * and no end of input; what is in tx can be sent and what rx awaits received,
    * in any pieces and in every state.
    */
  lemma StreamsServed(h: Host)
    requires HostOk(h)
    ensures forall data: seq<byte> | |data| <= MAX_IO ::
              Enabled(h, ReadsStdin(data)) <==> h.state == Running && h.tx.None? && !h.localEOF
    ensures h.tx.Some? ==>
              forall n: nat | n <= |h.tx.value.wire| - h.tx.value.offset :: Enabled(h, Sends(n))
    ensures h.rx.Some? ==>
              forall chunk: seq<byte> | 0 < |chunk| <= h.rx.value.length - |h.rx.value.data| ::
                Enabled(h, Receives(chunk))
  {
    hide EncodeI32, Encode, PayloadOf, QueuesOk, OutboxOk, DeliveryOk, SignalsOk;
  }

  lemma DrainedLog(h: Host, other: seq<byte>)
    ensures var n := Drained(h, other).log;
            && n.received == h.log.received
            && n.stdoutWritten == h.log.stdoutWritten && n.stderrWritten == h.log.stderrWritten
  {
    hide EncodeI32, Encode, DropTx;
    DropTxFields(h);
    DropTxFields(h.(rx := Some(LengthWord)));
  }

  /**
    * The escape character as the first byte of a read closes the console, without
    * an error and with nothing of that read passed on.  No other read closes it:
    * all of it is queued for the guest, as one message, and the end of input as an
    * empty one.
    */
  lemma EscapeCloses(h: Host, data: seq<byte>)
    requires HostOk(h) && Enabled(h, ReadsStdin(data))
    ensures var n := Next(h, ReadsStdin(data));
            if data != [] && h.escape == Some(data[0]) then
              && n.state == Inactive && n.log.closed == h.log.closed + [false] && n.log.fault == NoFault
              && n.log.stdinRead == h.log.stdinRead && n.log.outbox == h.log.outbox
            else
              && n.state == Running && n.log.closed == h.log.closed
              && n.log.stdinRead == h.log.stdinRead + data && (n.localEOF <==> data == [])
              && n.log.outbox != [] && n.log.outbox[..|n.log.outbox| - 1] == h.log.outbox
              && Last(n.log.outbox).header.proc == STDIN && Last(n.log.outbox).payload == data
              && n.tx == Some(Tx(Encode(Last(n.log.outbox)), 0))
  {
    hide EncodeI32, Encode, PayloadOf, QueuesOk, OutboxOk, DeliveryOk;
  }

  /** One write shows all standard output that was received, whether the console runs or is stopping. */
  lemma StdoutCatchesUp(h: Host) returns (writes: seq<HostEvent>)
    requires HostOk(h) && h.state in {Running, Stopping}
    ensures forall i :: 0 <= i < |writes| ==> writes[i].WritesStdout? && TakesSome(writes[i])
    ensures Run(h, writes).Some?
    ensures var n := Run(h, writes).value;
            n.log.received == h.log.received && n.log.stdoutWritten == PayloadOf(h.log.received, STDOUT)
  {
    QueuedCanBeWritten(h);
    hide EncodeI32, Encode, PayloadOf, OutboxOk, SignalsOk, StateOk, QueuesOk, Drained, Enabled;
    if h.out == [] {
      assert h.out[h.outOffset..] == [];
      writes := [];
    } else {
      var e := WritesStdout(|h.out| - h.outOffset);
      StdoutWholly(h);
      hide StdoutWrite;
      var log := h.log.(stdoutWritten := h.log.stdoutWritten + h.out[h.outOffset..]);
      DrainedLog(h.(out := [], outOffset := 0, log := log), h.err);
      RunOne(h, e);
      writes := [e];
    }
  }

  lemma StdoutWholly(h: Host)
    requires h.outOffset <= |h.out|
    ensures var log := h.log.(stdoutWritten := h.log.stdoutWritten + h.out[h.outOffset..]);
            StdoutWrite(h, |h.out| - h.outOffset) == Drained(h.(out := [], outOffset := 0, log := log), h.err)
  {
    hide Drained;
    assert h.out[h.outOffset..h.outOffset + (|h.out| - h.outOffset)] == h.out[h.outOffset..];
  }

  lemma StderrWholly(h: Host)
    requires h.form == AsMeant && h.errOffset <= |h.err|
    ensures var log := h.log.(stderrWritten := h.log.stderrWritten + h.err[h.errOffset..]);
            StderrWrite(h, |h.err| - h.errOffset) == Drained(h.(err := [], errOffset := 0, log := log), h.out)
  {
    hide Drained;
    assert h.err[h.errOffset..h.errOffset + (|h.err| - h.errOffset)] == h.err[h.errOffset..];
  }

  /** And one write all standard error, if it is drained as meant. */
  lemma StderrCatchesUp(h: Host) returns (writes: seq<HostEvent>)
    requires HostOk(h) && h.state in {Running, Stopping} && h.form == AsMeant
    ensures forall i :: 0 <= i < |writes| ==> writes[i].WritesStderr? && TakesSome(writes[i])
    ensures Run(h, writes).Some?
    ensures var n := Run(h, writes).value;
            n.log.received == h.log.received && n.log.stderrWritten == PayloadOf(h.log.received, STDERR)
  {
    QueuedCanBeWritten(h);
    hide EncodeI32, Encode, PayloadOf, OutboxOk, SignalsOk, StateOk, QueuesOk, Drained, Enabled;
    if h.err == [] {
      assert h.err[h.errOffset..] == [];
      writes := [];
    } else {
      var e := WritesStderr(|h.err| - h.errOffset);
      StderrWholly(h);
      hide StderrWrite;
      var log := h.log.(stderrWritten := h.log.stderrWritten + h.err[h.errOffset..]);
      DrainedLog(h.(err := [], errOffset := 0, log := log), h.out);
      RunOne(h, e);
      writes := [e];
    }
  }

  // Shutdown.

  /** What the local streams have not taken yet. */
  function Unwritten(h: Host): int {
    |h.out| - h.outOffset + |h.err| - h.errOffset
  }

  predicate TakesSome(e: HostEvent) {
    (e.WritesStdout? || e.WritesStderr?) && e.count > 0
  }

  /** Either no standard error is queued, or it is drained as meant. */
  predicate Drainable(h: Host) {
    h.form == AsMeant || h.err == []
  }

  ghost predicate Drains(h: Host, n: Host, count: nat) {
    && Drainable(n) && Unwritten(n) == Unwritten(h) - count
    && n.state == (if Unwritten(n) == 0 then Finished else Stopping)
  }

  lemma DrainStdout(h: Host, count: nat)
    requires StateOk(h) && QueuesOk(h) && h.state == Stopping && Drainable(h) && Enabled(h, WritesStdout(count))
    ensures Drains(h, StdoutWrite(h, count), count)
  {
    hide EncodeI32, Encode;
  }

  lemma DrainStderr(h: Host, count: nat)
    requires StateOk(h) && QueuesOk(h) && h.state == Stopping && Drainable(h) && Enabled(h, WritesStderr(count))
    ensures Drains(h, StderrWrite(h, count), count)
  {
    hide EncodeI32, Encode;
  }

  /** The local streams fail, or the console is detached from outside. */
  predicate Fails(e: HostEvent) {
    e.HitsIoError? || e.IsDetached?
  }

  function Bytes(e: HostEvent): nat {
    if e.WritesStdout? || e.WritesStderr? then e.count else 0
  }

  /** How much the local streams take in all. */
  function Taken(events: seq<HostEvent>): nat {
    if events == [] then 0 else Bytes(events[0]) + Taken(events[1..])
  }

  lemma DrainStep(h: Host, e: HostEvent)
    requires HostOk(h) && h.state == Stopping && Drainable(h) && Enabled(h, e) && !Fails(e)
    ensures HostOk(Next(h, e)) && Drains(h, Next(h, e), Bytes(e))
  {
    NextOk(h, e);
    hide EncodeI32, StdoutWrite, StderrWrite, OutboxOk, DeliveryOk, SignalsOk;
    match e
    case WritesStdout(count) => DrainStdout(h, count);
    case WritesStderr(count) => DrainStderr(h, count);
    case TimerFires => StoppingCanWrite(h);
  }

  /**
    * Shutdown terminates, if no standard error is queued or it is drained as
    * meant.  However the local streams split what they take, and whatever else
    * happens that is not a failure, the console leaves STOPPING exactly with the
    * last byte; until then another write is possible, and afterwards it is
    * finished or closed without an error.
    */
  lemma {:induction false} ShutdownTerminates(h: Host, events: seq<HostEvent>)
    requires HostOk(h) && h.state == Stopping && Drainable(h)
    requires forall i :: 0 <= i < |events| ==> !Fails(events[i])
    requires Run(h, events).Some?
    ensures var n := Run(h, events).value;
            && Taken(events) <= Unwritten(h)
            && (Taken(events) < Unwritten(h) ==>
                  && n.state == Stopping && Unwritten(n) == Unwritten(h) - Taken(events)
                  && exists e :: TakesSome(e) && Enabled(n, e))
            && (Taken(events) == Unwritten(h) ==>
                  n.state == Finished || (n.state == Inactive && n.log.closed == [false]))
    decreases |events|
  {
    hide EncodeI32, HostOk, Next, Enabled;
    StoppingCanWrite(h);
    if events != [] {
      DrainStep(h, events[0]);
      var n := Next(h, events[0]);
      if n.state == Stopping {
        ShutdownTerminates(n, events[1..]);
      } else {
        FinishedStays(n, events[1..]);
      }
    }
  }

  lemma StoppingCanWrite(h: Host)
    requires HostOk(h) && h.state == Stopping && Drainable(h)
    ensures Unwritten(h) > 0 && exists e :: TakesSome(e) && Enabled(h, e)
  {
    hide EncodeI32, Encode, PayloadOf, OutboxOk, DeliveryOk, SignalsOk;
    var e := if h.out != [] then WritesStdout(1) else WritesStderr(1);
    assert TakesSome(e) && Enabled(h, e);
  }

  /** Finished, or closed after that. */
  ghost predicate Over(h: Host) {
    h.state == Finished || (h.state == Inactive && h.log.closed == [false])
  }

  lemma OverStays(h: Host, e: HostEvent)
    requires HostOk(h) && Over(h) && Enabled(h, e) && !Fails(e)
    ensures Over(Next(h, e)) && Bytes(e) == 0
  {
    hide EncodeI32, Encode, PayloadOf, OutboxOk, DeliveryOk, SignalsOk, Send;
    if e.Sends? {
      QuitCloses(h, e.count);
    }
  }

  lemma {:induction false} FinishedStays(h: Host, events: seq<HostEvent>)
    requires HostOk(h) && Over(h) && Run(h, events).Some?
    requires forall i :: 0 <= i < |events| ==> !Fails(events[i])
    ensures Over(Run(h, events).value) && Taken(events) == 0
    decreases |events|
  {
    hide EncodeI32, HostOk, Over, Next, Enabled;
    if events != [] {
      NextOk(h, events[0]);
      OverStays(h, events[0]);
      FinishedStays(Next(h, events[0]), events[1..]);
    }
  }

  ghost predicate Finishes(h: Host, events: seq<HostEvent>) {
    Run(h, events).Some? && Run(h, events).value.state == Finished
  }

  /** So, in either form, a console that is stopping can finish if and only if what it has queued is drainable. */
  lemma ShutdownExactly(h: Host)
    requires HostOk(h) && h.state == Stopping
    ensures (exists events :: Finishes(h, events)) <==> Drainable(h)
  {
    hide EncodeI32, HostOk, Next, Enabled;
    if Drainable(h) {
      var events := WritesAll(h);
    } else {
      forall events ensures !Finishes(h, events) {
        if Run(h, events).Some? {
          StderrNeverDrains(h, events);
        }
      }
    }
  }

  /** One write for each queue. */
  lemma {:induction false} WritesAll(h: Host) returns (events: seq<HostEvent>)
    requires HostOk(h) && h.state == Stopping && Drainable(h)
    ensures Finishes(h, events)
    decreases Unwritten(h)
  {
    hide EncodeI32, HostOk, Next;
    var e := WriteOne(h);
    DrainStep(h, e);
    var n := Next(h, e);
    if n.state == Stopping {
      StoppingCanWrite(n);
      events := WritesAll(n);
      assert ([e] + events)[1..] == events;
      events := [e] + events;
    } else {
      RunOne(h, e);
      events := [e];
    }
  }

  lemma WriteOne(h: Host) returns (e: HostEvent)
    requires HostOk(h) && h.state == Stopping && Drainable(h)
    ensures Enabled(h, e) && !Fails(e) && Bytes(e) > 0 && Unwritten(h) >= 0
  {
    hide EncodeI32, Encode, PayloadOf, OutboxOk, DeliveryOk, SignalsOk;
    e := if h.out != [] then WritesStdout(|h.out| - h.outOffset) else WritesStderr(|h.err| - h.errOffset);
  }

  /** Sending QUIT, in any pieces, then closes the console without an error. */
  lemma QuitCloses(h: Host, first: nat)
    requires HostOk(h) && h.state == Finished
    requires first <= |h.tx.value.wire| - h.tx.value.offset
    ensures Enabled(h, Sends(first))
    ensures var n := Next(h, Sends(first));
            if h.tx.value.offset + first == |h.tx.value.wire|
            then n.state == Inactive && n.log.closed == [false]
            else n == h.(tx := Some(Tx(h.tx.value.wire, h.tx.value.offset + first)))
  {
    hide EncodeI32, Encode, PayloadOf, OutboxShape, DeliveryOk;
  }

  // The stderr callback as it is written.

  ghost predicate StderrKept(h: Host, n: Host) {
    && n.form == AsWritten && n.log.stderrWritten == h.log.stderrWritten
    && (n.state != Inactive ==> h.err <= n.err)
    && (h.err != [] ==> n.state != Finished)
  }

  lemma CloseKept(h: Host, error: bool, fault: Fault)
    requires h.form == AsWritten
    ensures StderrKept(h, Close(h, error)) && StderrKept(h, Fail(h, fault)) && StderrKept(h, Detach(h))
    requires h.state != Inactive || h.err == []
  {
  }

  lemma SetStateKept(h: Host, state: ConsoleState)
    requires h.form == AsWritten && (state == Finished ==> h.err == [])
    ensures StderrKept(h, SetState(h, state))
  {
    hide EncodeI32, Encode, DropTx;
    DropTxFields(h);
  }

  lemma DeliverKept(h: Host, m: Message)
    requires h.form == AsWritten && h.state == Running
    ensures StderrKept(h, Deliver(h, m))
  {
    hide EncodeI32, SetState, Fail, DecodeI32;
    CloseKept(h, true, BadStatus);
    CloseKept(h, true, BadExitPayload);
    CloseKept(h, true, BadProc);
    if m.header.proc == EXIT && |m.payload| >= 4 {
      var told := h.(log := h.log.(received := h.log.received + [m],
                                   exited := h.log.exited + [DecodeI32(m.payload[..4])]));
      SetStateKept(told, Stopping);
      if h.err == [] {
        SetStateKept(told, Finished);
      }
    }
  }

  lemma ReceiveKept(h: Host, chunk: seq<byte>)
    requires StateOk(h) && h.form == AsWritten && Enabled(h, Receives(chunk))
    ensures StderrKept(h, Receive(h, chunk))
  {
    hide EncodeI32, SetState, Fail, Deliver, DecodeLength, DecodeFrame, Encode;
    var data := h.rx.value.data + chunk;
    CloseKept(h.(rx := None), true, BadLength);
    CloseKept(h.(rx := None), true, BadHeader);
    if h.state == Waiting {
      SetStateKept(h.(rx := None), Syncing);
    } else if DecodeFrame(data).Some? {
      DeliverKept(h.(rx := None), DecodeFrame(data).value);
    }
  }

  lemma StderrStays(h: Host, e: HostEvent)
    requires HostOk(h) && h.form == AsWritten && Enabled(h, e)
    ensures StderrKept(h, Next(h, e))
  {
    hide EncodeI32, Receive, Close, Fail, Detach, Encode, OutboxOk, DeliveryOk, SignalsOk;
    match e
    case Receives(chunk) => ReceiveKept(h, chunk);
    case Sends(n) => CloseKept(h.(tx := None), false, NoFault);
    case ReadsStdin(data) => CloseKept(h, false, NoFault);
    case WritesStderr(n) => assert n == 0 && h.err[0..0] == [];
    case HitsIoError => CloseKept(h, true, IoFault);
    case IsDetached => CloseKept(h, true, IoFault);
    case _ =>
  }

  lemma FinishedIsEmpty(h: Host)
    requires HostOk(h)
    ensures h.state == Finished ==> h.out == [] && h.err == []
  {
    hide EncodeI32, Encode, OutboxOk, DeliveryOk, SignalsOk;
  }

  lemma PrefixOfPrefix<T>(a: seq<T>, b: seq<T>, c: seq<T>)
    ensures a <= b && b <= c ==> a <= c
  {
  }

  /**
    * With the stderr callback as written, no number of events of any kind ever
    * writes a byte of standard error, and once some is queued the console is
    * never finished: it ends, if at all, by being detached or by an error.
    */
  lemma {:induction false} StderrNeverDrains(h: Host, events: seq<HostEvent>)
    requires HostOk(h) && h.form == AsWritten && Run(h, events).Some?
    ensures StderrKept(h, Run(h, events).value)
    decreases |events|
  {
    hide EncodeI32, HostOk, Next, Enabled;
    if events != [] {
      var n := Next(h, events[0]);
      NextOk(h, events[0]);
      StderrStays(h, events[0]);
      StderrNeverDrains(n, events[1..]);
      var last := Run(n, events[1..]).value;
      StatesMoveForward(n, events[1..]);
      PrefixOfPrefix(h.err, n.err, last.err);
      assert last.state != Inactive ==> n.state != Inactive;
    } else {
      FinishedIsEmpty(h);
    }
  }

  /**
    * So as written no standard error ever appears, and a console that is
    * stopping can finish if and only if it never received any.
    */
  lemma StderrLost(escape: Option<byte>, events: seq<HostEvent>)
    requires Run(Attach(Fresh(AsWritten, escape)), events).Some?
    ensures var h := Run(Attach(Fresh(AsWritten, escape)), events).value;
            && h.log.stderrWritten == []
            && (h.state == Finished ==> PayloadOf(h.log.received, STDERR) == [])
            && (h.state == Stopping ==>
                  ((exists more :: Finishes(h, more)) <==> PayloadOf(h.log.received, STDERR) == []))
  {
    hide EncodeI32, Attach, Next, Enabled, Encode, PayloadOf, StateOk, OutboxOk, SignalsOk, Finishes;
    AttachOk(AsWritten, escape);
    var a := Attach(Fresh(AsWritten, escape));
    assert a.log.stderrWritten == [] && a.form == AsWritten by { AttachFields(AsWritten, escape); }
    RunKeeps(a, events);
    StderrNeverDrains(a, events);
    var h := Run(a, events).value;
    FinishedIsEmpty(h);
    assert h.state != Inactive ==> h.err[h.errOffset..] == PayloadOf(h.log.received, STDERR);
    if h.state == Stopping {
      ShutdownExactly(h);
      assert h.errOffset == 0 && h.err[0..] == h.err;
    }
  }

  lemma AttachFields(form: DrainForm, escape: Option<byte>)
    ensures var a := Attach(Fresh(form, escape)); a.form == form && a.log == NoLog && a.state == Waiting
  {
  }
}
