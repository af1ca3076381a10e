/**
  * The host side of the console protocol, as a value: one field for each field
  * of GVirSandboxConsoleRpcPrivate that the protocol depends on, one function
  * for each C function that changes them, and a log of what the machine showed
  * to the outside.
  */
module HostMachine {
  import opened Options
  import opened Xdr
  import opened Protocol

  datatype ConsoleState = Inactive | Waiting | Syncing | Running | Stopping | Finished

  /**
    * How the local stderr queue is drained: in the way the stdout queue is
    * (AsMeant), or as the stderr callback is written, which passes the offset
    * where the length belongs (AsWritten).
    */
  datatype DrainForm = AsMeant | AsWritten

  const MAX_QUEUED_DATA := 1024
  const MAX_IO := 4096

  /** What the host read, wrote, built, dispatched and signalled so far. */
  datatype HostLog = HostLog(
    fault: Fault,
    stdinRead: seq<byte>,
    stdoutWritten: seq<byte>,
    stderrWritten: seq<byte>,
    outbox: seq<Message>,      // messages put in tx, less those withdrawn unsent
    received: seq<Message>,    // messages dispatched
    cut: bool,                 // a partly sent packet was discarded
    garbled: bool,             // and QUIT was queued behind what was sent of it
    resent: bool,              // the second handshake packet was built twice
    exited: seq<int32>,        // "exited" signals
    closed: seq<bool>)         // "closed" signals: was there an error?

  datatype Host = Host(
    form: DrainForm,
    escape: Option<byte>,      // the escape character, on a terminal
    state: ConsoleState,
    rx: Option<Rx>,
    tx: Option<Tx>,
    out: seq<byte>, outOffset: nat,   // localToStdout: NULL when empty
    err: seq<byte>, errOffset: nat,   // localToStderr: NULL when empty
    localEOF: bool,
    serial: nat,
    waitTimers: nat,           // handshake timers that have not fired
    log: HostLog)

  const NoLog := HostLog(NoFault, [], [], [], [], [], false, false, false, [], [])

  /** A console that has not been attached yet. */
  function Fresh(form: DrainForm, escape: Option<byte>): Host {
    Host(form, escape, Inactive, None, None, [], 0, [], 0, false, 0, 0, NoLog)
  }

  // Building blocks.

  /** serial++ on a 64-bit gsize. */
  function NextSerial(serial: nat): nat {
    (serial + 1) % 0x1_0000_0000_0000_0000
  }

  /** The 64-bit counter as it is stored in the header's 32-bit field. */
  function HeaderSerial(serial: nat): uint32 {
    serial % 0x1_0000_0000
  }

  /**
    * The packet in tx is freed or overwritten.  If none of it was sent, its
    * message was never put on the wire; if some was, the stream is cut inside it.
    */
  function DropTx(h: Host): Host {
    if h.tx.None? then h
    else if h.tx.value.offset > 0 then h.(tx := None, log := h.log.(cut := true))
    else if h.log.outbox == [] then h.(tx := None)
    else h.(tx := None, log := h.log.(outbox := h.log.outbox[..|h.log.outbox| - 1]))
  }

  /** gvir_sandbox_console_rpc_detach */
  function Detach(h: Host): Host {
    if h.state == Inactive then h
    else DropTx(h).(state := Inactive, rx := None, out := [], outOffset := 0, err := [], errOffset := 0)
  }

  /** do_console_rpc_close */
  function Close(h: Host, error: bool): Host {
    var d := Detach(h);
    d.(log := d.log.(closed := d.log.closed + [error]))
  }

  /** A step failed: the error is reported by closing. */
  function Fail(h: Host, fault: Fault): Host {
    Close(h.(log := h.log.(fault := fault)), true)
  }

  function Post(h: Host, m: Message): Host
    requires Sendable(m)
  {
    h.(tx := Some(Tx(Encode(m), 0)), serial := NextSerial(h.serial),
       log := h.log.(outbox := h.log.outbox + [m]))
  }

  /** do_console_rpc_set_state */
  function SetState(h: Host, state: ConsoleState): Host {
    if h.state == state then h
    else
      match state
      case Inactive => h.(state := Inactive)
      case Waiting => h.(state := Waiting, tx := Some(Tx([WAIT], 0)), rx := Some(OneByte))
      case Syncing => h.(state := Syncing, tx := Some(Tx([SYNC], 0)))
      case Running => h.(state := Running, rx := Some(LengthWord))
      case Stopping => DropTx(h).(state := Stopping)
      case Finished =>
        var d := DropTx(h);
        Post(d.(state := Finished, log := d.log.(garbled := d.log.cut)), QuitMessage(HeaderSerial(h.serial)))
  }

  /** gvir_sandbox_console_rpc_attach */
  function Attach(h: Host): Host {
    if h.state != Inactive then h else SetState(h, Waiting)
  }

  predicate RoomInQueues(h: Host) {
    |h.out| < MAX_QUEUED_DATA && |h.err| < MAX_QUEUED_DATA
  }

  // Receiving.

  /** The part of do_console_rpc_dispatch_proc that follows a decoded header. */
  function Deliver(h: Host, m: Message): Host {
    var got := h.(log := h.log.(received := h.log.received + [m]));
    if m.header.status != STATUS_OK then Fail(h, BadStatus)
    else if m.header.proc == STDOUT then
      got.(out := h.out + m.payload, outOffset := if h.out == [] then 0 else h.outOffset)
    else if m.header.proc == STDERR then
      got.(err := h.err + m.payload, errOffset := if h.err == [] then 0 else h.errOffset)
    else if m.header.proc == EXIT then
      if |m.payload| < 4 then Fail(h, BadExitPayload)
      else
        var told := got.(log := got.log.(exited := got.log.exited + [DecodeI32(m.payload[..4])]));
        if |h.out| == 0 && |h.err| == 0 then SetState(told, Finished) else SetState(told, Stopping)
    else Fail(h, BadProc)
  }

  /** do_console_rpc_dispatch_proc */
  function Dispatch(h: Host, frame: seq<byte>): Host {
    var m := DecodeFrame(frame);
    if m.None? then Fail(h, BadHeader) else Deliver(h, m.value)
  }

  /** do_console_rpc_process_packet_rx, for a full packet that was taken out of rx. */
  function ProcessRx(h: Host, data: seq<byte>): Host
    requires data != [] && (h.state == Running ==> |data| >= LEN_MAX)
  {
    match h.state
    case Waiting =>
      if data[0] == SYNC then SetState(h, Syncing) else h.(rx := Some(OneByte))
    case Running =>
      if |data| == LEN_MAX then
        var total := DecodeLength(data);
        if total.Err? then Fail(h, total.error) else h.(rx := Some(Rx(data, total.value)))
      else
        var d := Dispatch(h, data);
        if d.state == Running && RoomInQueues(d) then d.(rx := Some(LengthWord)) else d
    case _ => Fail(h, UnexpectedRx)
  }

  /** One turn of the receive loop of do_console_rpc_stream_readwrite that got `chunk`. */
  function Receive(h: Host, chunk: seq<byte>): Host
    requires h.rx.Some? && 0 < |chunk| <= h.rx.value.length - |h.rx.value.data|
    requires h.state == Running ==> h.rx.value.length >= LEN_MAX
  {
    var data := h.rx.value.data + chunk;
    if |data| == h.rx.value.length then ProcessRx(h.(rx := None), data)
    else h.(rx := Some(Rx(data, h.rx.value.length)))
  }

  // Sending.

  /** do_console_rpc_process_packet_tx, for a fully sent packet that was taken out of tx. */
  function ProcessTx(h: Host, wire: seq<byte>): Host
    requires wire != []
  {
    match h.state
    case Waiting => h.(waitTimers := h.waitTimers + 1)
    case Syncing =>
      if wire[0] == WAIT then h.(tx := Some(Tx([SYNC], 0)), log := h.log.(resent := true))
      else SetState(h, Running)
    case Finished => Close(h, false)
    case Running => h
    case Stopping => h
    case Inactive => Fail(h, UnexpectedTx)
  }

  /** The send of do_console_rpc_stream_readwrite, of which n bytes were taken. */
  function Send(h: Host, n: nat): Host
    requires h.tx.Some? && TxOpen(h.tx.value) && n <= |h.tx.value.wire| - h.tx.value.offset
  {
    var offset := h.tx.value.offset + n;
    if offset == |h.tx.value.wire| then ProcessTx(h.(tx := None), h.tx.value.wire)
    else h.(tx := Some(Tx(h.tx.value.wire, offset)))
  }

  /** do_console_handshake_wait_tx_queue */
  function TimerFired(h: Host): Host
    requires h.waitTimers > 0
  {
    var t := h.(waitTimers := h.waitTimers - 1);
    if t.state != Waiting || t.tx.Some? then t else t.(tx := Some(Tx([WAIT], 0)))
  }

  // Local streams.

  /** do_console_rpc_stdin_read, which read `data` (nothing at end of file). */
  function StdinRead(h: Host, data: seq<byte>): Host
    requires |data| <= MAX_IO
  {
    if data != [] && h.escape == Some(data[0]) then Close(h, false)
    else
      var got := h.(localEOF := h.localEOF || data == [],
                    log := h.log.(stdinRead := h.log.stdinRead + data));
      Post(got, StdinMessage(data, HeaderSerial(h.serial)))
  }

  /** What an empty queue sets off: more receiving, or the end. */
  function Drained(h: Host, other: seq<byte>): Host {
    var r := if h.state == Running && h.rx.None? && |other| < MAX_QUEUED_DATA
             then h.(rx := Some(LengthWord)) else h;
    if r.state == Stopping && |other| == 0 then SetState(r, Finished) else r
  }

  /** do_console_rpc_stdout_write, of which n bytes were taken. */
  function StdoutWrite(h: Host, n: nat): Host
    requires h.outOffset + n <= |h.out|
  {
    var offset := h.outOffset + n;
    var w := h.(log := h.log.(stdoutWritten := h.log.stdoutWritten + h.out[h.outOffset..offset]));
    if offset == |h.out| then Drained(w.(out := [], outOffset := 0), h.err)
    else w.(outOffset := offset)
  }

  /** Where the stderr callback starts to write, and how much it offers. */
  function StderrStart(h: Host): nat {
    if h.form == AsMeant then h.errOffset else 0
  }

  function StderrOffer(h: Host): int {
    if h.form == AsMeant then |h.err| - h.errOffset else h.errOffset
  }

  /** do_console_rpc_stderr_write, of which n bytes were taken. */
  function StderrWrite(h: Host, n: nat): Host
    requires n <= StderrOffer(h) && h.errOffset <= |h.err|
  {
    var offset := h.errOffset + n;
    var start := StderrStart(h);
    var w := h.(log := h.log.(stderrWritten := h.log.stderrWritten + h.err[start..start + n]));
    if offset == |h.err| then Drained(w.(err := [], errOffset := 0), h.out)
    else w.(errOffset := offset)
  }

  // What can happen, and when.

  datatype HostEvent =
    | Receives(chunk: seq<byte>)
    | Sends(count: nat)
    | TimerFires
    | ReadsStdin(data: seq<byte>)
    | WritesStdout(count: nat)
    | WritesStderr(count: nat)
    | HitsIoError
    | IsDetached

  /** The sources that do_console_rpc_update_events leaves attached. */
  datatype Watch = Watch(readable: bool, writable: bool, stdin: bool, stdout: bool, stderr: bool)

  function Wants(h: Host): Watch {
    Watch(
      h.state in {Waiting, Syncing, Running, Stopping} && h.rx.Some?,
      h.state != Inactive && h.tx.Some?,
      h.state == Running && h.tx.None? && !h.localEOF,
      h.state in {Running, Stopping} && h.out != [],
      h.state in {Running, Stopping} && h.err != [])
  }

  predicate Enabled(h: Host, e: HostEvent) {
    match e
    case Receives(chunk) =>
      Wants(h).readable && 0 < |chunk| && |h.rx.value.data| + |chunk| <= h.rx.value.length &&
      (h.state == Running ==> h.rx.value.length >= LEN_MAX)
    case Sends(n) => Wants(h).writable && h.tx.value.offset + n <= |h.tx.value.wire| && TxOpen(h.tx.value)
    case TimerFires => h.waitTimers > 0
    case ReadsStdin(data) => Wants(h).stdin && |data| <= MAX_IO
    case WritesStdout(n) => Wants(h).stdout && h.outOffset + n <= |h.out|
    case WritesStderr(n) => Wants(h).stderr && n <= StderrOffer(h) && h.errOffset <= |h.err|
    case HitsIoError => h.state != Inactive
    case IsDetached => true
  }

  function Next(h: Host, e: HostEvent): Host
    requires Enabled(h, e)
  {
    match e
    case Receives(chunk) => Receive(h, chunk)
    case Sends(n) => Send(h, n)
    case TimerFires => TimerFired(h)
    case ReadsStdin(data) => StdinRead(h, data)
    case WritesStdout(n) => StdoutWrite(h, n)
    case WritesStderr(n) => StderrWrite(h, n)
    case HitsIoError => Fail(h, IoFault)
    case IsDetached => Detach(h)
  }

  // The invariant that every event keeps, whatever bytes the peer sends.

  ghost predicate StateOk(h: Host) {
    match h.state
    case Inactive =>
      h.rx.None? && h.tx.None? && h.out == [] && h.err == []
    case Waiting =>
      && h.rx == Some(OneByte) && h.out == [] && h.err == []
      && (h.tx == None || h.tx == Some(Tx([WAIT], 0)))
      && (h.tx == None ==> h.waitTimers > 0)
    case Syncing =>
      h.rx.None? && h.tx == Some(Tx([SYNC], 0)) && h.out == [] && h.err == []
    case Running =>
      && (h.rx.Some? <==> RoomInQueues(h))
      && (h.rx.Some? ==> FrameRoom(h.rx.value))
      && (h.tx.Some? ==> Sending(h))
    case Stopping =>
      h.rx.None? && h.tx.None? && (h.out != [] || h.err != [])
    case Finished =>
      h.rx.None? && h.out == [] && h.err == [] && h.tx.Some? && Sending(h) &&
      Last(h.log.outbox).header.proc == QUIT
  }

  function Last<T>(s: seq<T>): T
    requires s != []
  {
    s[|s| - 1]
  }

  /** tx holds the last message of the outbox. */
  ghost predicate Sending(h: Host) {
    && h.tx.Some? && TxOpen(h.tx.value)
    && h.log.outbox != [] && Sendable(Last(h.log.outbox))
    && h.tx.value.wire == Encode(Last(h.log.outbox))
  }

  ghost predicate QueuesOk(h: Host) {
    && (h.out == [] ==> h.outOffset == 0) && (h.out != [] ==> h.outOffset < |h.out|)
    && (h.err == [] ==> h.errOffset == 0) && (h.err != [] ==> h.errOffset < |h.err|)
    && |h.out| < MAX_QUEUED_DATA + PAYLOAD_MAX
    && |h.err| < MAX_QUEUED_DATA + PAYLOAD_MAX
    && (h.form == AsWritten ==> h.errOffset == 0)
  }

  /**
    * The host sends what the user typed, then perhaps an empty message that
    * marks the end of it, then perhaps QUIT.
    */
  ghost predicate OutboxShape(outbox: seq<Message>, read: seq<byte>, eof: bool, mayQuit: bool) {
    && PayloadOf(outbox, STDIN) <= read
    && (forall i :: 0 <= i < |outbox| ==> OutboxMessage(outbox, i, read, eof, mayQuit))
  }

  ghost predicate OutboxMessage(outbox: seq<Message>, i: nat, read: seq<byte>, eof: bool, mayQuit: bool)
    requires i < |outbox|
  {
    var m := outbox[i];
    && |m.payload| <= MAX_IO
    && (m.header.proc == STDIN || m.header.proc == QUIT)
    && (m.header.proc == QUIT ==> m.payload == [] && i == |outbox| - 1 && mayQuit)
    && (m.header.proc == STDIN && m.payload == [] ==> eof && PayloadOf(outbox[..i], STDIN) == read)
  }

  ghost predicate OutboxOk(h: Host) {
    && OutboxShape(h.log.outbox, h.log.stdinRead, h.localEOF, h.state in {Finished, Inactive})
    && (h.state in {Waiting, Syncing} ==> h.log.outbox == [])
    && (h.state in {Waiting, Syncing, Running} ==> PayloadOf(h.log.outbox, STDIN) == h.log.stdinRead)
    && (h.state in {Waiting, Syncing, Running} ==> !h.log.cut)
    && (h.state in {Waiting, Syncing, Running, Stopping} ==> !h.log.garbled)
    && (h.state == Finished ==> h.log.garbled == h.log.cut)
  }

  /** What was dispatched is what was written locally and what is still queued. */
  ghost predicate DeliveryOk(h: Host) {
    && (h.state in {Waiting, Syncing} ==> h.log.received == [])
    && h.outOffset <= |h.out| && h.errOffset <= |h.err|
    && h.log.stdoutWritten <= PayloadOf(h.log.received, STDOUT)
    && h.log.stderrWritten <= PayloadOf(h.log.received, STDERR)
    && (h.state != Inactive ==>
          && h.log.stdoutWritten + h.out[h.outOffset..] == PayloadOf(h.log.received, STDOUT)
          && h.log.stderrWritten + h.err[h.errOffset..] == PayloadOf(h.log.received, STDERR))
  }

  /** Signals and faults. */
  ghost predicate SignalsOk(h: Host) {
    && !h.log.resent
    && h.log.fault !in {UnexpectedRx, UnexpectedTx}
    && |h.log.exited| <= 1
    && (h.state in {Waiting, Syncing, Running} ==> h.log.exited == [])
    && (h.state in {Stopping, Finished} ==> |h.log.exited| == 1)
    && (h.state != Inactive ==> h.log.closed == [] && h.log.fault == NoFault)
    && |h.log.closed| <= 1
    // "exited" reports the last message dispatched, an EXIT.
    && (h.log.exited != [] ==>
          && h.log.received != [] && Last(h.log.received).header.proc == EXIT
          && |Last(h.log.received).payload| >= 4
          && h.log.exited == [DecodeI32(Last(h.log.received).payload[..4])])
    && (h.log.received != [] && Last(h.log.received).header.proc == EXIT ==> h.log.exited != [])
    // A normal close after "exited" has delivered everything.
    && (|h.log.exited| == 1 && h.log.closed == [false] ==>
          && h.log.stdoutWritten == PayloadOf(h.log.received, STDOUT)
          && h.log.stderrWritten == PayloadOf(h.log.received, STDERR))
  }

  ghost predicate HostOk(h: Host) {
    StateOk(h) && QueuesOk(h) && OutboxOk(h) && DeliveryOk(h) && SignalsOk(h)
  }
}
