/**
  * The guest side of the console protocol, as a value: one field for each local
  * variable of eventloop, one function for each branch of its fd loop, and a
  * log.  The application has plain pipes (wanttty is false), so its standard
  * output and standard error are two different file descriptors.
  */
module GuestMachine {
  import opened Options
  import opened Xdr
  import opened Protocol

  datatype LoopState = Waiting | Syncing | Running

  /** The size of the buffer that application output is read into. */
  const APP_IO := 4096

  /** What the guest read, wrote, built, dispatched and started so far. */
  datatype GuestLog = GuestLog(
    fault: Fault,
    starts: nat,               // successful run_command calls
    stdoutRead: seq<byte>,     // bytes read from the application
    stderrRead: seq<byte>,
    stdinWritten: seq<byte>,   // bytes written to the application
    stdinFailed: bool,         // a write to the application failed
    sent: seq<Message>,        // messages put in tx
    received: seq<Message>,    // messages dispatched
    reaped: seq<int32>,        // statuses that waitpid stored
    appReap: nat,              // which of them is the application's
    exitReap: nat)             // how many there were when EXIT was built

  datatype Guest = Guest(
    state: LoopState,
    rx: Option<Rx>,
    tx: Option<Tx>,
    quit: bool,
    appOutEOF: bool,
    appErrEOF: bool,
    appQuit: bool,
    exitstatus: int32,
    toStdin: seq<byte>, toStdinOffset: nat,   // hostToStdin: NULL when empty
    serial: uint32,
    appinOpen: bool,           // appin != -1
    log: GuestLog)

  /** The state in which eventloop enters its loop. */
  function Boot(): Guest {
    Guest(Waiting, Some(OneByte), None, false, false, false, false, 0, [], 0, 0, false,
          GuestLog(NoFault, 0, [], [], [], false, [], [], [], 0, 0))
  }

  // Building blocks.

  /** goto cleanup */
  function Fail(g: Guest, fault: Fault): Guest {
    g.(log := g.log.(fault := fault))
  }

  /** serial++ on an unsigned int. */
  function NextSerial(serial: uint32): uint32 {
    (serial + 1) % 0x1_0000_0000
  }

  function Post(g: Guest, m: Message): Guest
    requires Sendable(m)
  {
    g.(tx := Some(Tx(Encode(m), 0)), serial := NextSerial(g.serial),
       log := g.log.(sent := g.log.sent + [m]))
  }

  /** gvir_sandbox_encode_exit, with the status that was stored last. */
  function PostExit(g: Guest): Guest {
    Post(g.(log := g.log.(exitReap := |g.log.reaped|)), ExitMessage(g.exitstatus, g.serial))
  }

  // Receiving from the host.

  /** A frame is complete: the switch on header.proc.  The status is not looked at. */
  function Deliver(g: Guest, m: Message): Guest {
    var got := g.(rx := None, log := g.log.(received := g.log.received + [m]));
    if m.header.proc == STDIN then
      if m.payload != [] then got.(toStdin := m.payload, toStdinOffset := 0)
      else got.(appinOpen := false)
    else if m.header.proc == QUIT then got.(quit := true)
    else Fail(g, BadProc)
  }

  /** A packet is complete: the switch on the loop state. */
  function ProcessRx(g: Guest, data: seq<byte>, runs: bool): Guest
    requires data != [] && (g.state == Running ==> |data| >= LEN_MAX)
  {
    match g.state
    case Waiting =>
      if data[0] != WAIT then Fail(g, BadHandshakeByte)
      else g.(state := Syncing, tx := Some(Tx([SYNC], 0)), rx := Some(OneByte))
    case Syncing =>
      if data[0] != WAIT && data[0] != SYNC then Fail(g, BadHandshakeByte)
      else if data[0] == WAIT then g.(rx := Some(OneByte))
      else if !runs then Fail(g, IoFault)
      else g.(state := Running, rx := Some(LengthWord), appinOpen := true,
              log := g.log.(starts := g.log.starts + 1))
    case Running =>
      if |data| == LEN_MAX then
        var total := DecodeLength(data);
        if total.Err? then Fail(g, total.error) else g.(rx := Some(Rx(data, total.value)))
      else
        var m := DecodeFrame(data);
        if m.None? then Fail(g, BadHeader) else Deliver(g, m.value)
  }

  /** A read_data on the host device that returned `chunk`; `runs` says what run_command would return. */
  function Receive(g: Guest, chunk: seq<byte>, runs: bool): Guest
    requires g.rx.Some? && 0 < |chunk| <= g.rx.value.length - |g.rx.value.data|
    requires g.state == Running ==> g.rx.value.length >= LEN_MAX
  {
    var data := g.rx.value.data + chunk;
    if |data| == g.rx.value.length then ProcessRx(g, data, runs)
    else g.(rx := Some(Rx(data, g.rx.value.length)))
  }

  // Sending to the host.

  /** A write_data on the host device that took n bytes. */
  function Send(g: Guest, n: nat): Guest
    requires g.tx.Some? && g.tx.value.offset + n <= |g.tx.value.wire|
  {
    var offset := g.tx.value.offset + n;
    if offset == |g.tx.value.wire| then g.(tx := None) else g.(tx := Some(Tx(g.tx.value.wire, offset)))
  }

  // The application.

  /** waitpid stored `status` for the application or for some other child. */
  function Reap(g: Guest, app: bool, status: int32): Guest {
    var r := Reaped(g, app, status);
    if app && r.appErrEOF && r.appOutEOF then PostExit(r) else r
  }

  function Reaped(g: Guest, app: bool, status: int32): Guest {
    g.(exitstatus := status, appQuit := g.appQuit || app,
       log := g.log.(reaped := g.log.reaped + [status],
                     appReap := if app then |g.log.reaped| else g.log.appReap))
  }

  /** The application's standard output: `data`, or nothing at its end. */
  function AppOut(g: Guest, data: seq<byte>): Guest
    requires |data| <= APP_IO
  {
    if data == [] then
      var e := g.(appOutEOF := true);
      if e.appErrEOF && e.appQuit then PostExit(e) else e
    else
      Post(g.(log := g.log.(stdoutRead := g.log.stdoutRead + data)), StdoutMessage(data, g.serial))
  }

  function AppErr(g: Guest, data: seq<byte>): Guest
    requires |data| <= APP_IO
  {
    if data == [] then
      var e := g.(appErrEOF := true);
      if e.appOutEOF && e.appQuit then PostExit(e) else e
    else
      Post(g.(log := g.log.(stderrRead := g.log.stderrRead + data)), StderrMessage(data, g.serial))
  }

  /** A write_data on the application's standard input that took n bytes. */
  function AppIn(g: Guest, n: nat): Guest
    requires g.toStdinOffset + n <= |g.toStdin|
  {
    var offset := g.toStdinOffset + n;
    var w := g.(log := g.log.(stdinWritten := g.log.stdinWritten + g.toStdin[g.toStdinOffset..offset]));
    if offset == |g.toStdin| then w.(toStdin := [], toStdinOffset := 0, rx := Some(LengthWord))
    else w.(toStdinOffset := offset)
  }

  /** That write failed: what is left is dropped, and rx is not re-armed. */
  function AppInFails(g: Guest): Guest {
    g.(toStdin := [], toStdinOffset := 0, log := g.log.(stdinFailed := true))
  }

  // What can happen, and when.

  datatype GuestEvent =
    | Receives(chunk: seq<byte>, runs: bool)
    | HostEnds                  // read_data on the host device returned nothing or failed
    | Sends(count: nat)
    | SendFails
    | HostHangsUp               // poll reported something other than in or out
    | Reaps(app: bool, status: int32)
    | AppWritesOut(data: seq<byte>)
    | AppWritesErr(data: seq<byte>)
    | AppReads(count: nat)
    | AppReadFails
    | SignalPipeFails

  /** The file descriptors that the loop polls. */
  datatype Poll = Poll(hostIn: bool, hostOut: bool, appIn: bool, appOut: bool, appErr: bool)

  function Polls(g: Guest): Poll {
    var writing := g.toStdin != [] && g.appinOpen;
    match g.state
    case Waiting => Poll(true, false, false, false, false)
    case Syncing => Poll(true, g.tx.Some?, false, false, false)
    case Running =>
      Poll(!writing && g.rx.Some?, g.tx.Some?, writing,
           g.tx.None? && !g.appOutEOF, g.tx.None? && !g.appErrEOF)
  }

  /** The loop has not ended. */
  predicate Looping(g: Guest) {
    !g.quit && g.log.fault == NoFault
  }

  /**
    * The host device comes last in the fd loop, and its input before its output,
    * so after QUIT one more send can follow; any number is allowed here.
    */
  predicate Enabled(g: Guest, e: GuestEvent) {
    && g.log.fault == NoFault
    && (e.Sends? || e.SendFails? || !g.quit)
    && match e
       case Receives(chunk, _) =>
         Polls(g).hostIn && g.rx.Some? && 0 < |chunk| <= g.rx.value.length - |g.rx.value.data| &&
         (g.state == Running ==> g.rx.value.length >= LEN_MAX)
       case HostEnds => Polls(g).hostIn && g.rx.Some?
       case Sends(n) => Polls(g).hostOut && g.tx.value.offset + n <= |g.tx.value.wire|
       case SendFails => Polls(g).hostOut
       case HostHangsUp => true
       case Reaps(app, _) => app ==> g.log.starts > 0 && !g.appQuit
       case AppWritesOut(data) => Polls(g).appOut && |data| <= APP_IO
       case AppWritesErr(data) => Polls(g).appErr && |data| <= APP_IO
       case AppReads(n) => Polls(g).appIn && g.toStdinOffset + n <= |g.toStdin|
       case AppReadFails => Polls(g).appIn
       case SignalPipeFails => true
  }

  function Next(g: Guest, e: GuestEvent): Guest
    requires Enabled(g, e)
  {
    match e
    case Receives(chunk, runs) => Receive(g, chunk, runs)
    case HostEnds => g.(rx := None, quit := true)
    case Sends(n) => Send(g, n)
    case SendFails => g.(tx := None, quit := true)
    case HostHangsUp => g.(quit := true)
    case Reaps(app, status) => Reap(g, app, status)
    case AppWritesOut(data) => AppOut(g, data)
    case AppWritesErr(data) => AppErr(g, data)
    case AppReads(n) => AppIn(g, n)
    case AppReadFails => AppInFails(g)
    case SignalPipeFails => Fail(g, IoFault)
  }

  // The invariant that every event keeps, whatever bytes the host sends.

  function Last<T>(s: seq<T>): T
    requires s != []
  {
    s[|s| - 1]
  }

  ghost predicate RxOk(g: Guest) {
    && (g.state != Running && !g.quit ==> g.rx == Some(OneByte))
    && (g.state == Running && g.rx.Some? && g.log.fault == NoFault ==> FrameRoom(g.rx.value))
    && (g.log.received != [] ==> g.state == Running)
    && g.log.starts == (if g.state == Running then 1 else 0)
  }

  /** The packet in tx is the last one built, or the handshake byte. */
  ghost predicate TxOk(g: Guest) {
    && (g.state == Waiting ==> g.tx.None?)
    && (g.state != Running ==> g.log.sent == [])
    && (g.tx.Some? ==>
          && TxOpen(g.tx.value)
          && (if g.log.sent == [] then g.tx.value == Tx([SYNC], 0)
              else Sendable(Last(g.log.sent)) && g.tx.value.wire == Encode(Last(g.log.sent))))
  }

  /** The messages of the application's life: its output, and then its exit. */
  ghost predicate SentShape(sent: seq<Message>, exited: bool) {
    && (forall i :: 0 <= i < |sent| ==> SentMessage(sent, i, exited))
    && (exited ==> sent != [] && Last(sent).header.proc == EXIT)
  }

  ghost predicate SentMessage(sent: seq<Message>, i: nat, exited: bool)
    requires i < |sent|
  {
    var m := sent[i];
    && m.header.status == STATUS_OK
    && m.header.serial == i % 0x1_0000_0000
    && m.header.proc in {STDOUT, STDERR, EXIT}
    && (m.header.proc == EXIT ==> exited && i == |sent| - 1 && |m.payload| == 4)
    && (m.header.proc != EXIT ==> 0 < |m.payload| <= APP_IO)
  }

  /** The application was reaped and both its outputs have ended. */
  predicate AppDone(g: Guest) {
    g.appQuit && g.appOutEOF && g.appErrEOF
  }

  ghost predicate SentOk(g: Guest) {
    && SentShape(g.log.sent, AppDone(g))
    && g.serial == |g.log.sent| % 0x1_0000_0000
    && (g.appOutEOF && g.appErrEOF && !g.appQuit ==> g.tx.None?)
    && (g.appQuit || g.appOutEOF || g.appErrEOF ==> g.state == Running)
    && PayloadOf(g.log.sent, STDOUT) == g.log.stdoutRead
    && PayloadOf(g.log.sent, STDERR) == g.log.stderrRead
  }

  /** What was dispatched is what the application got and what is still queued. */
  ghost predicate StdinOk(g: Guest) {
    && (g.toStdin == [] ==> g.toStdinOffset == 0)
    && (g.toStdin != [] ==> g.toStdinOffset < |g.toStdin| && g.rx.None? && g.state == Running)
    && g.toStdinOffset <= |g.toStdin|
    && (g.log.stdinFailed ==> g.rx.None? && g.toStdin == [])
    && g.log.stdinWritten <= PayloadOf(g.log.received, STDIN)
    && (!g.log.stdinFailed ==>
          g.log.stdinWritten + g.toStdin[g.toStdinOffset..] == PayloadOf(g.log.received, STDIN))
    && (g.appinOpen ==> g.state == Running)
    // Standard input is closed by an empty message, after all before it was written.
    && (g.state == Running && !g.appinOpen ==>
          && g.log.received != [] && IsEnd(Last(g.log.received)) && g.rx.None? && g.toStdin == []
          && g.log.stdinWritten == PayloadOf(g.log.received, STDIN))
  }

  predicate IsEnd(m: Message) {
    m.header.proc == STDIN && m.payload == []
  }

  /** EXIT carries the status that was stored last before it was built. */
  ghost predicate ExitOk(g: Guest) {
    && (g.log.reaped != [] ==> g.exitstatus == Last(g.log.reaped))
    && (g.appQuit ==> g.log.appReap < |g.log.reaped|)
    && (AppDone(g) ==>
          && g.log.appReap < g.log.exitReap <= |g.log.reaped|
          && g.log.sent != []
          && Last(g.log.sent).payload == EncodeI32(g.log.reaped[g.log.exitReap - 1]))
  }

  ghost predicate GuestOk(g: Guest) {
    RxOk(g) && TxOk(g) && SentOk(g) && StdinOk(g) && ExitOk(g)
  }
}
