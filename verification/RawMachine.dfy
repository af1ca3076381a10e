/**
  * The raw console of libvirt-sandbox-console-raw.c on its stream path, as a
  * value: two bounded byte queues between the console stream and the local
  * streams, and the main loop sources that keep them moving.
  */
module RawMachine {
  import opened Options
  import opened Xdr

  const BUFFER := 4096

  /** A GSource pointer: NULL, attached, or left pointing to a source that has been removed. */
  datatype Source = Absent | Attached | Removed

  datatype RawLog = RawLog(
    received: seq<byte>,       // accepted from the console stream
    delivered: seq<byte>,      // written to local stdout or stderr
    typed: seq<byte>,          // accepted from local stdin
    sent: seq<byte>,           // written to the console stream
    closed: seq<bool>)         // "closed" signals: was there an error?

  datatype Raw = Raw(
    hasStdin: bool,
    hasStdout: bool,           // otherwise stderr takes the output
    escape: byte,
    attached: bool,
    toLocal: seq<byte>,        // consoleToLocal, its first consoleToLocalOffset bytes
    toConsole: seq<byte>,      // localToConsole, its first localToConsoleOffset bytes
    localEOF: bool,
    stdinSource: Source,
    stdoutSource: Source,
    stderrSource: Source,
    readable: bool,            // what the stream is watched for
    writable: bool,
    log: RawLog)

  function Fresh(hasStdin: bool, hasStdout: bool, escape: byte): Raw {
    Raw(hasStdin, hasStdout, escape, false, [], [], false, Absent, Absent, Absent, false, false,
        RawLog([], [], [], [], []))
  }

  /** A source that is wanted is created if there is none. */
  function Want(source: Source, wanted: bool): Source {
    if !wanted then Absent else if source == Absent then Attached else source
  }

  /** localToConsoleLength */
  function TypingRoom(r: Raw): nat {
    if r.hasStdin && r.attached then BUFFER else 0
  }

  /** do_console_raw_update_events */
  function Update(r: Raw): Raw {
    if !r.attached then r
    else
      r.(stdinSource := if r.hasStdin then Want(r.stdinSource, |r.toConsole| < TypingRoom(r) && !r.localEOF)
                        else r.stdinSource,
         stdoutSource := if r.hasStdout then Want(r.stdoutSource, r.toLocal != []) else r.stdoutSource,
         stderrSource := if r.hasStdout then r.stderrSource else Want(r.stderrSource, r.toLocal != []),
         readable := |r.toLocal| < BUFFER,
         writable := r.toConsole != [])
  }

  /** gvir_sandbox_console_raw_attach */
  function Attach(r: Raw): Raw {
    if r.attached then r else Update(r.(attached := true))
  }

  /** gvir_sandbox_console_raw_detach */
  function Detach(r: Raw): Raw {
    if !r.attached then r
    else r.(attached := false, toLocal := [], toConsole := [], stdinSource := Absent, stdoutSource := Absent,
            stderrSource := Absent, readable := false, writable := false)
  }

  /** do_console_raw_close */
  function Close(r: Raw, error: bool): Raw {
    var d := Detach(r);
    d.(log := d.log.(closed := d.log.closed + [error]))
  }

  /** What a receive on the stream returned, if the stream was readable. */
  datatype Receipt = NotReadable | WouldBlock | ReceiveFails | Gets(chunk: seq<byte>)

  /** What a send on the stream returned, if the stream was writable. */
  datatype Sending = NotWritable | SendFails | Takes(count: nat)

  function AfterSend(r: Raw, send: Sending): Raw
    requires send.Takes? ==> send.count <= |r.toConsole|
  {
    match send
    case NotWritable => Update(r)
    case SendFails => Close(r, true)
    case Takes(n) =>
      Update(r.(toConsole := r.toConsole[n..], log := r.log.(sent := r.log.sent + r.toConsole[..n])))
  }

  /** do_console_raw_stream_readwrite */
  function StreamReadWrite(r: Raw, receipt: Receipt, send: Sending): Raw
    requires send.Takes? ==> send.count <= |r.toConsole|
  {
    match receipt
    case NotReadable => AfterSend(r, send)
    case WouldBlock => Update(r)
    case ReceiveFails => Close(r, true)
    case Gets(chunk) =>
      if chunk == [] then Close(r, false)
      else AfterSend(r.(toLocal := r.toLocal + chunk, log := r.log.(received := r.log.received + chunk)), send)
  }

  /** do_console_raw_local_read, whose read returned `data`, or failed. */
  function LocalRead(r: Raw, data: Option<seq<byte>>): Raw {
    if data.None? then Close(r, true)
    else if data.value == [] then Update(r.(localEOF := true, stdinSource := Absent))
    else if data.value[0] == r.escape then Close(r, false)
    else Update(r.(toConsole := r.toConsole + data.value, stdinSource := Absent,
                   log := r.log.(typed := r.log.typed + data.value)))
  }

  /**
    * do_console_raw_local_write, which took n bytes, or failed.  The source that
    * called it is removed; the pointer that is reset is that of stdout, whether
    * the source was that of stdout or of stderr.
    */
  function LocalWrite(r: Raw, took: Option<nat>): Raw
    requires took.Some? ==> took.value <= |r.toLocal|
  {
    if took.None? then Close(r, true)
    else
      Update(r.(toLocal := r.toLocal[took.value..], stdoutSource := Absent,
                stderrSource := if r.hasStdout || r.stderrSource == Absent then r.stderrSource else Removed,
                log := r.log.(delivered := r.log.delivered + r.toLocal[..took.value])))
  }

  datatype RawEvent =
    | StreamReady(receipt: Receipt, send: Sending)
    | ReadsLocal(data: Option<seq<byte>>)
    | WritesLocal(took: Option<nat>)
    | IsDetached

  predicate Enabled(r: Raw, e: RawEvent) {
    match e
    case StreamReady(receipt, send) =>
      && r.attached && (receipt.NotReadable? || r.readable) && (send.NotWritable? || r.writable)
      && (receipt.Gets? ==> |r.toLocal| + |receipt.chunk| <= BUFFER)
      && (send.Takes? ==> send.count <= |r.toConsole|)
    case ReadsLocal(data) =>
      r.stdinSource == Attached && (data.Some? ==> |r.toConsole| + |data.value| <= TypingRoom(r))
    case WritesLocal(took) =>
      (if r.hasStdout then r.stdoutSource else r.stderrSource) == Attached &&
      (took.Some? ==> took.value <= |r.toLocal|)
    case IsDetached => true
  }

  function Next(r: Raw, e: RawEvent): Raw
    requires Enabled(r, e)
  {
    match e
    case StreamReady(receipt, send) => StreamReadWrite(r, receipt, send)
    case ReadsLocal(data) => LocalRead(r, data)
    case WritesLocal(took) => LocalWrite(r, took)
    case IsDetached => Detach(r)
  }

  function Run(r: Raw, events: seq<RawEvent>): Option<Raw>
    decreases |events|
  {
    if events == [] then Some(r)
    else if Enabled(r, events[0]) then Run(Next(r, events[0]), events[1..])
    else None
  }

  // What every event keeps.

  /** Bytes accepted are bytes passed on and bytes queued, while the console is attached. */
  ghost predicate Conserved(r: Raw) {
    && r.log.delivered <= r.log.received && r.log.sent <= r.log.typed
    && (r.attached ==> r.log.received == r.log.delivered + r.toLocal && r.log.typed == r.log.sent + r.toConsole)
  }

  /** The sources are those that the queues call for, except that the stderr source may be a removed one. */
  ghost predicate SourcesOk(r: Raw) {
    if r.attached then
      && |r.toLocal| <= BUFFER && |r.toConsole| <= TypingRoom(r)
      && r.readable == (|r.toLocal| < BUFFER) && r.writable == (r.toConsole != [])
      && r.stdinSource == (if r.hasStdin && |r.toConsole| < BUFFER && !r.localEOF then Attached else Absent)
      && r.stdoutSource == (if r.hasStdout && r.toLocal != [] then Attached else Absent)
      && (r.hasStdout || r.toLocal == [] ==> r.stderrSource == Absent)
      && (!r.hasStdout && r.toLocal != [] ==> r.stderrSource != Absent)
    else
      && r.toLocal == [] && r.toConsole == [] && !r.readable && !r.writable
      && r.stdinSource == r.stdoutSource == r.stderrSource == Absent
  }

  ghost predicate RawOk(r: Raw) {
    Conserved(r) && SourcesOk(r)
  }

  lemma SendOk(r: Raw, send: Sending)
    requires Conserved(r) && r.attached && |r.toLocal| <= BUFFER && |r.toConsole| <= TypingRoom(r)
    requires send.Takes? ==> send.count <= |r.toConsole|
    requires r.stdinSource == (if r.hasStdin && |r.toConsole| < BUFFER && !r.localEOF then Attached else Absent)
    requires r.hasStdout ==> r.stderrSource == Absent && r.stdoutSource != Removed
    requires !r.hasStdout ==> r.stdoutSource == Absent
    ensures RawOk(AfterSend(r, send))
  {
    if send.Takes? {
      assert r.toConsole == r.toConsole[..send.count] + r.toConsole[send.count..];
    }
  }

  lemma CloseOk(r: Raw, error: bool)
    requires r.log.delivered <= r.log.received && r.log.sent <= r.log.typed
    requires r.attached || SourcesOk(r)
    ensures RawOk(Close(r, error)) && RawOk(Detach(r))
  {
  }

  lemma StreamOk(r: Raw, receipt: Receipt, send: Sending)
    requires RawOk(r) && Enabled(r, StreamReady(receipt, send))
    ensures RawOk(StreamReadWrite(r, receipt, send))
  {
    CloseOk(r, true);
    CloseOk(r, false);
    match receipt
    case NotReadable =>
      hide AfterSend;
      SendOk(r, send);
    case Gets(chunk) =>
      hide AfterSend, Close;
      if chunk != [] {
        var got := r.(toLocal := r.toLocal + chunk, log := r.log.(received := r.log.received + chunk));
        assert Conserved(got) by {
          assert (r.log.delivered + r.toLocal) + chunk == r.log.delivered + (r.toLocal + chunk);
        }
        SendOk(got, send);
      }
    case _ => hide AfterSend, Close;
  }

  lemma ReadOk(r: Raw, data: Option<seq<byte>>)
    requires RawOk(r) && Enabled(r, ReadsLocal(data))
    ensures RawOk(LocalRead(r, data))
  {
    CloseOk(r, true);
    CloseOk(r, false);
    hide Close;
    if data.Some? {
      assert (r.log.sent + r.toConsole) + data.value == r.log.sent + (r.toConsole + data.value);
    }
  }

  lemma WriteOk(r: Raw, took: Option<nat>)
    requires RawOk(r) && Enabled(r, WritesLocal(took))
    ensures RawOk(LocalWrite(r, took))
  {
    CloseOk(r, true);
    hide Close;
    if took.Some? {
      assert r.toLocal == r.toLocal[..took.value] + r.toLocal[took.value..];
      assert r.log.delivered + r.toLocal ==
             (r.log.delivered + r.toLocal[..took.value]) + r.toLocal[took.value..];
    }
  }

  lemma NextOk(r: Raw, e: RawEvent)
    requires RawOk(r) && Enabled(r, e)
    ensures RawOk(Next(r, e))
  {
    CloseOk(r, false);
    hide StreamReadWrite, LocalRead, LocalWrite, RawOk;
    match e
    case StreamReady(receipt, send) => StreamOk(r, receipt, send);
    case ReadsLocal(data) => ReadOk(r, data);
    case WritesLocal(took) => WriteOk(r, took);
    case IsDetached =>
  }

  lemma {:induction false} RunOk(r: Raw, events: seq<RawEvent>)
    requires RawOk(r) && Run(r, events).Some?
    ensures RawOk(Run(r, events).value)
    decreases |events|
  {
    hide RawOk, Next, Enabled;
    if events != [] {
      NextOk(r, events[0]);
      RunOk(Next(r, events[0]), events[1..]);
    }
  }

  /**
    * No byte is lost, repeated or reordered, in either direction and however
    * reads and writes are split, until the console is closed; what was queued
    * then is dropped.
    */
  lemma BytesConserved(hasStdin: bool, hasStdout: bool, escape: byte, events: seq<RawEvent>)
    requires Run(Attach(Fresh(hasStdin, hasStdout, escape)), events).Some?
    ensures var r := Run(Attach(Fresh(hasStdin, hasStdout, escape)), events).value;
            && r.log.delivered <= r.log.received && r.log.sent <= r.log.typed
            && |r.toLocal| <= BUFFER && |r.toConsole| <= BUFFER
            && (r.attached ==> r.log.received == r.log.delivered + r.toLocal && r.log.typed == r.log.sent + r.toConsole)
  {
    RunOk(Attach(Fresh(hasStdin, hasStdout, escape)), events);
  }

  /**
    * The escape character as the first byte of a read closes the console, without
    * an error and with nothing of that read passed on; no other read closes it.
    */
  lemma EscapeCloses(r: Raw, data: seq<byte>)
    requires RawOk(r) && Enabled(r, ReadsLocal(Some(data)))
    ensures var n := Next(r, ReadsLocal(Some(data)));
            if data != [] && data[0] == r.escape then
              && !n.attached && n.log.closed == r.log.closed + [false]
              && n.log.typed == r.log.typed && n.log.sent == r.log.sent
            else
              && n.attached && n.log.closed == r.log.closed && n.log.typed == r.log.typed + data
              && n.toConsole == r.toConsole + data && (n.localEOF <==> data == [])
  {
    assert r.log.typed + [] == r.log.typed && r.toConsole + [] == r.toConsole;
  }

  // Does the output keep moving?

  /** Output is queued, and the only source that could write it is a removed one. */
  predicate Stuck(r: Raw) {
    r.attached && !r.hasStdout && r.toLocal != [] && r.stderrSource == Removed
  }

  /** After a write that left something in the queue, the console is stuck if and only if it has no stdout. */
  lemma PartialWriteSticks(r: Raw, n: nat)
    requires RawOk(r) && Enabled(r, WritesLocal(Some(n))) && n < |r.toLocal|
    ensures Stuck(Next(r, WritesLocal(Some(n)))) <==> !r.hasStdout
  {
  }

  /** This happens as soon as two bytes arrive and one of them is taken. */
  lemma BecomesStuck(hasStdin: bool, escape: byte) returns (events: seq<RawEvent>)
    ensures Run(Attach(Fresh(hasStdin, false, escape)), events).Some?
    ensures Stuck(Run(Attach(Fresh(hasStdin, false, escape)), events).value)
  {
    var start := Attach(Fresh(hasStdin, false, escape));
    var first, second := StreamReady(Gets([104, 105]), NotWritable), WritesLocal(Some(1));
    events := [first, second];
    assert events[1..] == [second] && [second][1..] == [];
    var r := Next(start, first);
    assert r.toLocal == [104, 105];
    assert Run(Next(r, second), []) == Some(Next(r, second));
    assert Run(r, [second]) == Some(Next(r, second));
  }

  lemma CloseIsOver(r: Raw, error: bool)
    ensures !Close(r, error).attached && Close(r, error).log.delivered == r.log.delivered
  {
  }

  lemma StaysStuck(r: Raw, e: RawEvent)
    requires RawOk(r) && Stuck(r) && Enabled(r, e)
    ensures Next(r, e).log.delivered == r.log.delivered
    ensures Next(r, e).attached ==> Stuck(Next(r, e))
  {
    CloseIsOver(r, true);
    CloseIsOver(r, false);
    if e.StreamReady? && e.receipt.Gets? {
      CloseIsOver(r.(toLocal := r.toLocal + e.receipt.chunk,
                     log := r.log.(received := r.log.received + e.receipt.chunk)), true);
    }
    hide Close, RawOk;
  }

  lemma DetachedIsOver(r: Raw, e: RawEvent)
    requires RawOk(r) && !r.attached && Enabled(r, e)
    ensures Next(r, e) == r
  {
  }

  /** A stuck console never delivers another byte. */
  lemma {:induction false} StuckForever(r: Raw, events: seq<RawEvent>)
    requires RawOk(r) && (Stuck(r) || !r.attached) && Run(r, events).Some?
    ensures Run(r, events).value.log.delivered == r.log.delivered
    decreases |events|
  {
    hide RawOk, Next, Enabled;
    if events != [] {
      NextOk(r, events[0]);
      if r.attached {
        StaysStuck(r, events[0]);
      } else {
        DetachedIsOver(r, events[0]);
      }
      StuckForever(Next(r, events[0]), events[1..]);
    }
  }

  /** One that is not stuck can deliver all that it has accepted, and room is made for more. */
  lemma OutputMoves(r: Raw)
    requires RawOk(r) && r.attached && r.toLocal != [] && !Stuck(r)
    ensures Enabled(r, WritesLocal(Some(|r.toLocal|)))
    ensures var n := Next(r, WritesLocal(Some(|r.toLocal|)));
            && n.attached && n.log.delivered == n.log.received && n.readable
            && |n.log.delivered| > |r.log.delivered|
  {
  }

  /**
    * So in every run, with output queued: more can be delivered if and only if
    * the console is not stuck, and a console with stdout never is.
    */
  lemma MovesUnlessStuck(hasStdin: bool, hasStdout: bool, escape: byte, events: seq<RawEvent>)
    requires Run(Attach(Fresh(hasStdin, hasStdout, escape)), events).Some?
    requires var r := Run(Attach(Fresh(hasStdin, hasStdout, escape)), events).value; r.attached && r.toLocal != []
    ensures var r := Run(Attach(Fresh(hasStdin, hasStdout, escape)), events).value;
            && (hasStdout ==> !Stuck(r))
            && ((exists more :: Run(r, more).Some? && |Run(r, more).value.log.delivered| > |r.log.delivered|)
                <==> !Stuck(r))
  {
    var start := Attach(Fresh(hasStdin, hasStdout, escape));
    RunOk(start, events);
    KindsStay(start, events);
    var r := Run(start, events).value;
    if Stuck(r) {
      forall more | Run(r, more).Some? ensures Run(r, more).value.log.delivered == r.log.delivered {
        StuckForever(r, more);
      }
    } else {
      var more := Delivers(r);
    }
  }

  lemma Delivers(r: Raw) returns (more: seq<RawEvent>)
    requires RawOk(r) && r.attached && r.toLocal != [] && !Stuck(r)
    ensures Run(r, more).Some? && |Run(r, more).value.log.delivered| > |r.log.delivered|
  {
    OutputMoves(r);
    var e := WritesLocal(Some(|r.toLocal|));
    hide Enabled, Next, RawOk;
    more := [e];
    assert more[1..] == [];
    assert Run(Next(r, e), []) == Some(Next(r, e));
  }

  lemma {:induction false} KindsStay(r: Raw, events: seq<RawEvent>)
    requires Run(r, events).Some?
    ensures Run(r, events).value.hasStdout == r.hasStdout
    decreases |events|
  {
    if events != [] {
      KindsStay(Next(r, events[0]), events[1..]);
    }
  }
}
