/**
  * Shutdown of the whole: once the application is done and nothing fails, every
  * run comes to its end.  Each action that moves output on uses up some of a
  * bounded amount of work, no other action adds to it, and until the console is
  * closed there is always one that moves output on.
  */
module SessionShutdown {
  import opened Options
  import opened Xdr
  import opened Protocol
  import opened Flow
  import opened Session
  import opened SessionInvariant
  import opened SessionOut
  import opened SessionIn
  import opened SessionTheorems
  import opened SessionProgress
  import HostTheorems
  import H = HostMachine
  import G = GuestMachine

  /** Standard error is drained as meant, or the application wrote none. */
  predicate Drains(s: Session) {
    s.host.form == H.AsMeant || s.guest.log.stderrRead == []
  }

  /**
    * The application is done, and the guest has built EXIT.  Until the host has
    * it, the guest goes on sending; the host has not failed.
    */
  ghost predicate Ending(s: Session) {
    && Inv(s) && s.raw && Drains(s) && G.AppDone(s.guest)
    && s.host.state in {H.Running, H.Stopping, H.Finished}
    && (s.host.state == H.Running ==> G.Looping(s.guest))
  }

  /** What the host still has to do, in bytes, weighted by how far they have to go. */
  function HostWork(h: H.Host): int {
    2 * |RxData(h.rx)| + (|h.out| - h.outOffset) + (|h.err| - h.errOffset)
    + (if h.state == H.Finished then |TxRest(h.tx)| else 30)
  }

  function Work(s: Session): int {
    4 * |TxRest(s.guest.tx)| + 3 * |s.toHost| + HostWork(s.host)
  }

  lemma WorkIsNat(s: Session)
    requires Inv(s)
    ensures Work(s) >= 0
  {
    hide OutFlow, InFlow, InData, G.GuestOk, H.StateOk, H.OutboxOk, H.DeliveryOk, H.SignalsOk;
  }

  /** Closed without an error, after "exited". */
  ghost predicate ClosedWell(s: Session) {
    Inv(s) && s.host.log.exited != [] && s.host.log.closed == [false]
  }

  lemma EndingState(s: Session)
    requires Ending(s)
    ensures s.guest.state == G.Running
    ensures s.guest.tx.Some? ==> TxOpen(s.guest.tx.value)
    ensures s.guest.log.sent != [] && H.Last(s.guest.log.sent).header.proc == EXIT
    ensures H.StateOk(s.host) && H.QueuesOk(s.host)
  {
    hide OutFlow, InFlow, InData, H.OutboxOk, H.DeliveryOk, H.SignalsOk, G.RxOk, G.StdinOk, G.ExitOk, EncodeI32, Encode;
  }

  /** In every state of such a session the host can drain what it has queued. */
  lemma NothingStuck(s: Session)
    requires Inv(s) && Drains(s) && s.host.state != H.Inactive
    ensures HostTheorems.Drainable(s.host)
  {
    hide EncodeI32, OutFlow, InFlow, InData, PayloadOf, H.StateOk, H.OutboxOk, H.SignalsOk, G.RxOk, G.TxOk, G.StdinOk,
      G.ExitOk, G.SentShape;
    ReceivedIsPrefix(s);
    PayloadPrefix(s.host.log.received, s.guest.log.sent, STDERR);
    if s.guest.log.stderrRead == [] {
      assert s.host.log.stderrWritten + s.host.err[s.host.errOffset..] == [];
      assert s.host.err[s.host.errOffset..] == [];
    }
  }

  // What may happen, and what moves output on.

  /** At least one byte of output, or of QUIT, moves on. */
  predicate Productive(s: Session, a: Action) {
    && s.host.state != H.Inactive
    && match a
       case OfHost(e) =>
         e.Receives? || HostTheorems.TakesSome(e) || (e.Sends? && e.count > 0 && s.host.state == H.Finished)
       case OfGuest(e) => e.Sends? && e.count > 0
       case _ => false
  }

  // Steps of the host.

  lemma DrainedWork(h: H.Host, other: seq<byte>)
    requires h.state in {H.Running, H.Stopping} && h.outOffset <= |h.out| && h.errOffset <= |h.err|
    ensures var n := H.Drained(h, other);
            && HostWork(n) <= HostWork(h) && n.form == h.form
            && n.state in {h.state, H.Finished} && (n.state == H.Finished ==> h.state == H.Stopping)
  {
    hide Encode;
    if h.state == H.Stopping && |other| == 0 {
      assert |TxRest(H.Drained(h, other).tx)| == FRAME_MIN;
    }
  }

  /** The host goes on, with this much less to do. */
  ghost predicate HostGoesOn(h: H.Host, n: H.Host, less: int) {
    && HostWork(n) <= HostWork(h) - less && n.form == h.form
    && n.state in {H.Running, H.Stopping, H.Finished} && (n.state == H.Running ==> h.state == H.Running)
  }

  lemma WriteWork(h: H.Host, e: H.HostEvent)
    requires h.state in {H.Running, H.Stopping} && H.QueuesOk(h) && HostTheorems.Drainable(h)
    requires H.Enabled(h, e) && (e.WritesStdout? || e.WritesStderr?)
    ensures HostGoesOn(h, H.Next(h, e), e.count)
  {
    hide H.Drained;
    if e.WritesStdout? {
      var w := h.(log := h.log.(stdoutWritten := h.log.stdoutWritten + h.out[h.outOffset..h.outOffset + e.count]));
      DrainedWork(w.(out := [], outOffset := 0), h.err);
    } else {
      var start := H.StderrStart(h);
      var w := h.(log := h.log.(stderrWritten := h.log.stderrWritten + h.err[start..start + e.count]));
      DrainedWork(w.(err := [], errOffset := 0), h.out);
    }
  }

  /** Timers, input, and packets to the guest make no difference to output. */
  lemma OtherWork(h: H.Host, e: H.HostEvent)
    requires H.StateOk(h) && h.state in {H.Running, H.Stopping, H.Finished} && H.Enabled(h, e)
    requires e.TimerFires? || (e.Sends? && h.state == H.Running) ||
             (e.ReadsStdin? && (e.data == [] || h.escape != Some(e.data[0])))
    ensures HostGoesOn(h, H.Next(h, e), 0)
  {
    hide Encode, EncodeI32;
  }

  lemma QuitWork(h: H.Host, count: nat)
    requires H.HostOk(h) && h.state == H.Finished && H.Enabled(h, H.Sends(count))
    ensures count < |TxRest(h.tx)| ==> HostGoesOn(h, H.Next(h, H.Sends(count)), count)
    ensures count == |TxRest(h.tx)| ==> count > 0 && H.Next(h, H.Sends(count)).log.closed == [false]
    ensures count <= |TxRest(h.tx)|
  {
    HostTheorems.QuitCloses(h, count);
    hide Encode, EncodeI32, H.Send, H.OutboxOk, H.DeliveryOk, H.SignalsOk;
  }

  lemma HostStep(s: Session, e: H.HostEvent)
    requires Ending(s) && Enabled(s, OfHost(e)) && !Failing(s.host.escape, OfHost(e))
    ensures Forward(s, OfHost(e), Next(s, OfHost(e)))
  {
    hide Inv, H.Next, H.Enabled, HostWork, TxRest, Next, Enabled;
    ActionKeeps(s, OfHost(e));
    HostAlone(s, e);
    HostEventEnabled(s, e);
    if e.Sends? && s.host.state == H.Finished {
      QuitStep(s, e.count);
    } else {
      HostWorks(s, e);
    }
  }

  /** The work of every event other than sending QUIT. */
  lemma HostWorks(s: Session, e: H.HostEvent)
    requires Ending(s) && Enabled(s, OfHost(e)) && !Failing(s.host.escape, OfHost(e))
    requires !(e.Sends? && s.host.state == H.Finished)
    ensures HostGoesOn(s.host, H.Next(s.host, e), if e.Receives? then -2 * |e.chunk| else HostTheorems.Bytes(e))
    ensures e.Receives? ==> 0 < |e.chunk| <= |s.toHost|
  {
    EndingState(s);
    NothingStuck(s);
    hide Inv, H.Next, HostWork, TxRest;
    if e.Receives? {
      ReceivesIs(s.host, e.chunk);
      assert s.host.state == H.Running;
      ReceiveWork(s, e.chunk);
    } else if e.WritesStdout? || e.WritesStderr? {
      WriteWork(s.host, e);
    } else {
      OtherWork(s.host, e);
    }
  }

  lemma QuitStep(s: Session, count: nat)
    requires Ending(s) && Enabled(s, OfHost(H.Sends(count))) && s.host.state == H.Finished
    requires Inv(Next(s, OfHost(H.Sends(count))))
    ensures Forward(s, OfHost(H.Sends(count)), Next(s, OfHost(H.Sends(count))))
  {
    hide Inv, H.Next, H.Enabled, HostWork, TxRest, Next, Enabled, H.HostOk;
    var e := H.Sends(count);
    HostAlone(s, e);
    InvHost(s);
    FinishedSignals(s);
    HostEventEnabled(s, e);
    QuitWork(s.host, count);
    if count == |TxRest(s.host.tx)| {
      SendSignals(s.host, count);
    }
  }

  lemma ReceivesIs(h: H.Host, chunk: seq<byte>)
    requires H.Enabled(h, H.Receives(chunk))
    ensures H.Next(h, H.Receives(chunk)) == H.Receive(h, chunk)
  {
  }

  lemma InvHost(s: Session)
    requires Inv(s)
    ensures H.HostOk(s.host) && G.GuestOk(s.guest)
  {
  }

  lemma SendSignals(h: H.Host, count: nat)
    requires H.Enabled(h, H.Sends(count)) && h.state == H.Finished
    ensures H.Next(h, H.Sends(count)).log.exited == h.log.exited
  {
    hide Encode, EncodeI32;
  }

  lemma FinishedSignals(s: Session)
    requires Inv(s) && s.host.state == H.Finished
    ensures s.host.log.exited != [] && s.host.log.closed == []
  {
    hide OutFlow, InFlow, InData, G.GuestOk, H.StateOk, H.OutboxOk, H.DeliveryOk;
  }

  /** The host is running and has room, so it awaits EXIT at least, and bytes of it are there. */
  lemma BytesAreThere(s: Session)
    requires Ending(s) && s.host.state == H.Running && s.guest.tx.None? && s.host.out == [] && s.host.err == []
    ensures s.host.rx.Some? && |s.host.rx.value.data| < s.host.rx.value.length && s.toHost != []
    ensures s.host.rx.value.length >= LEN_MAX
  {
    EndingState(s);
    ExitPending(s);
    hide InFlow, InData, G.GuestOk, H.OutboxOk, H.DeliveryOk, H.SignalsOk, Wire, Encode, DecodeLength;
    var rx := s.host.rx.value;
    var pending := s.guest.log.sent[|s.host.log.received|..];
    assert ToHost(s) == rx.data + s.toHost;
    QueueRoom(s.host.log.received, s.guest.log.sent, ToHost(s), true, rx, s.toHost);
    WireIsLong(pending);
    assert s.toHost == [] ==> ToHost(s) == rx.data;
  }

  lemma WireIsLong(ms: seq<Message>)
    requires AllSendable(ms) && ms != []
    ensures |Wire(ms)| >= |Encode(ms[0])| >= FRAME_MIN
  {
  }

  lemma ExitPending(s: Session)
    requires Inv(s) && s.host.state == H.Running && s.guest.log.sent != []
    requires H.Last(s.guest.log.sent).header.proc == EXIT
    ensures |s.host.log.received| < |s.guest.log.sent|
  {
    hide InFlow, InData, G.GuestOk, H.StateOk, H.OutboxOk, H.DeliveryOk, H.QueuesOk, Wire;
    ReceivedIsPrefix(s);
    assert s.host.log.received == s.guest.log.sent ==> s.host.log.exited != [];
  }

  /** The host takes what there is of the packet that it awaits. */
  function Chunk(s: Session): (chunk: seq<byte>)
    requires s.host.rx.Some? && |s.host.rx.value.data| < s.host.rx.value.length
    ensures chunk <= s.toHost && |s.host.rx.value.data| + |chunk| <= s.host.rx.value.length
    ensures s.toHost != [] ==> chunk != []
  {
    var room := s.host.rx.value.length - |s.host.rx.value.data|;
    if |s.toHost| <= room then s.toHost else s.toHost[..room]
  }

  /** Dispatching a message moves its payload one place on, and no more. */
  lemma DeliverWork(h: H.Host, m: Message)
    requires h.state == H.Running && h.rx.None? && m.header.status == STATUS_OK && H.QueuesOk(h)
    requires m.header.proc in {STDOUT, STDERR} || (m.header.proc == EXIT && |m.payload| == 4)
    ensures var d := H.Deliver(h, m);
            && HostWork(d) <= HostWork(h) + |m.payload| && d.rx.None?
            && d.form == h.form && d.state in {H.Running, H.Stopping, H.Finished}
  {
    hide Encode, DecodeI32;
    if m.header.proc == EXIT && h.out == [] && h.err == [] {
      assert |TxRest(H.Deliver(h, m).tx)| == FRAME_MIN;
    }
  }

  lemma FrameWork(s: Session, chunk: seq<byte>)
    requires Ending(s) && Enabled(s, OfHost(H.Receives(chunk))) && s.host.state == H.Running
    requires |s.host.rx.value.data + chunk| == s.host.rx.value.length > LEN_MAX
    ensures var n := H.Receive(s.host, chunk);
            && HostWork(n) <= HostWork(s.host) + 2 * |chunk| && n.form == s.host.form
            && n.state in {H.Running, H.Stopping, H.Finished}
  {
    hide PayloadOf, Queue, DecodeLength, H.Dispatch, H.OutboxOk, H.DeliveryOk, G.TxOk, G.RxOk, G.StdinOk, G.ExitOk,
      InFlow, InData, EncodeI32;
    HostReceives(s, chunk);
    var data := s.host.rx.value.data + chunk;
    var rest := s.toHost[|chunk|..] + TxRest(s.guest.tx);
    assert ToHost(s) == data + rest;
    FrameReceived(s.host, chunk, s.guest, rest);
    var m := s.guest.log.sent[|s.host.log.received|];
    FrameSize(data);
    DeliverWork(s.host.(rx := None), m);
    hide HostWork;
    WorkOfRx(s.host);
    FrameDone(s.host, data);
  }

  lemma WorkOfRx(h: H.Host)
    requires h.rx.Some?
    ensures HostWork(h) == HostWork(h.(rx := None)) + 2 * |h.rx.value.data|
  {
  }

  /** Re-arming rx adds no work. */
  lemma FrameDone(h: H.Host, data: seq<byte>)
    requires h.state == H.Running && |data| > LEN_MAX
    ensures var d := H.Dispatch(h.(rx := None), data);
            var n := H.ProcessRx(h.(rx := None), data);
            (d.rx.None? ==> HostWork(n) == HostWork(d)) && n.form == d.form && n.state == d.state
  {
    hide H.Dispatch;
  }

  lemma FrameSize(frame: seq<byte>)
    ensures DecodeFrame(frame).Some? ==> |DecodeFrame(frame).value.payload| == |frame| - FRAME_MIN
  {
  }

  lemma ReceiveWork(s: Session, chunk: seq<byte>)
    requires Ending(s) && Enabled(s, OfHost(H.Receives(chunk))) && s.host.state == H.Running
    ensures var n := H.Receive(s.host, chunk);
            && HostWork(n) <= HostWork(s.host) + 2 * |chunk| && n.form == s.host.form
            && n.state in {H.Running, H.Stopping, H.Finished}
  {
    hide Inv, H.Receive;
    if |s.host.rx.value.data + chunk| < s.host.rx.value.length || s.host.rx.value.length == LEN_MAX {
      PartOut(s, chunk);
    } else {
      FrameWork(s, chunk);
    }
  }

  // Steps of the guest.

  /** What the guest still has to send, and what it has built EXIT from. */
  ghost predicate StillDone(g: G.Guest, n: G.Guest) {
    n.tx == g.tx && G.AppDone(n) && n.log.stderrRead == g.log.stderrRead
  }

  lemma GuestOther(g: G.Guest, e: G.GuestEvent)
    requires G.AppDone(g) && g.state == G.Running && G.Enabled(g, e) && !e.Sends? && !e.Receives? && !e.SendFails?
    ensures StillDone(g, G.Next(g, e))
    ensures G.Looping(g) && !Failing(None, OfGuest(e)) ==> G.Looping(G.Next(g, e))
  {
    hide Encode, EncodeI32;
  }

  lemma GuestReads(g: G.Guest, chunk: seq<byte>, runs: bool)
    requires G.AppDone(g) && g.state == G.Running && G.Enabled(g, G.Receives(chunk, runs))
    ensures StillDone(g, G.Receive(g, chunk, runs))
    ensures G.Receive(g, chunk, runs).log.fault != IoFault
  {
    hide DecodeFrame, DecodeLength;
  }

  /** While the host runs it has not sent QUIT, and the guest does not end. */
  lemma GuestStays(s: Session, chunk: seq<byte>, runs: bool)
    requires Ending(s) && s.host.state == H.Running && Enabled(s, OfGuest(G.Receives(chunk, runs)))
    ensures G.Looping(G.Receive(s.guest, chunk, runs))
  {
    var a := OfGuest(G.Receives(chunk, runs));
    EndingState(s);
    ActionKeeps(s, a);
    GuestReceives(s, chunk, runs);
    GuestReads(s.guest, chunk, runs);
    NotGarbled(s);
    NotGarbled(Next(s, a));
    assert G.RxOk(s.guest) && s.guest.log.fault == NoFault by { RunningRx(s); }
    assert !G.Receive(s.guest, chunk, runs).log.fault.Protocol?();
    hide Inv, InFlow, InData, G.Receive, Next, Enabled;
    assert Reads(s.host, s.guest, s.guest.rx.value.data + (chunk + s.toGuest[|chunk|..])) by { ReadsNow(s); }
    var rest := s.toGuest[|chunk|..];
    if |s.guest.rx.value.data + chunk| < s.guest.rx.value.length || s.guest.rx.value.length == LEN_MAX {
      GuestPart(s.host, s.guest, chunk, rest, runs);
    } else {
      FrameStays(s.host, s.guest, chunk, rest, runs);
    }
  }

  lemma ReadsNow(s: Session)
    requires Inv(s) && G.Looping(s.guest) && s.guest.rx.Some?
    ensures Reads(s.host, s.guest, s.guest.rx.value.data + s.toGuest)
  {
    hide Reads, H.HostOk, G.GuestOk, OutFlow, InData;
  }

  lemma NotGarbled(s: Session)
    requires Inv(s) && s.host.state == H.Running
    ensures !s.host.log.garbled && H.OutboxOk(s.host) && !s.guest.log.fault.Protocol?()
  {
    hide OutFlow, InFlow, G.GuestOk, H.StateOk, H.QueuesOk, H.DeliveryOk, H.SignalsOk, H.OutboxShape;
  }

  lemma FrameStays(h: H.Host, g: G.Guest, chunk: seq<byte>, rest: seq<byte>, runs: bool)
    requires g.state == G.Running && g.rx.Some? && FrameRoom(g.rx.value) && H.OutboxOk(h) && h.state == H.Running
    requires |g.rx.value.data + chunk| == g.rx.value.length > LEN_MAX && 0 < |chunk|
    requires Reads(h, g, g.rx.value.data + (chunk + rest)) && !h.log.garbled
    ensures G.Receive(g, chunk, runs).quit == g.quit
  {
    GuestFrame(h, g, chunk, rest, runs);
    NoQuitYet(h, |g.log.received|);
    hide DecodeFrame, DecodeLength, Reads, Queue, H.OutboxOk, PayloadOf;
    var m := h.log.outbox[|g.log.received|];
    assert G.Receive(g, chunk, runs) == G.Deliver(g, m);
  }

  lemma NoQuitYet(h: H.Host, i: nat)
    requires H.OutboxOk(h) && h.state == H.Running && i < |h.log.outbox|
    ensures h.log.outbox[i].header.proc == STDIN
  {
    assert H.OutboxMessage(h.log.outbox, i, h.log.stdinRead, h.localEOF, h.state in {H.Finished, H.Inactive});
  }

  /** The rest of the session is as it was. */
  lemma GuestAlone(s: Session, e: G.GuestEvent)
    requires Enabled(s, OfGuest(e)) && !e.Sends?
    ensures var n := Next(s, OfGuest(e));
            n.guest == G.Next(s.guest, e) && n.host == s.host && n.toHost == s.toHost && n.raw == s.raw
    ensures G.Enabled(s.guest, e)
  {
    hide G.Next, G.Enabled;
  }

  lemma GuestStep(s: Session, e: G.GuestEvent)
    requires Ending(s) && Enabled(s, OfGuest(e)) && !Failing(s.host.escape, OfGuest(e))
    ensures Forward(s, OfGuest(e), Next(s, OfGuest(e)))
  {
    hide Inv, HostWork, Next, Enabled, TxRest, G.Next;
    ActionKeeps(s, OfGuest(e));
    if e.Sends? {
      GuestSends(s, e.count);
    } else {
      GuestAlone(s, e);
      GuestQuiet(s, e);
    }
  }

  lemma GuestQuiet(s: Session, e: G.GuestEvent)
    requires Ending(s) && Enabled(s, OfGuest(e)) && !Failing(s.host.escape, OfGuest(e)) && !e.Sends?
    ensures StillDone(s.guest, G.Next(s.guest, e))
    ensures s.host.state == H.Running ==> G.Looping(G.Next(s.guest, e))
  {
    EndingState(s);
    hide Inv;
    if e.Receives? {
      GuestReceives(s, e.chunk, e.runs);
      hide G.Receive;
      GuestReads(s.guest, e.chunk, e.runs);
      if s.host.state == H.Running {
        GuestStays(s, e.chunk, e.runs);
      }
    } else {
      GuestOther(s.guest, e);
    }
  }

  // Runs.

  /** The action keeps the session on its way, or closes the console. */
  ghost predicate Forward(s: Session, a: Action, n: Session) {
    || (Ending(n) && Work(n) <= Work(s) - (if Productive(s, a) then 1 else 0))
    || (ClosedWell(n) && Productive(s, a))
  }

  lemma ActionForward(s: Session, a: Action)
    requires Ending(s) && Enabled(s, a) && !Failing(s.host.escape, a)
    ensures Forward(s, a, Next(s, a))
  {
    hide Forward, Ending, Next, Enabled, Failing;
    match a
    case OfHost(e) => HostStep(s, e);
    case OfGuest(e) => GuestStep(s, e);
    case _ => assert false by { EndingRaw(s); }
  }

  lemma EndingRaw(s: Session)
    requires Ending(s)
    ensures forall a | Enabled(s, a) :: a.OfHost? || a.OfGuest?
  {
    hide Inv;
  }

  lemma ClosedStays(s: Session, a: Action)
    requires ClosedWell(s) && Enabled(s, a) && !Failing(s.host.escape, a)
    ensures ClosedWell(Next(s, a))
  {
    ActionKeeps(s, a);
    ClosedIsWell(s);
    hide Inv, G.Next;
  }

  /** How many of the actions are productive. */
  function Progress(s: Session, actions: seq<Action>): nat
    requires Run(s, actions).Some?
  {
    if actions == [] then 0
    else
      var front := actions[..|actions| - 1];
      Progress(s, front) + if Productive(Run(s, front).value, actions[|actions| - 1]) then 1 else 0
  }

  ghost predicate NothingFails(escape: Option<byte>, actions: seq<Action>) {
    forall i | 0 <= i < |actions| :: !Failing(escape, actions[i])
  }

  /**
    * Shutdown terminates.  Once the application is done, in every run without a
    * failure at most Work(s) actions are productive; when they have been taken,
    * in whatever order and with whatever else in between, the console has been
    * closed without an error, after "exited", with every byte of output
    * written.  Until then another productive action is possible.
    */
  lemma {:induction false} ShutdownTerminates(s: Session, actions: seq<Action>)
    requires Ending(s) && Run(s, actions).Some? && NothingFails(s.host.escape, actions)
    ensures var n := Run(s, actions).value;
            && n.host.escape == s.host.escape
            && Progress(s, actions) <= Work(s)
            && (if Ending(n) then
                  && Progress(s, actions) <= Work(s) - Work(n)
                  && (exists a :: Enabled(n, a) && Productive(n, a) && !Failing(n.host.escape, a))
                else ClosedWell(n))
  {
    hide Ending, ClosedWell, Work, Next, Enabled, Failing, Productive, Forward;
    if actions == [] {
      WorkIsNat(s) by { EndingInv(s); }
      var a := Advance(s);
    } else {
      var front, a := actions[..|actions| - 1], actions[|actions| - 1];
      assert NothingFails(s.host.escape, front);
      ShutdownTerminates(s, front);
      var m := Run(s, front).value;
      var n := Next(m, a);
      EscapeStays(m, a);
      if Ending(m) {
        ActionForward(m, a);
        WorkIsNat(m) by { EndingInv(m); }
        ForwardIs(m, a, n);
        if Ending(n) {
          WorkIsNat(n) by { EndingInv(n); }
          var next := Advance(n);
        }
      } else {
        ClosedStays(m, a);
        ClosedNotProductive(m, a);
        ClosedNotEnding(n);
      }
    }
  }

  lemma ForwardIs(s: Session, a: Action, n: Session)
    requires Ending(s) && Forward(s, a, n) && Work(s) >= 0
    ensures Ending(n) ==> Work(n) <= Work(s) - (if Productive(s, a) then 1 else 0)
    ensures !Ending(n) ==> ClosedWell(n) && Productive(s, a) && Work(s) > 0
  {
    hide Inv;
    if ClosedWell(n) {
      ClosedNotEnding(n);
      WorkIsSome(s);
    }
  }

  lemma ClosedNotEnding(s: Session)
    requires ClosedWell(s)
    ensures !Ending(s)
  {
    ClosedIsWell(s);
    hide Inv;
  }

  lemma ClosedNotProductive(s: Session, a: Action)
    requires ClosedWell(s)
    ensures !Productive(s, a)
  {
    ClosedIsWell(s);
    hide Inv;
  }

  lemma WorkIsSome(s: Session)
    requires Ending(s)
    ensures Work(s) > 0
  {
    hide OutFlow, InFlow, InData, G.GuestOk, H.OutboxOk, H.DeliveryOk, H.SignalsOk;
  }

  /** Until the console is closed there is a productive action. */
  lemma Advance(s: Session) returns (a: Action)
    requires Ending(s)
    ensures Enabled(s, a) && Productive(s, a) && !Failing(s.host.escape, a)
  {
    hide Inv;
    if s.host.state == H.Running && s.host.out == [] && s.host.err == [] {
      a := AdvanceRunning(s);
    } else {
      EndingState(s);
      NothingStuck(s);
      hide Encode;
      a := OfHost(if s.host.state == H.Finished then H.Sends(|TxRest(s.host.tx)|)
                  else if s.host.out != [] then H.WritesStdout(|s.host.out| - s.host.outOffset)
                  else H.WritesStderr(|s.host.err| - s.host.errOffset));
    }
  }

  lemma AdvanceRunning(s: Session) returns (a: Action)
    requires Ending(s) && s.host.state == H.Running && s.host.out == [] && s.host.err == []
    ensures Enabled(s, a) && Productive(s, a) && !Failing(s.host.escape, a)
  {
    hide Inv, Encode;
    EndingState(s);
    if s.guest.tx.Some? {
      a := OfGuest(G.Sends(|TxRest(s.guest.tx)|));
    } else {
      BytesAreThere(s);
      a := OfHost(H.Receives(Chunk(s)));
    }
  }

  /** Some run of productive actions closes the console. */
  lemma {:induction false} CanFinish(s: Session) returns (actions: seq<Action>)
    requires Ending(s)
    ensures Run(s, actions).Some? && ClosedWell(Run(s, actions).value)
    decreases Work(s)
  {
    hide Ending, ClosedWell, Next, Enabled, Failing, Productive, Work, Forward;
    WorkIsNat(s) by { EndingInv(s); }
    var a := Advance(s);
    ActionForward(s, a);
    var n := Next(s, a);
    ForwardIs(s, a, n);
    if Ending(n) {
      WorkIsNat(n) by { EndingInv(n); }
      var rest := CanFinish(n);
      RunMore(s, a, rest);
      actions := [a] + rest;
    } else {
      RunMore(s, a, []);
      actions := [a] + [];
    }
  }

  lemma EndingInv(s: Session)
    requires Ending(s)
    ensures Inv(s)
  {
  }

  lemma ClosedIsWell(s: Session)
    requires ClosedWell(s)
    ensures s.host.state == H.Inactive && s.host.log.closed == [false] && |s.host.log.exited| == 1
    ensures s.host.log.stdoutWritten == s.guest.log.stdoutRead
    ensures s.host.log.stderrWritten == s.guest.log.stderrRead
  {
    FinishedHasAll(s);
    hide OutFlow, InFlow, InData, G.GuestOk, H.StateOk, H.OutboxOk, H.DeliveryOk, H.QueuesOk;
  }

  // As written.

  /** As written, no session ever shows a byte of standard error. */
  lemma {:induction false} NoStderrShown(escape: Option<byte>, actions: seq<Action>)
    requires RunFromStart(H.AsWritten, escape, actions).Some?
    ensures var s := RunFromStart(H.AsWritten, escape, actions).value;
            s.host.form == H.AsWritten && s.host.log.stderrWritten == []
  {
    hide Inv, Next, Enabled, Start;
    if actions == [] {
      HostTheorems.AttachFields(H.AsWritten, escape);
      StartHost(H.AsWritten, escape);
    } else {
      var front, a := actions[..|actions| - 1], actions[|actions| - 1];
      NoStderrShown(escape, front);
      RunOk(H.AsWritten, escape, front);
      HostKeepsStderr(RunFromStart(H.AsWritten, escape, front).value, a);
    }
  }

  lemma StartHost(form: H.DrainForm, escape: Option<byte>)
    ensures Start(form, escape).host == H.Attach(H.Fresh(form, escape))
  {
  }

  lemma HostKeepsStderr(s: Session, a: Action)
    requires Inv(s) && s.host.form == H.AsWritten && Enabled(s, a)
    ensures Next(s, a).host.form == H.AsWritten
    ensures Next(s, a).host.log.stderrWritten == s.host.log.stderrWritten
  {
    hide G.Next, G.Enabled, H.Next, H.Enabled;
    if a.OfHost? {
      InvHost(s);
      hide Inv, H.HostOk;
      HostTheorems.StderrStays(s.host, a.h);
    }
  }

  lemma {:induction false} FormKept(form: H.DrainForm, escape: Option<byte>, actions: seq<Action>)
    requires RunFromStart(form, escape, actions).Some?
    ensures RunFromStart(form, escape, actions).value.host.form == form
  {
    hide Next, Enabled, Start;
    if actions == [] {
      HostTheorems.AttachFields(form, escape);
      StartHost(form, escape);
    } else {
      var front, a := actions[..|actions| - 1], actions[|actions| - 1];
      FormKept(form, escape, front);
      FormStep(RunFromStart(form, escape, front).value, a);
    }
  }

  lemma FormStep(s: Session, a: Action)
    requires Enabled(s, a)
    ensures Next(s, a).host.form == s.host.form
  {
    hide H.Next, G.Next;
    if a.OfHost? {
      HostTheorems.FormStays(s.host, a.h);
    }
  }

  lemma {:induction false} StderrReadGrows(s: Session, actions: seq<Action>)
    requires Run(s, actions).Some?
    ensures |Run(s, actions).value.guest.log.stderrRead| >= |s.guest.log.stderrRead|
  {
    hide Next, Enabled;
    if actions != [] {
      var front, a := actions[..|actions| - 1], actions[|actions| - 1];
      StderrReadGrows(s, front);
      StderrReadStep(Run(s, front).value, a);
    }
  }

  lemma StderrReadStep(s: Session, a: Action)
    requires Enabled(s, a)
    ensures |Next(s, a).guest.log.stderrRead| >= |s.guest.log.stderrRead|
  {
    hide H.Next, G.Next, G.Enabled;
    if a.OfGuest? {
      GuestStderrGrows(s.guest, a.g);
    }
  }

  lemma GuestStderrGrows(g: G.Guest, e: G.GuestEvent)
    requires G.Enabled(g, e)
    ensures |G.Next(g, e).log.stderrRead| >= |g.log.stderrRead|
  {
    hide EncodeI32, G.Receive, G.Reap, G.AppOut, G.AppErr;
    match e
    case Receives(chunk, runs) => ReceiveStderr(g, chunk, runs);
    case Reaps(app, status) => ReapStderr(g, app, status);
    case AppWritesOut(data) => AppOutStderr(g, data);
    case AppWritesErr(data) => AppErrStderr(g, data);
    case _ =>
  }

  lemma PostsStderr(g: G.Guest)
    ensures G.PostExit(g).log.stderrRead == g.log.stderrRead
  {
    hide Encode, EncodeI32;
  }

  lemma ReceiveStderr(g: G.Guest, chunk: seq<byte>, runs: bool)
    requires G.Enabled(g, G.Receives(chunk, runs))
    ensures G.Receive(g, chunk, runs).log.stderrRead == g.log.stderrRead
  {
    hide DecodeFrame, DecodeLength, EncodeI32, G.Fail, G.Deliver;
    DeliverStderr(g);
  }

  lemma DeliverStderr(g: G.Guest)
    ensures forall m :: G.Deliver(g, m).log.stderrRead == g.log.stderrRead
    ensures forall fault :: G.Fail(g, fault).log.stderrRead == g.log.stderrRead
  {
  }

  lemma ReapStderr(g: G.Guest, app: bool, status: int32)
    ensures G.Reap(g, app, status).log.stderrRead == g.log.stderrRead
  {
    hide G.PostExit;
    PostsStderr(G.Reaped(g, app, status));
  }

  lemma AppOutStderr(g: G.Guest, data: seq<byte>)
    requires |data| <= G.APP_IO
    ensures G.AppOut(g, data).log.stderrRead == g.log.stderrRead
  {
    hide G.PostExit, Encode;
    PostsStderr(g.(appOutEOF := true));
  }

  lemma AppErrStderr(g: G.Guest, data: seq<byte>)
    requires |data| <= G.APP_IO
    ensures G.AppErr(g, data).log.stderrRead == g.log.stderrRead + data
  {
    hide G.PostExit, Encode;
    PostsStderr(g.(appErrEOF := true));
  }

  lemma DoneIsRaw(s: Session)
    requires Inv(s) && G.AppDone(s.guest)
    ensures s.raw
  {
    hide H.HostOk, G.GuestOk, OutFlow, InFlow, InData;
  }

  lemma NeverCompletes(escape: Option<byte>, actions: seq<Action>, more: seq<Action>)
    requires RunFromStart(H.AsWritten, escape, actions).Some?
    requires RunFromStart(H.AsWritten, escape, actions).value.guest.log.stderrRead != []
    ensures !Completes(H.AsWritten, escape, actions + more)
  {
    hide Start, Run;
    if RunFromStart(H.AsWritten, escape, actions + more).Some? {
      NoStderrShown(escape, actions + more);
      RunAppend(Start(H.AsWritten, escape), actions, more);
      StderrReadGrows(RunFromStart(H.AsWritten, escape, actions).value, more);
    }
  }

  ghost predicate Completes(form: H.DrainForm, escape: Option<byte>, actions: seq<Action>) {
    && RunFromStart(form, escape, actions).Some?
    && var s := RunFromStart(form, escape, actions).value;
       && s.host.state == H.Inactive && s.host.log.closed == [false] && |s.host.log.exited| == 1
       && s.host.log.stdoutWritten == s.guest.log.stdoutRead
       && s.host.log.stderrWritten == s.guest.log.stderrRead
  }

  lemma CompletesIs(form: H.DrainForm, escape: Option<byte>, actions: seq<Action>)
    requires RunFromStart(form, escape, actions).Some? && ClosedWell(RunFromStart(form, escape, actions).value)
    ensures Completes(form, escape, actions)
  {
    hide Run, ClosedWell;
    ClosedIsWell(RunFromStart(form, escape, actions).value);
  }

  /**
    * Exactly when: a run in which the application is done and nothing has
    * failed can be continued until the console is closed without an error, after
    * "exited", with every byte of output written, if and only if standard error
    * is drained as meant or the application wrote none.
    */
  lemma ShutdownCanComplete(form: H.DrainForm, escape: Option<byte>, actions: seq<Action>)
    requires RunFromStart(form, escape, actions).Some?
    requires var s := RunFromStart(form, escape, actions).value;
             && s.host.state in {H.Running, H.Stopping, H.Finished}
             && (s.host.state == H.Running ==> G.Looping(s.guest)) && G.AppDone(s.guest)
    ensures (exists more :: Completes(form, escape, actions + more)) <==>
            form == H.AsMeant || RunFromStart(form, escape, actions).value.guest.log.stderrRead == []
  {
    hide Start, Completes, Next, Enabled, Inv, Run, ClosedWell;
    RunOk(form, escape, actions);
    FormKept(form, escape, actions);
    var s := RunFromStart(form, escape, actions).value;
    if Drains(s) {
      DoneIsRaw(s);
      assert Ending(s);
      var more := CanFinish(s);
      RunAppend(Start(form, escape), actions, more);
      CompletesIs(form, escape, actions + more);
    } else {
      forall more ensures !Completes(form, escape, actions + more) {
        NeverCompletes(escape, actions, more);
      }
    }
  }
}
